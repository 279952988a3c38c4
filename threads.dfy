/**
 * Thread bookkeeping that does not depend on the session object: the known
 * thread list and its duplicate-free extension, the listing of stored
 * threads, the sidebar's newest-first order and the title of a thread.
 */
module Threads {
  import opened Messages
  import opened Store

  predicate NoDuplicates<T(==)>(s: seq<T>)
  {
    forall i, j :: 0 <= i < j < |s| ==> s[i] != s[j]
  }

  /** The thread list after `add_thread(tid)`: `tid` is appended only when absent. */
  function AddedThread(threads: seq<ThreadId>, tid: ThreadId): (r: seq<ThreadId>)
    ensures tid in r
    ensures forall t :: t in r <==> t in threads || t == tid
    ensures |r| == |threads| + 1 <==> tid !in threads
    ensures |r| == |threads| <==> tid in threads
    ensures |threads| <= |r| && r[..|threads|] == threads
    ensures tid !in threads ==> r[|r| - 1] == tid
    ensures NoDuplicates(threads) ==> NoDuplicates(r)
  {
    if tid in threads then threads else threads + [tid]
  }

  /** Adding the same thread a second time changes nothing. */
  lemma AddedThreadIdempotent(threads: seq<ThreadId>, tid: ThreadId)
    ensures AddedThread(AddedThread(threads, tid), tid) == AddedThread(threads, tid)
  {
  }

  /**
   * `get_all_threads`: collect the thread id of every checkpoint into a set,
   * then turn the set into a list (in no particular order).
   */
  method GetAllThreads(checkpoints: seq<Checkpoint>) returns (threads: seq<ThreadId>)
    ensures NoDuplicates(threads)
    ensures forall t :: t in threads <==> t in ThreadIds(checkpoints)
  {
    var all: set<ThreadId> := {};
    for k := 0 to |checkpoints|
      invariant all == ThreadIds(checkpoints[..k])
    {
      assert checkpoints[..k + 1] == checkpoints[..k] + [checkpoints[k]];
      all := all + {checkpoints[k].threadId};
    }
    assert checkpoints[..|checkpoints|] == checkpoints;
    threads := [];
    var rest := all;
    while rest != {}
      invariant NoDuplicates(threads)
      invariant forall t :: t in threads ==> t !in rest
      invariant forall t :: t in all <==> t in threads || t in rest
      decreases rest
    {
      var t :| t in rest;
      threads := threads + [t];
      rest := rest - {t};
    }
  }

  /** `chat_threads[::-1]`: the sidebar lists the most recently added thread first. */
  function Reversed(s: seq<ThreadId>): (r: seq<ThreadId>)
    ensures |r| == |s|
    ensures forall i :: 0 <= i < |s| ==> r[i] == s[|s| - 1 - i]
  {
    if s == [] then [] else Reversed(s[1..]) + [s[0]]
  }

  /** Python's `s[:n]`: the first n characters, or all of s when it is shorter. */
  function Take(s: string, n: nat): (r: string)
    ensures |r| == if |s| <= n then |s| else n
    ensures r == s[..|r|]
  {
    if |s| <= n then s else s[..n]
  }

  const TitleLength: nat := 30
  const IdPrefixLength: nat := 12

  /**
   * `get_thread_title`: the first message of the thread cut to 30 characters,
   * with "..." when it was longer; "Chat " and the id's first 12 characters
   * for a thread with no messages.
   */
  function ThreadTitle(log: seq<Checkpoint>, tid: ThreadId): (title: string)
    ensures var ms := LoadConversation(log, tid);
      ms != [] ==>
        && (|ms[0].content| <= TitleLength ==> title == ms[0].content)
        && (|ms[0].content| > TitleLength ==> title == ms[0].content[..TitleLength] + "...")
    ensures LoadConversation(log, tid) == [] ==>
      && |title| == 5 + (if |tid| <= IdPrefixLength then |tid| else IdPrefixLength)
      && title[..5] == "Chat "
      && title[5..] == tid[..|title| - 5]
    ensures |title| <= TitleLength + 3
  {
    var ms := LoadConversation(log, tid);
    if ms != [] then
      Take(ms[0].content, TitleLength) + (if |ms[0].content| > TitleLength then "..." else "")
    else
      "Chat " + Take(tid, IdPrefixLength)
  }
}
