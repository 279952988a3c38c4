/**
 * The conversation store: the checkpointer behind the chat graph, seen as a
 * log of checkpoints, newest first. Each checkpoint belongs to one thread and
 * records that thread's whole message sequence at that point. A thread's
 * current state is its newest checkpoint; a thread with no checkpoint has no
 * messages.
 */
module Store {
  import opened Messages

  datatype Checkpoint = Checkpoint(threadId: ThreadId, messages: seq<Message>)

  /** The thread ids that have at least one checkpoint. */
  function ThreadIds(log: seq<Checkpoint>): set<ThreadId>
  {
    set c | c in log :: c.threadId
  }

  /** An id is listed exactly when some checkpoint carries it. */
  lemma ThreadIdsMembership(log: seq<Checkpoint>, t: ThreadId)
    ensures t in ThreadIds(log) <==> exists i :: 0 <= i < |log| && log[i].threadId == t
  {
    if t in ThreadIds(log) {
      var c :| c in log && c.threadId == t;
      var i :| 0 <= i < |log| && log[i] == c;
    }
  }

  /** Position of the newest checkpoint of `tid`, or |log| when there is none. */
  function Newest(log: seq<Checkpoint>, tid: ThreadId): (i: nat)
    ensures i <= |log|
    ensures i < |log| ==> log[i].threadId == tid
    ensures forall j :: 0 <= j < i ==> log[j].threadId != tid
    ensures i == |log| <==> tid !in ThreadIds(log)
  {
    if log == [] then 0
    else if log[0].threadId == tid then 0
    else 1 + Newest(log[1..], tid)
  }

  /** `load_conversation`: the messages of the thread's current state, or none for an unknown id. */
  function LoadConversation(log: seq<Checkpoint>, tid: ThreadId): (ms: seq<Message>)
    ensures tid !in ThreadIds(log) ==> ms == []
    ensures tid in ThreadIds(log) ==> ms == log[Newest(log, tid)].messages
  {
    var i := Newest(log, tid);
    if i < |log| then log[i].messages else []
  }

  /** Appending one message to a thread writes a new checkpoint holding its grown sequence. */
  function Append(log: seq<Checkpoint>, tid: ThreadId, m: Message): (log': seq<Checkpoint>)
  {
    [Checkpoint(tid, LoadConversation(log, tid) + [m])] + log
  }

  /** Append then load: the appended message comes last, the earlier ones stay as they were. */
  lemma LoadAfterAppend(log: seq<Checkpoint>, tid: ThreadId, m: Message)
    ensures LoadConversation(Append(log, tid, m), tid) == LoadConversation(log, tid) + [m]
  {
  }

  /** Appending to one thread leaves every other thread's messages alone. */
  lemma LoadOtherAfterAppend(log: seq<Checkpoint>, tid: ThreadId, m: Message, other: ThreadId)
    requires other != tid
    ensures LoadConversation(Append(log, tid, m), other) == LoadConversation(log, other)
  {
    var log' := Append(log, tid, m);
    var i := Newest(log, other);
    assert log'[0].threadId != other;
    assert log'[1..] == log;
    assert Newest(log', other) == 1 + i;
    if i < |log| {
      assert log'[1 + i] == log[i];
      assert LoadConversation(log', other) == log[i].messages;
    } else {
      assert LoadConversation(log', other) == [];
    }
  }

  /** One run of the chat graph on a thread: the user's message, then the model's reply. */
  function AfterTurn(log: seq<Checkpoint>, tid: ThreadId, input: string, reply: string): (log': seq<Checkpoint>)
  {
    Append(Append(log, tid, HumanMessage(input)), tid, AIMessage(reply))
  }

  /** The log is append-only: an append adds one checkpoint of that thread and rewrites none. */
  lemma AppendKeepsOlderCheckpoints(log: seq<Checkpoint>, tid: ThreadId, m: Message)
    ensures |Append(log, tid, m)| == |log| + 1
    ensures Append(log, tid, m)[1..] == log
    ensures Append(log, tid, m)[0].threadId == tid
  {
  }

  /** A turn adds two checkpoints of its thread and rewrites none. */
  lemma AfterTurnKeepsOlderCheckpoints(log: seq<Checkpoint>, tid: ThreadId, input: string, reply: string)
    ensures |AfterTurn(log, tid, input, reply)| == |log| + 2
    ensures AfterTurn(log, tid, input, reply)[2..] == log
    ensures AfterTurn(log, tid, input, reply)[0].threadId == tid
    ensures AfterTurn(log, tid, input, reply)[1].threadId == tid
  {
    var mid := Append(log, tid, HumanMessage(input));
    AppendKeepsOlderCheckpoints(log, tid, HumanMessage(input));
    AppendKeepsOlderCheckpoints(mid, tid, AIMessage(reply));
    assert AfterTurn(log, tid, input, reply)[1..] == mid;
  }

  /** After an append the thread is listed, and no other id becomes listed. */
  lemma ThreadIdsAfterAppend(log: seq<Checkpoint>, tid: ThreadId, m: Message)
    ensures ThreadIds(Append(log, tid, m)) == ThreadIds(log) + {tid}
  {
  }

  /** The checkpointer object, whose log the graph extends on every turn. */
  class Checkpointer {
    var log: seq<Checkpoint>

    /** Opening the database finds whatever earlier runs left there. */
    constructor (existing: seq<Checkpoint>)
      ensures log == existing
    {
      log := existing;
    }

    /**
     * A run of the chat graph that fails inside the model call: the graph has
     * already added the user's message to the thread, and adds nothing more.
     */
    method RecordInput(tid: ThreadId, input: string)
      modifies this
      ensures log == Append(old(log), tid, HumanMessage(input))
    {
      log := Append(log, tid, HumanMessage(input));
    }

    /**
     * One run of the chat graph on thread `tid`: the user's message is added
     * to the thread's state, then the model's reply.
     */
    method RunTurn(tid: ThreadId, input: string, reply: string)
      modifies this
      ensures log == AfterTurn(old(log), tid, input, reply)
    {
      var mid := Append(log, tid, HumanMessage(input));
      log := Append(mid, tid, AIMessage(reply));
    }
  }

  /**
   * What a turn does to the store: the thread gains the user's message and
   * then the reply, every other thread loads as before, and the thread is
   * listed from then on.
   */
  lemma AfterTurnFacts(log: seq<Checkpoint>, tid: ThreadId, input: string, reply: string)
    ensures LoadConversation(AfterTurn(log, tid, input, reply), tid)
            == LoadConversation(log, tid) + [HumanMessage(input), AIMessage(reply)]
    ensures forall t :: t != tid ==> LoadConversation(AfterTurn(log, tid, input, reply), t) == LoadConversation(log, t)
    ensures ThreadIds(AfterTurn(log, tid, input, reply)) == ThreadIds(log) + {tid}
  {
    var mid := Append(log, tid, HumanMessage(input));
    LoadAfterAppend(log, tid, HumanMessage(input));
    LoadAfterAppend(mid, tid, AIMessage(reply));
    ThreadIdsAfterAppend(log, tid, HumanMessage(input));
    ThreadIdsAfterAppend(mid, tid, AIMessage(reply));
    forall t | t != tid
      ensures LoadConversation(Append(mid, tid, AIMessage(reply)), t) == LoadConversation(log, t)
    {
      LoadOtherAfterAppend(log, tid, HumanMessage(input), t);
      LoadOtherAfterAppend(mid, tid, AIMessage(reply), t);
    }
  }

  /** The example conversation: "Hi" from the user, then "Hello!" from the model. */
  lemma FirstTurnExample(log: seq<Checkpoint>, t1: ThreadId)
    requires t1 !in ThreadIds(log)
    ensures LoadConversation(Append(log, t1, HumanMessage("Hi")), t1) == [HumanMessage("Hi")]
    ensures LoadConversation(Append(Append(log, t1, HumanMessage("Hi")), t1, AIMessage("Hello!")), t1)
            == [HumanMessage("Hi"), AIMessage("Hello!")]
  {
    LoadAfterAppend(log, t1, HumanMessage("Hi"));
    LoadAfterAppend(Append(log, t1, HumanMessage("Hi")), t1, AIMessage("Hello!"));
  }
}
