/**
 * The per-connection session state (`st.session_state`) and the events that
 * change it: starting a session, "New Chat", choosing a thread in the
 * sidebar, and sending a message.
 */
module App {
  import opened Messages
  import opened Store
  import opened Threads

  /** The UI events the session reacts to; the new id and the model's reply come from outside. */
  datatype Event =
    | NewChat(freshId: ThreadId)
    | SelectThread(tid: ThreadId)
    | Send(input: string, reply: string)
    | SendFailed(input: string)

  /** The displayed history is the stored thread `tid`, mapped to records. */
  ghost predicate SyncedWith(history: seq<Record>, log: seq<Checkpoint>, tid: ThreadId)
  {
    history == ToRecords(LoadConversation(log, tid))
  }

  /** Every thread that has a checkpoint is in the thread list. */
  ghost predicate ListedIn(threads: seq<ThreadId>, log: seq<Checkpoint>)
  {
    forall t :: t in ThreadIds(log) ==> t in threads
  }

  /** The two records a turn shows are the records of the two messages it stores. */
  lemma TurnRecords(log: seq<Checkpoint>, tid: ThreadId, input: string, reply: string)
    ensures ToRecords(LoadConversation(AfterTurn(log, tid, input, reply), tid))
            == ToRecords(LoadConversation(log, tid)) + [Record(UserRole, input), Record(AssistantRole, reply)]
  {
    var turn := [HumanMessage(input), AIMessage(reply)];
    AfterTurnFacts(log, tid, input, reply);
    ToRecordsConcat(LoadConversation(log, tid), turn);
    assert ToRecords(turn) == [Record(UserRole, input), Record(AssistantRole, reply)];
  }

  /** A completed turn on a listed thread keeps the history in sync and every stored thread listed. */
  lemma TurnKeepsSync(history: seq<Record>, threads: seq<ThreadId>, log: seq<Checkpoint>,
                      tid: ThreadId, input: string, reply: string)
    ensures SyncedWith(history, log, tid) ==>
      SyncedWith(history + [Record(UserRole, input), Record(AssistantRole, reply)],
                 AfterTurn(log, tid, input, reply), tid)
    ensures ListedIn(threads, log) && tid in threads ==> ListedIn(threads, AfterTurn(log, tid, input, reply))
  {
    TurnRecords(log, tid, input, reply);
    AfterTurnFacts(log, tid, input, reply);
  }

  /**
   * A turn whose model call fails after the graph stored the user's message:
   * the history shown (with the user's record) still equals the stored thread.
   */
  lemma FailedTurnKeepsSync(history: seq<Record>, threads: seq<ThreadId>, log: seq<Checkpoint>,
                            tid: ThreadId, input: string)
    ensures SyncedWith(history, log, tid) ==>
      SyncedWith(history + [Record(UserRole, input)], Append(log, tid, HumanMessage(input)), tid)
    ensures ListedIn(threads, log) && tid in threads ==> ListedIn(threads, Append(log, tid, HumanMessage(input)))
  {
    LoadAfterAppend(log, tid, HumanMessage(input));
    ToRecordsConcat(LoadConversation(log, tid), [HumanMessage(input)]);
    ThreadIdsAfterAppend(log, tid, HumanMessage(input));
  }

  /** Had the failure come before anything was stored, the history shown would no longer match the store. */
  lemma NothingStoredBreaksSync(history: seq<Record>, log: seq<Checkpoint>, tid: ThreadId, input: string)
    requires SyncedWith(history, log, tid)
    ensures !SyncedWith(history + [Record(UserRole, input)], log, tid)
  {
  }

  class Session {
    var threadId: ThreadId
    var chatThreads: seq<ThreadId>
    var messageHistory: seq<Record>

    /** The thread list has no duplicates and holds the current thread. */
    ghost predicate Valid()
      reads this
    {
      NoDuplicates(chatThreads) && threadId in chatThreads
    }

    /** The displayed history is the stored current thread, mapped to records. */
    ghost predicate Synced(log: seq<Checkpoint>)
      reads this
    {
      SyncedWith(messageHistory, log, threadId)
    }

    /** Every thread that has a checkpoint is in the sidebar's list. */
    ghost predicate Listed(log: seq<Checkpoint>)
      reads this
    {
      ListedIn(chatThreads, log)
    }

    /**
     * Session start: an empty history, a new current id, the stored threads
     * as the thread list, and then the current id added to it.
     */
    constructor (freshId: ThreadId, checkpoints: seq<Checkpoint>)
      ensures Valid() && Listed(checkpoints)
      ensures threadId == freshId && messageHistory == []
      ensures forall t :: t in chatThreads <==> t in ThreadIds(checkpoints) || t == freshId
      ensures freshId !in ThreadIds(checkpoints) ==>
        chatThreads[|chatThreads| - 1] == freshId && Synced(checkpoints)
    {
      var listed := GetAllThreads(checkpoints);
      messageHistory := [];
      threadId := freshId;
      chatThreads := listed;
      new;
      AddThread(threadId);
    }

    /** `add_thread`: append `tid` to the thread list unless it is already there. */
    method AddThread(tid: ThreadId)
      modifies this`chatThreads
      ensures chatThreads == AddedThread(old(chatThreads), tid)
    {
      if tid !in chatThreads {
        chatThreads := chatThreads + [tid];
      }
    }

    /** Each rerun of the script adds the current thread again, which changes nothing. */
    method Rerun()
      requires Valid()
      modifies this`chatThreads
      ensures Valid() && chatThreads == old(chatThreads)
    {
      AddThread(threadId);
    }

    /** `reset_chat`: switch to a new thread id, list it, and clear the history. */
    method ResetChat(newId: ThreadId)
      requires Valid()
      modifies this
      ensures Valid()
      ensures threadId == newId && messageHistory == []
      ensures chatThreads == AddedThread(old(chatThreads), newId)
      ensures newId !in old(chatThreads) ==> chatThreads == old(chatThreads) + [newId]
    {
      threadId := newId;
      AddThread(newId);
      messageHistory := [];
    }

    /** Choosing a thread in the sidebar: its stored messages replace the history outright. */
    method SwitchThread(tid: ThreadId, log: seq<Checkpoint>)
      requires Valid() && tid in chatThreads
      modifies this`threadId, this`messageHistory
      ensures Valid() && Synced(log)
      ensures threadId == tid
      ensures messageHistory == ToRecords(LoadConversation(log, tid))
    {
      threadId := tid;
      var messages := LoadConversation(log, tid);
      messageHistory := ToRecords(messages);
    }

    /**
     * Sending a message: the user's record is shown, the graph runs on the
     * current thread, and the assistant's record is shown. An empty input
     * does nothing.
     */
    method SendTurn(input: string, reply: string, store: Checkpointer)
      requires Valid()
      modifies this`messageHistory, store
      ensures input == "" ==> messageHistory == old(messageHistory) && store.log == old(store.log)
      ensures input != "" ==>
        && messageHistory == old(messageHistory) + [Record(UserRole, input), Record(AssistantRole, reply)]
        && store.log == AfterTurn(old(store.log), threadId, input, reply)
      ensures old(Synced(store.log)) ==> Synced(store.log)
      ensures old(Listed(store.log)) ==> Listed(store.log)
    {
      ghost var log0, history0 := store.log, messageHistory;
      if input != "" {
        messageHistory := messageHistory + [Record(UserRole, input)];
        store.RunTurn(threadId, input, reply);
        messageHistory := messageHistory + [Record(AssistantRole, reply)];
        TurnKeepsSync(history0, chatThreads, log0, threadId, input, reply);
      }
    }

    /**
     * Sending a message whose model call raises: the user's record was
     * already shown and the graph already stored the user's message; the
     * assistant's record is never added.
     */
    method FailedTurn(input: string, store: Checkpointer)
      requires Valid()
      modifies this`messageHistory, store
      ensures input == "" ==> messageHistory == old(messageHistory) && store.log == old(store.log)
      ensures input != "" ==>
        && messageHistory == old(messageHistory) + [Record(UserRole, input)]
        && store.log == Append(old(store.log), threadId, HumanMessage(input))
      ensures old(Synced(store.log)) ==> Synced(store.log)
      ensures old(Listed(store.log)) ==> Listed(store.log)
    {
      ghost var log0, history0 := store.log, messageHistory;
      if input != "" {
        messageHistory := messageHistory + [Record(UserRole, input)];
        store.RecordInput(threadId, input);
        FailedTurnKeepsSync(history0, chatThreads, log0, threadId, input);
      }
    }

    /**
     * One event of the session. With a fresh id for "New Chat", the history
     * stays equal to the stored thread and every stored thread stays listed.
     * Only sending a message changes the store.
     */
    method Handle(e: Event, store: Checkpointer)
      requires Valid() && Synced(store.log) && Listed(store.log)
      requires e.NewChat? ==> e.freshId !in chatThreads
      requires e.SelectThread? ==> e.tid in chatThreads
      modifies this, store
      ensures Valid() && Synced(store.log) && Listed(store.log)
      ensures e.NewChat? ==>
        && threadId == e.freshId && messageHistory == []
        && chatThreads == old(chatThreads) + [e.freshId]
        && store.log == old(store.log)
      ensures e.SelectThread? ==>
        && threadId == e.tid && chatThreads == old(chatThreads)
        && messageHistory == ToRecords(LoadConversation(old(store.log), e.tid))
        && store.log == old(store.log)
      ensures e.Send? ==>
        && threadId == old(threadId) && chatThreads == old(chatThreads)
        && (e.input == "" ==> messageHistory == old(messageHistory) && store.log == old(store.log))
        && (e.input != "" ==>
              && messageHistory == old(messageHistory) + [Record(UserRole, e.input), Record(AssistantRole, e.reply)]
              && store.log == AfterTurn(old(store.log), old(threadId), e.input, e.reply))
      ensures e.SendFailed? ==>
        && threadId == old(threadId) && chatThreads == old(chatThreads)
        && (e.input == "" ==> messageHistory == old(messageHistory) && store.log == old(store.log))
        && (e.input != "" ==>
              && messageHistory == old(messageHistory) + [Record(UserRole, e.input)]
              && store.log == Append(old(store.log), old(threadId), HumanMessage(e.input)))
    {
      match e
      case NewChat(freshId) =>
        ResetChat(freshId);
      case SelectThread(tid) =>
        SwitchThread(tid, store.log);
      case Send(input, reply) =>
        SendTurn(input, reply, store);
      case SendFailed(input) =>
        FailedTurn(input, store);
    }
  }
}
