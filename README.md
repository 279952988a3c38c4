# Echo chat front-end: thread and session bookkeeping in Dafny

The application is a single Streamlit script. It keeps several conversation
threads, each named by an opaque id. The messages of a thread are persisted
through a LangGraph checkpointer, and the model's replies come from a hosted
LLM. This project models the bookkeeping underneath the UI:

- **Messages** (`messages.dfy`): stored messages (`HumanMessage`, `AIMessage`).
  It also holds the `{"role", "content"}` records of the session's
  `message_history`, and the role mapping applied on a thread switch, with
  its inverse.
- **Store** (`store.dfy`): the checkpointer as a log of checkpoints, newest
  first. Each checkpoint holds one thread's whole message sequence.
  `load_conversation` reads the newest checkpoint of a thread and gives the
  empty sequence for an unknown id. Appending writes a new checkpoint. A
  `Checkpointer` object holds the log, and one run of the chat graph extends
  it.
- **Threads** (`threads.dfy`): `add_thread` as a function on the thread
  list, `get_all_threads` as a loop that collects ids into a set and then
  lists it, the sidebar's newest-first order, and `get_thread_title`.
- **App** (`session.dfy`): a `Session` class whose fields are the three
  entries of `st.session_state`. Its methods are session start, `add_thread`,
  `reset_chat`, the thread switch and sending a message, both when the
  reply arrives and when the model call raises. `Handle` dispatches one UI
  event and states the whole new state for each kind of event. It proves
  that the displayed history stays equal to the mapped stored thread, and
  that every stored thread stays in the sidebar list. For a failed send this
  holds on the assumption that the graph stored the user's message before the
  model call raised (see "Left out").
- **EnvFile** (`env_file.dfy`): the `str.strip()` applied to a key in
  `save_api`, and the loop in `del_api` that writes back every line that does
  not start with `GOOGLE_API_KEY=`.

Inputs that come from outside are parameters:
- the id `uuid.uuid4` would produce
- the text the model streams back
- the lines read from `.env`
- the checkpoints already in the database

"New Chat" needs a fresh id only where the sync invariant needs it, in
`Session.Handle`.

Notes on the source:
- A key made only of whitespace passes the form's emptiness check. `Strip`
  turns it into the empty string, so an empty key is saved. `Strip`'s third
  ensures states exactly when this happens. The next rerun treats the empty
  key as missing and shows the form again, so nothing breaks.
- `CONFIG` is computed before the "New Chat" and thread buttons are handled.
  In the run where a button is pressed, the graph therefore would still use
  the old id. Streamlit handles a button press and a chat input in separate
  reruns, so a message is always sent on the current thread. `SendTurn`
  models that.

## Model

| member | source | states |
|---|---|---|
| Messages.ToRecord | file_check.py:160 | the record keeps the content; its role is "user" exactly for a human message and "assistant" exactly otherwise |
| Messages.ToRecords | file_check.py:159-162 | the mapped history has the same length and order as the thread, with contents equal and roles mapped element by element |
| Messages.FromRecordsToRecords | file_check.py:159-162 | the mapping loses nothing: reading the records back yields the loaded thread |
| Messages.ToRecordsConcat | file_check.py:179-194 | mapping a thread that grew by appending equals appending the mapped new messages to the mapped old ones |
| Store.Newest | file_check.py:122 | the position of the newest checkpoint of the thread: it belongs to the thread, nothing before it does, and it is past the end exactly when the thread has no checkpoint |
| Store.LoadConversation | file_check.py:121-123 | an unknown id loads the empty sequence; a known id loads the messages of its newest checkpoint |
| Store.LoadAfterAppend | file_check.py:186-190 | after appending a message to a thread, loading it gives the old messages followed by the new one |
| Store.LoadOtherAfterAppend | file_check.py:186-190 | appending to one thread leaves what every other thread loads unchanged |
| Store.ThreadIdsMembership | file_check.py:104-105 | an id is among the stored thread ids exactly when some checkpoint carries it |
| Store.AppendKeepsOlderCheckpoints | file_check.py:186-190 | an append adds one checkpoint, of the thread written to, and leaves every older checkpoint as it was |
| Store.AfterTurnKeepsOlderCheckpoints | file_check.py:184-191 | a turn adds two checkpoints, both of its thread, and leaves every older checkpoint as it was |
| Store.ThreadIdsAfterAppend | file_check.py:104-105 | after an append the thread has a checkpoint, and no other id gains one |
| Store.FirstTurnExample | file_check.py:179-194 | on a new thread, "Hi" from the user loads as [Hi]; the reply "Hello!" after it loads as [Hi, Hello!] |
| Store.Checkpointer.constructor | file_check.py:79-80 | the opened checkpointer holds the checkpoints already in the database |
| Store.Checkpointer.RunTurn | file_check.py:184-191 | a run of the graph replaces the log by the log after the turn: the user's message appended to the thread, then the reply |
| Store.Checkpointer.RecordInput | file_check.py:186-187 | a run that fails inside the model call replaces the log by the log with only the user's message appended to the thread |
| Store.AfterTurnFacts | file_check.py:184-191 | after a turn the thread loads its old messages followed by the user's message and the reply; every other thread loads as before; the thread is listed and no other id becomes listed |
| App.TurnRecords | file_check.py:179-194 | the two records the session appends on a turn are exactly the records of the two messages the turn stores |
| App.TurnKeepsSync | file_check.py:179-194 | a completed turn keeps the history equal to the mapped stored thread, and keeps every stored thread listed when the turn's thread is listed |
| App.FailedTurnKeepsSync | file_check.py:179-187 | a turn that stores the user's message and then fails keeps the history (with only the user's record added) equal to the mapped stored thread, and keeps every stored thread listed |
| App.NothingStoredBreaksSync | file_check.py:179 | if the failure came before the graph stored anything, the history with the user's record would no longer match the store |
| Threads.AddedThread | file_check.py:117-119 | adds the id exactly when it is absent, at the end; earlier entries keep their places; contains the id afterwards; no duplicate is introduced |
| Threads.AddedThreadIdempotent | file_check.py:117-119 | adding the same id a second time changes nothing |
| Threads.GetAllThreads | file_check.py:102-106 | the listed ids have no duplicates and are exactly the thread ids of the checkpoints |
| Threads.Reversed | file_check.py:154 | the sidebar order is the thread list reversed, so the most recently added thread comes first |
| Threads.Take | file_check.py:128-129 | the Python slice s[:n]: the first n characters, or all of s when it is shorter |
| Threads.ThreadTitle | file_check.py:125-129 | with messages: the first message itself when it has at most 30 characters, else its first 30 characters and "..."; without: "Chat " and the id's first 12 characters; never more than 33 characters |
| App.Session.constructor | file_check.py:135-142 | a new session has an empty history and the new id as current thread; its list holds exactly the stored threads and the new id, without duplicates; a fresh id comes last and starts in sync with the store |
| App.Session.AddThread | file_check.py:117-119 | the thread list becomes AddedThread of the old list; nothing else changes |
| App.Session.Rerun | file_check.py:142 | re-adding the current thread on every rerun leaves the thread list unchanged |
| App.Session.ResetChat | file_check.py:111-115 | the current id becomes the new id and the history is empty; the list gains the new id at its end when it was absent; the session stays valid |
| App.Session.SwitchThread | file_check.py:156-162 | the current id becomes the chosen one and the history is replaced by that thread's mapped stored messages, keeping nothing of the old history |
| App.Session.SendTurn | file_check.py:177-194 | a non-empty input grows the history by a user record and then an assistant record, earlier records unchanged, and the store by the same two messages; empty input changes nothing; the sync with the store and the listing of stored threads are kept |
| App.Session.FailedTurn | file_check.py:177-187 | a non-empty input whose model call raises grows the history by the user record only and the store by the user's message only; empty input changes nothing; the sync and the listing are kept |
| App.Session.Handle | file_check.py:150-194 | every event keeps the thread list duplicate-free and holding the current thread, the history equal to the mapped stored thread, and every stored thread listed; New Chat moves to the fresh id with an empty history and the id appended to the list; a thread choice moves to it and loads its mapped messages; neither touches the store; a send keeps the current thread and list and grows history and store by the turn (or by the user's part alone when the model call raises) |
| EnvFile.StartsWithExactly | file_check.py:40 | `startswith` holds exactly when the prefix is no longer than the line and agrees with it at every position |
| EnvFile.IsKeyLineExactly | file_check.py:40 | a line is dropped exactly when its first 15 characters are GOOGLE_API_KEY= |
| EnvFile.WithoutKeyLines | file_check.py:38-41 | the lines kept are exactly the file's lines that do not start with GOOGLE_API_KEY=, so no key line remains |
| EnvFile.WithoutKeyLinesConcat | file_check.py:38-41 | the filter works line by line: filtering a file is filtering its two halves and joining them, so order is kept |
| EnvFile.WithoutKeyLinesKeepsOtherFiles | file_check.py:38-41 | a file without a key line is written back unchanged |
| EnvFile.WithoutKeyLinesIdempotent | file_check.py:33-41 | deleting the key a second time changes nothing |
| EnvFile.FilterKeyLines | file_check.py:36-41 | the loop writes exactly the filtered lines, in their order |
| EnvFile.IsSpaceExactly | file_check.py:27 | the characters `strip` removes are exactly the 29 for which Python's `str.isspace()` holds |
| EnvFile.LeadingSpace | file_check.py:27 | counts the whitespace run at the start of the string |
| EnvFile.TrailingSpace | file_check.py:27 | counts the whitespace run at the end of the string |
| EnvFile.Strip | file_check.py:27 | the result is a slice of the key with only whitespace cut from either end; it neither starts nor ends with whitespace; it is empty exactly when the key is all whitespace |
| EnvFile.StripKeepsTrimmed | file_check.py:27 | a key with no surrounding whitespace is saved as entered |
| EnvFile.StripIdempotent | file_check.py:27 | stripping twice is stripping once |

## Left out

- Streamlit rendering and control flow (sidebar, buttons, forms, `st.chat_message`, `st.rerun`, `st.stop`): UI plumbing. The key form's emptiness check and the check of `current_api` belong to it.
- The Gemini call, the prompt text and token streaming (lines 78-90, 184-191): a remote API. The reply is an opaque string. The model assumes the string `st.write_stream` returns equals the content of the stored `AIMessage`.
- LangGraph and SqliteSaver internals (lines 75-96): foreign code. The store is a log of checkpoints. A turn adds exactly the user's message and then the reply, as two appends. The model does not capture the `add_messages` reducer's id handling, the intermediate checkpoints a run writes, or the order `list` returns (nothing here depends on it).
- Other LangChain message kinds (system, tool): this application only stores human and AI messages.
- `uuid.uuid4` randomness: the new id is a parameter. `Session.Handle` requires it to be absent from the thread list.
- File and environment I/O in `save_api` and `del_api` (`open`, `os.path.exists`, `set_key`, `os.environ`, `load_dotenv`): only the line filter and `strip` are modelled. The file's lines are an input, and the written lines are the output.
- EnvFile.Strip: Dafny characters are Unicode scalar values, so Python strings that contain lone surrogates are not covered.
- App.Session.FailedTurn: assumes the graph stored the user's message before the model call raised; LangGraph's checkpointing order is foreign code. Had nothing been stored, the history would drift from the store, as `NothingStoredBreaksSync` shows. An exception inside `st.write_stream` after part of the reply was shown is not modelled.
- Sessions are modelled one at a time. Concurrent sessions sharing one database are outside the model.
