/**
 * Messages as the two layers of the chat application see them: the stored
 * LangChain messages of a thread, and the role/content records the session
 * keeps in `message_history` for display.
 */
module Messages {

  /** Thread identifiers are opaque strings (in practice, printed UUID4 values). */
  type ThreadId = string

  /** A message in a thread's persisted state: a human turn or a model reply. */
  datatype Message = HumanMessage(content: string) | AIMessage(content: string)

  /** One entry of the session's `message_history`: `{"role": ..., "content": ...}`. */
  datatype Record = Record(role: string, content: string)

  const UserRole: string := "user"
  const AssistantRole: string := "assistant"

  /** The record shown for a stored message: human messages are the user's, anything else the assistant's. */
  function ToRecord(m: Message): (r: Record)
    ensures r.content == m.content
    ensures r.role == UserRole <==> m.HumanMessage?
    ensures r.role == AssistantRole <==> !m.HumanMessage?
  {
    Record(if m.HumanMessage? then UserRole else AssistantRole, m.content)
  }

  /** The list comprehension that rebuilds `message_history` from a loaded thread. */
  function ToRecords(ms: seq<Message>): (rs: seq<Record>)
    ensures |rs| == |ms|
    ensures forall i :: 0 <= i < |ms| ==> rs[i].content == ms[i].content
    ensures forall i :: 0 <= i < |ms| ==> (rs[i].role == UserRole <==> ms[i].HumanMessage?)
    ensures forall i :: 0 <= i < |ms| ==> (rs[i].role == AssistantRole <==> !ms[i].HumanMessage?)
  {
    if ms == [] then [] else [ToRecord(ms[0])] + ToRecords(ms[1..])
  }

  /** The stored message a record stands for: the inverse of ToRecord. */
  function FromRecord(r: Record): Message
  {
    if r.role == UserRole then HumanMessage(r.content) else AIMessage(r.content)
  }

  function FromRecords(rs: seq<Record>): seq<Message>
  {
    if rs == [] then [] else [FromRecord(rs[0])] + FromRecords(rs[1..])
  }

  /** The role mapping loses nothing: the loaded thread can be read back from the history. */
  lemma {:induction false} FromRecordsToRecords(ms: seq<Message>)
    ensures FromRecords(ToRecords(ms)) == ms
  {
    if ms != [] {
      assert ToRecords(ms)[1..] == ToRecords(ms[1..]);
      FromRecordsToRecords(ms[1..]);
    }
  }

  /** Mapping a thread that grew by appending is appending the mapped tail. */
  lemma {:induction false} ToRecordsConcat(a: seq<Message>, b: seq<Message>)
    ensures ToRecords(a + b) == ToRecords(a) + ToRecords(b)
  {
    if a != [] {
      assert (a + b)[1..] == a[1..] + b;
      ToRecordsConcat(a[1..], b);
    }
  }
}
