/** The conversation transcript: the records kept in the session's `messages`
    list and their projection onto the message list of a completion request. */
module Transcript {

  datatype Option<+T> = None | Some(value: T)

  /** Who wrote a message. The source stores the role as the strings
      "user" and "assistant"; no other role is ever appended. */
  datatype Role = User | Assistant

  /** One `{role, content}` record of the session's history. */
  datatype Message = Message(role: Role, content: string)

  /** One `{"role": ..., "content": ...}` entry as it goes into the request. */
  datatype WireMessage = WireMessage(role: string, content: string)

  /** Reads a role back from its wire name. */
  function ParseRole(name: string): Option<Role>
  {
    if name == "user" then Some(User)
    else if name == "assistant" then Some(Assistant)
    else None
  }

  /** The role's wire name; distinct roles get distinct names. */
  function RoleName(r: Role): (name: string)
    ensures ParseRole(name) == Some(r)
  {
    match r
    case User => "user"
    case Assistant => "assistant"
  }

  /** Copies the role and the content of one history record, nothing else. */
  function Project(m: Message): (w: WireMessage)
    ensures w.content == m.content && ParseRole(w.role) == Some(m.role)
  {
    WireMessage(RoleName(m.role), m.content)
  }

  /** Reads one request entry back as a history record. */
  function Unproject(w: WireMessage): Option<Message>
  {
    match ParseRole(w.role)
    case Some(r) => Some(Message(r, w.content))
    case None => None
  }

  /** The message list of the request: the comprehension over the whole
      history, one entry per record, in history order. */
  function Payload(history: seq<Message>): (p: seq<WireMessage>)
    ensures |p| == |history|
    ensures forall i :: 0 <= i < |history| ==> p[i] == Project(history[i])
  {
    seq(|history|, i requires 0 <= i < |history| => Project(history[i]))
  }

  /** Reads a whole request message list back as a history; None when some
      entry carries a role the transcript never stores. */
  function ParsePayload(p: seq<WireMessage>): (r: Option<seq<Message>>)
    ensures r.Some? ==> |r.value| == |p|
  {
    if p == [] then Some([])
    else
      match (Unproject(p[0]), ParsePayload(p[1..]))
      case (Some(m), Some(rest)) => Some([m] + rest)
      case _ => None
  }

  /** The projection loses nothing: the history can be read back from the
      payload, record by record and in order. */
  lemma {:induction false} PayloadRoundTrip(history: seq<Message>)
    ensures ParsePayload(Payload(history)) == Some(history)
  {
    if history != [] {
      var p := Payload(history);
      assert p[1..] == Payload(history[1..]);
      PayloadRoundTrip(history[1..]);
      assert Unproject(p[0]) == Some(history[0]);
      assert [history[0]] + history[1..] == history;
    }
  }

  /** Different histories are never sent as the same payload. */
  lemma PayloadInjective(h1: seq<Message>, h2: seq<Message>)
    requires Payload(h1) == Payload(h2)
    ensures h1 == h2
  {
    PayloadRoundTrip(h1);
    PayloadRoundTrip(h2);
  }

  /** Appending a record to the history appends its projection to the
      payload and leaves the projection of the earlier records as it was. */
  lemma PayloadAppend(history: seq<Message>, m: Message)
    ensures Payload(history + [m]) == Payload(history) + [Project(m)]
  {
    var lhs, rhs := Payload(history + [m]), Payload(history) + [Project(m)];
    assert |lhs| == |rhs|;
    forall i | 0 <= i < |lhs| ensures lhs[i] == rhs[i] {
      if i < |history| {
        assert (history + [m])[i] == history[i];
      }
    }
  }
}
