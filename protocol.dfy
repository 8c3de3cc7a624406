/** Addresses, payloads and the events the chat server emits over socket.io.
    Every `socket.emit(name, payload)` of the server becomes one entry
    (addressee, event) appended to an outbox. */
module Protocol {

  /** A socket.io connection id (`socket.id`). */
  type SocketId = string

  /** A participant's self-chosen or generated code (the record's `id`). */
  type Code = string

  /** A payload field that the client may omit (JavaScript `undefined`). */
  datatype Option<+T> = None | Some(value: T)

  /** JavaScript truthiness of an optional string field: present and non-empty. */
  predicate Truthy(s: Option<string>) {
    s.Some? && s.value != ""
  }

  /** The server-to-client events of the matchmaking core. */
  datatype Event =
    | YourCode(code: Code)
    | PartnerFound(partnerId: SocketId, gender: Option<string>, code: Code)
    | Status(text: string)
    | ReceiveMessage(msg: string)
    | Typing(status: bool)
    | PartnerDisconnected

  /** The status text sent when a requester is queued by `find-partner`. */
  const SearchingText := "Searching for a partner..."

  /** The status text sent to a participant who skipped. */
  const SearchingAgainText := "Searching for a new partner..."

  /** Every emit so far, oldest first. */
  type Outbox = seq<(SocketId, Event)>

  /** The events delivered to socket `sid`, in the order they were emitted. */
  function SentTo(out: Outbox, sid: SocketId): (r: seq<Event>)
    ensures |r| <= |out|
    ensures forall e :: e in r <==> (sid, e) in out
  {
    if out == [] then []
    else (if out[0].0 == sid then [out[0].1] else []) + SentTo(out[1..], sid)
  }

  /** Emitting more events never changes what a socket was sent before. */
  lemma {:induction false} SentToAppend(a: Outbox, b: Outbox, sid: SocketId)
    ensures SentTo(a + b, sid) == SentTo(a, sid) + SentTo(b, sid)
  {
    if a == [] {
      assert a + b == b;
    } else {
      assert (a + b)[1..] == a[1..] + b;
      SentToAppend(a[1..], b, sid);
    }
  }

  /** One emit reaches its addressee once and nobody else. */
  lemma SentToOne(out: Outbox, to: SocketId, e: Event, sid: SocketId)
    ensures SentTo(out + [(to, e)], sid) == SentTo(out, sid) + (if to == sid then [e] else [])
  {
    SentToAppend(out, [(to, e)], sid);
    assert [(to, e)][1..] == [];
  }
}
