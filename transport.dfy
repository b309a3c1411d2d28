/** The websocket connection handle as far as the chat room sees it: an
    opaque id whose state is open or closed with a status code, together with
    the messages the server has written to the peer. Handshake, framing and
    JSON encoding are the websocket library's and are not modelled; whether a
    read, a write or the handshake succeeds is an input. */
module Transport {
  import opened Chat

  /** Close code for a normal closure (section 7.4.1 of RFC 6455). */
  const NORMAL_CLOSURE := 1000
  /** Close code 1011, "internal error", from the IANA WebSocket close code
      registry; the handler's deferred close uses it. */
  const INTERNAL_ERROR := 1011

  /** An accepted connection. */
  type ConnId = nat

  datatype Option<T> = None | Some(value: T)

  datatype Status = Open | Closed(code: int)

  datatype ConnState = ConnState(status: Status, sent: seq<Message>)
  {
    predicate IsOpen()
    {
      status == Open
    }
  }

  /** A connection straight after the handshake. */
  const FRESH_CONN := ConnState(Open, [])

  /** Closing an open connection records the code; closing it again fails
      and changes nothing. */
  function Close(s: ConnState, code: int): (r: ConnState)
    ensures !r.IsOpen()
    ensures s.IsOpen() ==> r.status == Closed(code)
    ensures !s.IsOpen() ==> r == s
    ensures r.sent == s.sent
  {
    if s.IsOpen() then s.(status := Closed(code)) else s
  }

  /** The code of the first close is the one that stays. */
  lemma CloseFirstCodeWins(s: ConnState, first: int, second: int)
    ensures Close(Close(s, first), second) == Close(s, first)
  {
  }

  /** A write fails when the transport refuses it (`delivered` is false) or
      the connection is closed. */
  predicate WriteFails(s: ConnState, delivered: bool)
  {
    !(delivered && s.IsOpen())
  }

  /** The connection after a write: a failed write leaves no trace, a
      successful one appends the message to what the peer has received. */
  function Write(s: ConnState, m: Message, delivered: bool): (r: ConnState)
    ensures r.status == s.status
    ensures WriteFails(s, delivered) ==> r == s
    ensures !WriteFails(s, delivered) ==> r.sent == s.sent + [m]
  {
    if WriteFails(s, delivered) then s else s.(sent := s.sent + [m])
  }
}
