/** Values exchanged by the chat room: the message payload, what one read
    from a client connection yields, and the HTTP-level answer to a request. */
module Chat {

  /** The payload `{username, text}` read from and written to every connection. */
  datatype Message = Message(username: string, text: string)

  /** One attempt to read a payload from a client: a decoded message, or any
      transport or decoding error (peer gone, malformed JSON, cancellation). */
  datatype ReadOutcome = Read(msg: Message) | ReadError

  /** The only path the server handles. */
  const CHAT_PATH := "/ws"

  /** What the HTTP handler answers. `UpgradeFailed` stands for whatever status
      the websocket library writes when the handshake cannot be completed;
      `Upgraded` means the request became a chat connection. */
  datatype Response = NotFound | BadRequest | UpgradeFailed | Upgraded

  /** The server never trusts the name a client puts in a payload: it replaces
      it with the name the connection was admitted under. */
  function Stamp(user: string, m: Message): (r: Message)
    ensures r.username == user
    ensures r.text == m.text
  {
    m.(username := user)
  }

  /** Stamping a run of messages read from one connection. */
  function StampAll(user: string, ms: seq<Message>): (r: seq<Message>)
    ensures |r| == |ms|
  {
    if ms == [] then [] else [Stamp(user, ms[0])] + StampAll(user, ms[1..])
  }

  /** Each stamped message carries the connection's name and the text that
      was read, in the order it was read. */
  lemma {:induction false} StampAllAt(user: string, ms: seq<Message>, i: nat)
    requires i < |ms|
    ensures StampAll(user, ms)[i] == Stamp(user, ms[i])
    ensures StampAll(user, ms)[i].username == user && StampAll(user, ms)[i].text == ms[i].text
  {
    if i > 0 {
      StampAllAt(user, ms[1..], i - 1);
    }
  }

  lemma {:induction false} StampAllSnoc(user: string, ms: seq<Message>, m: Message)
    ensures StampAll(user, ms + [m]) == StampAll(user, ms) + [Stamp(user, m)]
  {
    var l, r := StampAll(user, ms + [m]), StampAll(user, ms) + [Stamp(user, m)];
    forall i | 0 <= i < |l|
      ensures l[i] == r[i]
    {
      StampAllAt(user, ms + [m], i);
      if i < |ms| {
        StampAllAt(user, ms, i);
      }
    }
  }

  /** Whatever names the client wrote into its payloads, the messages the
      server forwards are the same once the texts agree. */
  lemma {:induction false} StampAllIgnoresClaimedName(user: string, ms: seq<Message>, ns: seq<Message>)
    requires |ms| == |ns|
    requires forall i :: 0 <= i < |ms| ==> ms[i].text == ns[i].text
    ensures StampAll(user, ms) == StampAll(user, ns)
  {
    if ms != [] {
      StampAllIgnoresClaimedName(user, ms[1..], ns[1..]);
    }
  }

  /** Who sent each message of a run. */
  function Senders(ms: seq<Message>): seq<string>
  {
    seq(|ms|, i requires 0 <= i < |ms| => ms[i].username)
  }

  /** The messages a reader loop forwards for a run of read attempts: the
      messages read before the first failure, in order. */
  function Received(incoming: seq<ReadOutcome>): (r: seq<Message>)
    ensures |r| <= |incoming|
    ensures |r| < |incoming| ==> incoming[|r|] == ReadError
  {
    if incoming == [] then []
    else match incoming[0]
      case ReadError => []
      case Read(m) => [m] + Received(incoming[1..])
  }

  /** The `i`-th forwarded message is the `i`-th read. */
  lemma {:induction false} ReceivedAt(incoming: seq<ReadOutcome>, i: nat)
    requires i < |Received(incoming)|
    ensures incoming[i] == Read(Received(incoming)[i])
  {
    if i > 0 {
      ReceivedAt(incoming[1..], i - 1);
    }
  }

  /** Every read attempt returned a message. */
  predicate AllRead(incoming: seq<ReadOutcome>)
  {
    ReadError !in incoming
  }

  lemma {:induction false} ReceivedSnoc(s: seq<ReadOutcome>, x: ReadOutcome)
    requires AllRead(s)
    ensures Received(s + [x]) == Received(s) + (if x.Read? then [x.msg] else [])
  {
    if s == [] {
      assert s + [x] == [x];
    } else {
      assert (s + [x])[1..] == s[1..] + [x];
      ReceivedSnoc(s[1..], x);
    }
  }

  /** Reads after a failure are never looked at. */
  lemma {:induction false} ReceivedStops(s: seq<ReadOutcome>, k: nat)
    requires k < |s| && s[k] == ReadError
    ensures Received(s) == Received(s[..k + 1])
  {
    if s[0].Read? {
      assert s[..k + 1][1..] == s[1..][..k];
      ReceivedStops(s[1..], k - 1);
    }
  }

  /** How a request for `CHAT_PATH` is answered, given whether the name is
      already registered and whether the websocket handshake succeeds: an
      empty or taken name is refused before any handshake. */
  function Admission(user: string, taken: bool, upgradeOk: bool): (r: Response)
    ensures r == BadRequest <==> user == "" || taken
    ensures r == UpgradeFailed <==> user != "" && !taken && !upgradeOk
    ensures r == Upgraded <==> user != "" && !taken && upgradeOk
    ensures r != NotFound
  {
    if user == "" || taken then BadRequest
    else if !upgradeOk then UpgradeFailed
    else Upgraded
  }

  /** How any request is answered: only `CHAT_PATH` reaches admission. */
  function Route(path: string, user: string, taken: bool, upgradeOk: bool): (r: Response)
    ensures r == NotFound <==> path != CHAT_PATH
    ensures path == CHAT_PATH ==> r == Admission(user, taken, upgradeOk)
  {
    if path == CHAT_PATH then Admission(user, taken, upgradeOk) else NotFound
  }
}
