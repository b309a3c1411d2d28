/** The chat room server: the registry of connected users, the states of the
    connections it has accepted, the writer flag and the queue standing in
    for the channel between the readers and the single writer. Each method is
    one sequential step of the handlers; the goroutines, the lock and the
    blocking hand-over of the channel are left to the caller, which
    interleaves the steps. */
module Chatroom {
  import opened Chat
  import Registry
  import opened Transport

  /** What one iteration of the writer loop did. */
  datatype WriterEvent =
    | Exited
    | Blocked
    | Broadcast(msg: Message, attempted: set<string>)

  /** The connection states after `unsubscribe(user)`: the handle registered
      under `user`, if there is one, is closed normally; no other changes. */
  function CloseRegistered(users: map<string, ConnId>, conns: map<ConnId, ConnState>, user: string): (r: map<ConnId, ConnState>)
    ensures r.Keys == conns.Keys
    ensures user in users && users[user] in conns ==> r[users[user]] == Close(conns[users[user]], NORMAL_CLOSURE)
    ensures forall id :: id in conns && (user !in users || id != users[user]) ==> r[id] == conns[id]
  {
    if user in users && users[user] in conns then
      conns[users[user] := Close(conns[users[user]], NORMAL_CLOSURE)]
    else
      conns
  }

  /** The connection states once the handler of connection `c`, admitted as
      `user`, returns after a failed read: the unsubscribe by name closes
      whatever handle `user` now has with 1000, then the deferred close
      reaches `c` and closes it with 1011 if it is still open. A `c` that
      was already closed (by a failed write) stays as it was. */
  function AfterHandlerExit(users: map<string, ConnId>, conns: map<ConnId, ConnState>, user: string, c: ConnId): (r: map<ConnId, ConnState>)
    requires c in conns
    ensures r.Keys == conns.Keys
    ensures !r[c].IsOpen() && r[c].sent == conns[c].sent
    ensures !conns[c].IsOpen() ==> r[c] == conns[c]
    ensures conns[c].IsOpen() && user in users && users[user] == c ==> r[c].status == Closed(NORMAL_CLOSURE)
    ensures conns[c].IsOpen() && (user !in users || users[user] != c) ==> r[c].status == Closed(INTERNAL_ERROR)
    ensures user in users && users[user] != c && users[user] in conns ==>
      r[users[user]] == Close(conns[users[user]], NORMAL_CLOSURE)
    ensures forall id :: id in conns && id != c && (user !in users || id != users[user]) ==> r[id] == conns[id]
  {
    var closed := CloseRegistered(users, conns, user);
    closed[c := Close(closed[c], INTERNAL_ERROR)]
  }

  /** The handles registered under the names in `names`. */
  ghost function HandlesOf(users: map<string, ConnId>, names: set<string>): set<ConnId>
  {
    set u | u in names && u in users :: users[u]
  }

  /** The handles a message from `sender` is written to. */
  ghost function RecipientIds(users: map<string, ConnId>, sender: string): set<ConnId>
  {
    HandlesOf(users, users.Keys - {sender})
  }

  /** No handle is registered under two names. */
  ghost predicate Injective(users: map<string, ConnId>)
  {
    forall u, v :: u in users && v in users && u != v ==> users[u] != users[v]
  }

  /** The registry during a fan-out round that started from `before`, once
      the recipients in `attempted` have had their write: the failing ones
      have lost their entry, every other entry is as it was. */
  ghost predicate RegistrySoFar(before: map<string, ConnId>, failing: set<string>, attempted: set<string>,
                                users: map<string, ConnId>)
  {
    && users.Keys == before.Keys - (attempted * failing)
    && (forall u :: u in users ==> users[u] == before[u])
  }

  /** The connection states during the same round, which started from
      `initial`: a failing recipient's connection is closed normally, every
      other recipient's has `msg` appended, every other handle is as it was. */
  ghost predicate ConnsSoFar(before: map<string, ConnId>, initial: map<ConnId, ConnState>, msg: Message,
                             failing: set<string>, attempted: set<string>, conns: map<ConnId, ConnState>)
  {
    && attempted <= before.Keys
    && (forall u :: u in before ==> before[u] in initial)
    && conns.Keys == initial.Keys
    && (forall u :: u in attempted && u !in failing ==>
          conns[before[u]].IsOpen() && conns[before[u]].sent == initial[before[u]].sent + [msg])
    && (forall u :: u in attempted && u in failing ==>
          conns[before[u]] == Close(initial[before[u]], NORMAL_CLOSURE))
    && (forall id :: id in initial && id !in HandlesOf(before, attempted) ==> conns[id] == initial[id])
  }

  /** One more recipient `u`: its unsubscribe when the write fails keeps
      `RegistrySoFar`. */
  lemma RegistryStep(before: map<string, ConnId>, failing: set<string>, attempted: set<string>,
                     users: map<string, ConnId>, u: string, users': map<string, ConnId>)
    requires RegistrySoFar(before, failing, attempted, users)
    requires users' == if u in failing then Registry.Remove(users, u) else users
    ensures RegistrySoFar(before, failing, attempted + {u}, users')
  {
  }

  /** One more recipient `u`: its write, or its close when the write fails,
      keeps `ConnsSoFar`. */
  lemma ConnsStep(before: map<string, ConnId>, initial: map<ConnId, ConnState>, msg: Message,
                  failing: set<string>, attempted: set<string>, conns: map<ConnId, ConnState>,
                  u: string, conns': map<ConnId, ConnState>)
    requires Injective(before)
    requires ConnsSoFar(before, initial, msg, failing, attempted, conns)
    requires u in before && u !in attempted && initial[before[u]].IsOpen()
    requires conns' == conns[before[u] :=
      if u in failing then Close(conns[before[u]], NORMAL_CLOSURE) else Write(conns[before[u]], msg, true)]
    ensures ConnsSoFar(before, initial, msg, failing, attempted + {u}, conns')
  {
    var id, now := before[u], attempted + {u};
    HandlesOfAdd(before, attempted, u);
    assert conns[id] == initial[id];
    forall v | v in now && v != u
      ensures conns'[before[v]] == conns[before[v]]
    {
      assert before[v] != id;
    }
  }

  /** Adding a name not yet attempted adds exactly its handle, which was not
      among the handles already attempted. */
  lemma HandlesOfAdd(before: map<string, ConnId>, attempted: set<string>, u: string)
    requires Injective(before)
    requires u in before && u !in attempted
    ensures before[u] !in HandlesOf(before, attempted)
    ensures HandlesOf(before, attempted + {u}) == HandlesOf(before, attempted) + {before[u]}
  {
  }

  /** What one fan-out round of `msg` does, starting from registry `before`
      and connection states `initial`, when the writes to the users in
      `failing` fail: the failing recipients are unsubscribed (their handle
      closed normally, their entry gone), every other recipient has `msg`
      appended to what it received, and the sender's handle and every handle
      not registered are untouched. */
  ghost predicate RoundResult(before: map<string, ConnId>, initial: map<ConnId, ConnState>, msg: Message,
                              failing: set<string>, users: map<string, ConnId>, conns: map<ConnId, ConnState>)
  {
    && users == Registry.AfterFanOut(before, msg.username, failing)
    && conns.Keys == initial.Keys
    && (forall u :: u in before ==> before[u] in initial)
    && (forall u :: u in before && u != msg.username && u !in failing ==>
          conns[before[u]].IsOpen() && conns[before[u]].sent == initial[before[u]].sent + [msg])
    && (forall u :: u in before && u != msg.username && u in failing ==>
          conns[before[u]] == Close(initial[before[u]], NORMAL_CLOSURE))
    && (forall id :: id in initial && id !in RecipientIds(before, msg.username) ==> conns[id] == initial[id])
    && (msg.username in before ==> conns[before[msg.username]] == initial[before[msg.username]])
  }

  /** The registry once every recipient has had its write. */
  lemma RegistryDone(before: map<string, ConnId>, failing: set<string>, sender: string, users: map<string, ConnId>)
    requires RegistrySoFar(before, failing, before.Keys - {sender}, users)
    ensures users == Registry.AfterFanOut(before, sender, failing)
  {
    var after := Registry.AfterFanOut(before, sender, failing);
    assert users.Keys == after.Keys;
  }

  /** The connection states once every recipient has had its write; the
      sender's handle is none of theirs. */
  lemma ConnsDone(before: map<string, ConnId>, initial: map<ConnId, ConnState>, msg: Message,
                  failing: set<string>, conns: map<ConnId, ConnState>)
    requires Injective(before)
    requires ConnsSoFar(before, initial, msg, failing, before.Keys - {msg.username}, conns)
    ensures msg.username in before ==> conns[before[msg.username]] == initial[before[msg.username]]
  {
    if msg.username in before {
      assert before[msg.username] !in HandlesOf(before, before.Keys - {msg.username});
    }
  }

  /** The round after every recipient has had its write. */
  lemma RoundDone(before: map<string, ConnId>, initial: map<ConnId, ConnState>, msg: Message,
                  failing: set<string>, done: set<string>, users: map<string, ConnId>, conns: map<ConnId, ConnState>)
    requires Injective(before)
    requires done == before.Keys - {msg.username}
    requires RegistrySoFar(before, failing, done, users)
    requires ConnsSoFar(before, initial, msg, failing, done, conns)
    ensures RoundResult(before, initial, msg, failing, users, conns)
  {
    RegistryDone(before, failing, msg.username, users);
    ConnsDone(before, initial, msg, failing, conns);
  }

  class Server {
    /** Username to connection handle. */
    var users: map<string, ConnId>
    /** The state of every connection accepted so far. */
    var conns: map<ConnId, ConnState>
    /** The id the next accepted connection gets; ids are never reused. */
    var nextId: ConnId
    /** Messages read but not yet taken by the writer, oldest first. */
    var queue: seq<Message>
    /** Set when a writer starts, cleared when it exits. */
    var writerEnabled: bool

    /** Every registered handle is an accepted, still open connection, and
        no handle is registered under two names. */
    ghost predicate Valid()
      reads this
    {
      && (forall u :: u in users ==> users[u] in conns && conns[users[u]].IsOpen())
      && Injective(users)
      && (forall id :: id in conns ==> id < nextId)
    }

    /** `NewServer`. */
    constructor ()
      ensures Valid()
      ensures users == map[] && conns == map[] && queue == [] && !writerEnabled
    {
      users := map[];
      conns := map[];
      nextId := 0;
      queue := [];
      writerEnabled := false;
    }

    /** The HTTP entry point: only `CHAT_PATH` reaches admission. */
    method ServeHTTP(path: string, user: string, upgradeOk: bool) returns (resp: Response, c: Option<ConnId>, startedWriter: bool)
      requires Valid()
      modifies this
      ensures Valid()
      ensures resp == Route(path, user, user in old(users), upgradeOk)
      ensures c.Some? == (resp == Upgraded)
      ensures c.Some? ==> c.value !in old(conns) && conns == old(conns)[c.value := FRESH_CONN]
      ensures c.Some? ==> users == Registry.Insert(old(users), user, c.value)
      ensures c.None? ==> users == old(users) && conns == old(conns)
      ensures startedWriter == (resp == Upgraded && !old(writerEnabled))
      ensures writerEnabled == (old(writerEnabled) || resp == Upgraded)
      ensures queue == old(queue)
    {
      if path == CHAT_PATH {
        resp, c, startedWriter := HandleWsConn(user, upgradeOk);
      } else {
        resp, c, startedWriter := NotFound, None, false;
      }
    }

    /** Admission of one websocket request, done as one uninterrupted step:
        precheck, handshake, registration, writer start. */
    method HandleWsConn(user: string, upgradeOk: bool) returns (resp: Response, c: Option<ConnId>, startedWriter: bool)
      requires Valid()
      modifies this
      ensures Valid()
      ensures resp == Admission(user, user in old(users), upgradeOk)
      ensures c.Some? == (resp == Upgraded)
      ensures c.Some? ==> c.value !in old(conns) && conns == old(conns)[c.value := FRESH_CONN]
      ensures c.Some? ==> users == Registry.Insert(old(users), user, c.value)
      ensures c.Some? ==> user !in old(users) && |users| == |old(users)| + 1
      ensures c.None? ==> users == old(users) && conns == old(conns)
      ensures startedWriter == (resp == Upgraded && !old(writerEnabled))
      ensures writerEnabled == (old(writerEnabled) || resp == Upgraded)
      ensures queue == old(queue)
    {
      c, startedWriter := None, false;
      var proceed := CheckUser(user);
      if !proceed {
        resp := BadRequest;
        return;
      }
      c := Accept(upgradeOk);
      if c.None? {
        resp := UpgradeFailed;
        return;
      }
      startedWriter := Register(user, c.value);
      resp := Upgraded;
    }

    /** The precheck before the handshake: an empty name, or one already
        registered, is answered with 400. */
    method CheckUser(user: string) returns (proceed: bool)
      ensures proceed <==> user != "" && user !in users
    {
      if user == "" {
        return false;
      }
      proceed := user !in users;
    }

    /** Stand-in for the websocket handshake: a new open connection, or
        none when the handshake fails. */
    method Accept(upgradeOk: bool) returns (c: Option<ConnId>)
      requires Valid()
      modifies this
      ensures Valid()
      ensures c.Some? == upgradeOk
      ensures c.Some? ==> c.value !in old(conns) && conns == old(conns)[c.value := FRESH_CONN]
      ensures c.None? ==> conns == old(conns)
      ensures users == old(users) && queue == old(queue) && writerEnabled == old(writerEnabled)
    {
      if !upgradeOk {
        return None;
      }
      c := Some(nextId);
      conns := conns[nextId := FRESH_CONN];
      nextId := nextId + 1;
    }

    /** Registration after a successful handshake: a plain assignment into
        the map, made without checking the name again, then a writer start
        when none is running. `c` is the handle the handshake just produced. */
    method Register(user: string, c: ConnId) returns (startedWriter: bool)
      requires Valid()
      requires c in conns && conns[c].IsOpen()
      requires forall u :: u in users ==> users[u] != c
      modifies this
      ensures Valid()
      ensures users == Registry.Insert(old(users), user, c)
      ensures startedWriter == !old(writerEnabled)
      ensures writerEnabled
      ensures conns == old(conns) && queue == old(queue)
    {
      users := Registry.Insert(users, user, c);
      startedWriter := !writerEnabled;
      if startedWriter {
        StartWriter();
      }
    }

    /** The first thing a writer does. */
    method StartWriter()
      requires Valid()
      modifies this
      ensures Valid()
      ensures writerEnabled
      ensures users == old(users) && conns == old(conns) && queue == old(queue)
    {
      writerEnabled := true;
    }

    /** `unsubscribe`: nothing happens for an absent name; otherwise its
        handle is closed normally and exactly that key is deleted. */
    method Unsubscribe(user: string)
      requires Valid()
      modifies this
      ensures Valid()
      ensures users == Registry.Remove(old(users), user)
      ensures conns == CloseRegistered(old(users), old(conns), user)
      ensures queue == old(queue) && writerEnabled == old(writerEnabled)
    {
      if user !in users {
        return;
      }
      var c := users[user];
      conns := conns[c := Close(conns[c], NORMAL_CLOSURE)];
      users := Registry.Remove(users, user);
    }

    /** One read from connection `c` of user `user`: a read on a closed
        connection fails whatever the client sent. A message is forwarded
        under the reader's own name; a failure unsubscribes the name. */
    method HandleRead(user: string, c: ConnId, outcome: ReadOutcome) returns (err: bool)
      requires Valid()
      requires c in conns
      modifies this
      ensures Valid()
      ensures err <==> outcome.ReadError? || !old(conns)[c].IsOpen()
      ensures err ==> users == Registry.Remove(old(users), user) && queue == old(queue)
      ensures err ==> conns == CloseRegistered(old(users), old(conns), user)
      ensures !err ==> users == old(users) && conns == old(conns)
      ensures !err ==> queue == old(queue) + [Stamp(user, outcome.msg)]
      ensures writerEnabled == old(writerEnabled)
    {
      if outcome.ReadError? || !conns[c].IsOpen() {
        Unsubscribe(user);
        return true;
      }
      queue := queue + [Stamp(user, outcome.msg)];
      return false;
    }

    /** What the handler does with an admitted connection, over a run of read
        attempts with no writer step in between: the reader loop, then, once
        a read has failed, the deferred close of `c` with code 1011, which
        finds `c` already closed unless `c` had lost its entry. A writer step
        before the session may already have closed `c`; the first read then
        fails. */
    method Session(user: string, c: ConnId, incoming: seq<ReadOutcome>) returns (consumed: nat, failed: bool)
      requires Valid()
      requires c in conns
      requires forall u :: u in users && users[u] == c ==> u == user
      modifies this
      ensures Valid()
      ensures failed <==> ReadError in incoming || (incoming != [] && !old(conns)[c].IsOpen())
      ensures failed ==> 0 < consumed <= |incoming|
      ensures failed && old(conns)[c].IsOpen() ==>
        incoming[consumed - 1] == ReadError && AllRead(incoming[..consumed - 1])
      ensures failed && !old(conns)[c].IsOpen() ==> consumed == 1
      ensures !failed ==> consumed == |incoming|
      ensures queue == old(queue) + (if old(conns)[c].IsOpen() then StampAll(user, Received(incoming)) else [])
      ensures users == if failed then Registry.Remove(old(users), user) else old(users)
      ensures writerEnabled == old(writerEnabled)
      ensures conns == if failed then AfterHandlerExit(old(users), old(conns), user, c) else old(conns)
    {
      consumed, failed := ReadLoop(user, c, incoming);
      if failed {
        conns := conns[c := Close(conns[c], INTERNAL_ERROR)];
      }
    }

    /** The reader loop: read, stamp and enqueue until the first failed
        read, whose unsubscribe ends the loop. */
    method ReadLoop(user: string, c: ConnId, incoming: seq<ReadOutcome>) returns (consumed: nat, failed: bool)
      requires Valid()
      requires c in conns
      modifies this
      ensures Valid()
      ensures failed <==> ReadError in incoming || (incoming != [] && !old(conns)[c].IsOpen())
      ensures failed ==> 0 < consumed <= |incoming|
      ensures failed && old(conns)[c].IsOpen() ==>
        incoming[consumed - 1] == ReadError && AllRead(incoming[..consumed - 1])
      ensures failed && !old(conns)[c].IsOpen() ==> consumed == 1
      ensures !failed ==> consumed == |incoming|
      ensures queue == old(queue) + (if old(conns)[c].IsOpen() then StampAll(user, Received(incoming)) else [])
      ensures users == if failed then Registry.Remove(old(users), user) else old(users)
      ensures conns == if failed then CloseRegistered(old(users), old(conns), user) else old(conns)
      ensures writerEnabled == old(writerEnabled)
    {
      consumed, failed := 0, false;
      while consumed < |incoming|
        invariant 0 <= consumed <= |incoming|
        invariant Valid()
        invariant AllRead(incoming[..consumed])
        invariant queue == old(queue) + StampAll(user, Received(incoming[..consumed]))
        invariant users == old(users) && conns == old(conns) && writerEnabled == old(writerEnabled)
        invariant consumed > 0 ==> conns[c].IsOpen()
      {
        var err := ReadStep(user, c, incoming, consumed);
        if err {
          return consumed + 1, true;
        }
        StampAllSnoc(user, Received(incoming[..consumed]), incoming[consumed].msg);
        consumed := consumed + 1;
      }
      assert incoming[..consumed] == incoming;
    }

    /** The `k`-th turn of the reader loop, all earlier reads having
        succeeded: `HandleRead` on `incoming[k]`, restated over prefixes. It
        fails on a read error or when `c` is closed. */
    method ReadStep(user: string, c: ConnId, incoming: seq<ReadOutcome>, k: nat) returns (err: bool)
      requires Valid()
      requires k < |incoming| && AllRead(incoming[..k])
      requires c in conns
      modifies this
      ensures Valid()
      ensures err <==> incoming[k] == ReadError || !old(conns)[c].IsOpen()
      ensures writerEnabled == old(writerEnabled)
      ensures !err ==> AllRead(incoming[..k + 1])
      ensures !err ==> queue == old(queue) + [Stamp(user, incoming[k].msg)]
      ensures !err ==> Received(incoming[..k + 1]) == Received(incoming[..k]) + [incoming[k].msg]
      ensures !err ==> users == old(users) && conns == old(conns)
      ensures incoming[k] == ReadError ==> ReadError in incoming && Received(incoming) == Received(incoming[..k])
      ensures err ==> users == Registry.Remove(old(users), user) && queue == old(queue)
      ensures err ==> conns == CloseRegistered(old(users), old(conns), user)
    {
      var x := incoming[k];
      assert incoming[..k + 1] == incoming[..k] + [x];
      ReceivedSnoc(incoming[..k], x);
      if x.ReadError? {
        ReceivedStops(incoming, k);
      }
      err := HandleRead(user, c, x);
    }

    /** A writer run (`handleWrite`): it raises the flag, takes one queued
        message per entry of `rounds` and fans it out with the writes to the
        users in that entry failing, then finds the context cancelled and
        exits, clearing the flag. `delivered` are the messages it took. */
    method HandleWrite(rounds: seq<set<string>>) returns (delivered: seq<Message>)
      requires Valid()
      requires |rounds| <= |queue|
      modifies this
      ensures Valid()
      ensures !writerEnabled
      ensures delivered == old(queue)[..|rounds|]
      ensures queue == old(queue)[|rounds|..]
      ensures users == Registry.AfterRounds(old(users), Senders(delivered), rounds)
      ensures conns.Keys == old(conns).Keys
    {
      var pending := queue;
      StartWriter();
      var i := 0;
      while i < |rounds|
        invariant 0 <= i <= |rounds|
        invariant Valid() && writerEnabled
        invariant queue == old(queue)[i..]
        invariant users == Registry.AfterRounds(old(users), Senders(old(queue)[..i]), rounds[..i])
        invariant conns.Keys == old(conns).Keys
      {
        var ev := WriterStep(false, rounds[i]);
        ghost var q := old(queue);
        assert q[..i + 1] == q[..i] + [q[i]];
        assert Senders(q[..i + 1]) == Senders(q[..i]) + [q[i].username];
        assert rounds[..i + 1] == rounds[..i] + [rounds[i]];
        Registry.AfterRoundsSnoc(old(users), Senders(q[..i]), rounds[..i], q[i].username, rounds[i]);
        i := i + 1;
      }
      assert rounds[..i] == rounds;
      delivered := pending[..i];
      var ev := WriterStep(true, {});
    }

    /** One iteration of the writer loop. `cancelled` says whether the
        context is done; `failing` names the users whose write fails. An
        empty queue with no cancellation leaves the writer waiting. */
    method WriterStep(cancelled: bool, failing: set<string>) returns (ev: WriterEvent)
      requires Valid()
      requires writerEnabled
      modifies this
      ensures Valid()
      ensures cancelled ==> ev == Exited && !writerEnabled
      ensures !cancelled && old(queue) == [] ==> ev == Blocked && writerEnabled
      ensures cancelled || old(queue) == [] ==>
        users == old(users) && conns == old(conns) && queue == old(queue)
      ensures !cancelled && old(queue) != [] ==>
        && ev == Broadcast(old(queue)[0], old(users).Keys - {old(queue)[0].username})
        && writerEnabled
        && queue == old(queue)[1..]
        && RoundResult(old(users), old(conns), old(queue)[0], failing, users, conns)
    {
      if cancelled {
        writerEnabled := false;
        return Exited;
      }
      if queue == [] {
        return Blocked;
      }
      var msg := queue[0];
      queue := queue[1..];
      var attempted := FanOut(msg, failing);
      ev := Broadcast(msg, attempted);
    }

    /** The body of the `range` over the user map for one message: every
        user but the sender gets a write; a failed write unsubscribes that
        user and the loop goes on with the rest. */
    method FanOut(msg: Message, failing: set<string>) returns (attempted: set<string>)
      requires Valid()
      modifies this
      ensures Valid()
      ensures attempted == old(users).Keys - {msg.username}
      ensures RoundResult(old(users), old(conns), msg, failing, users, conns)
      ensures queue == old(queue) && writerEnabled == old(writerEnabled)
    {
      ghost var before, initial := users, conns;
      assert Injective(before);
      attempted := users.Keys - {msg.username};
      var todo := attempted;
      ghost var done: set<string> := {};
      while todo != {}
        invariant Valid()
        invariant todo !! done && todo + done == attempted && attempted <= before.Keys
        invariant Injective(before)
        invariant forall v :: v in before ==> before[v] in initial && initial[before[v]].IsOpen()
        invariant RegistrySoFar(before, failing, done, users)
        invariant ConnsSoFar(before, initial, msg, failing, done, conns)
        invariant queue == old(queue) && writerEnabled == old(writerEnabled)
        decreases todo
      {
        var u :| u in todo;
        FanOutTurn(u, msg, failing, before, initial, done);
        todo, done := todo - {u}, done + {u};
      }
      RoundDone(before, initial, msg, failing, done, users, conns);
    }

    /** One turn of the fan-out loop, restated over the round: recipient `u`,
        not yet attempted, has its write. */
    method FanOutTurn(u: string, msg: Message, failing: set<string>, ghost before: map<string, ConnId>,
                      ghost initial: map<ConnId, ConnState>, ghost done: set<string>)
      requires Valid()
      requires Injective(before) && forall v :: v in before ==> before[v] in initial && initial[before[v]].IsOpen()
      requires u in before && u !in done
      requires RegistrySoFar(before, failing, done, users)
      requires ConnsSoFar(before, initial, msg, failing, done, conns)
      modifies this
      ensures Valid()
      ensures RegistrySoFar(before, failing, done + {u}, users)
      ensures ConnsSoFar(before, initial, msg, failing, done + {u}, conns)
      ensures queue == old(queue) && writerEnabled == old(writerEnabled)
    {
      ghost var users0, conns0 := users, conns;
      var err := Deliver(u, msg, u in failing);
      RegistryStep(before, failing, done, users0, u, users);
      ConnsStep(before, initial, msg, failing, done, conns0, u, conns);
    }

    /** One turn of the `range` loop: the write to `user` and, when it
        fails, the unsubscribe of that user. */
    method Deliver(user: string, msg: Message, fails: bool) returns (err: bool)
      requires Valid()
      requires user in users
      modifies this
      ensures Valid()
      ensures err == fails
      ensures users == if err then Registry.Remove(old(users), user) else old(users)
      ensures conns == old(conns)[old(users)[user] :=
        if err then Close(old(conns)[old(users)[user]], NORMAL_CLOSURE)
        else Write(old(conns)[old(users)[user]], msg, true)]
      ensures queue == old(queue) && writerEnabled == old(writerEnabled)
    {
      var c := users[user];
      err := WriteFails(conns[c], !fails);
      conns := conns[c := Write(conns[c], msg, !fails)];
      if err {
        Unsubscribe(user);
      }
    }
  }
}
