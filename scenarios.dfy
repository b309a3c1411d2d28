/** Runs of the server's steps, in the order the handlers' goroutines can
    take them, with the outcome each one ends in. */
module Scenarios {
  import opened Chat
  import opened Transport
  import opened Chatroom
  import Registry

  /** Two clients ask for the same name. Both pass the precheck before
      either registers; both handshakes succeed; the second registration
      overwrites the first, whose connection stays open without an entry. */
  method SameNameRace() returns (s: Server, first: ConnId, second: ConnId)
    ensures fresh(s) && s.Valid()
    ensures s.users == map["alice" := second]
    ensures first != second
    ensures first in s.conns && s.conns[first].IsOpen()
    ensures second in s.conns && s.conns[second].IsOpen()
  {
    s := new Server();
    var ok1 := s.CheckUser("alice");
    var ok2 := s.CheckUser("alice");
    assert ok1 && ok2;
    var c1 := s.Accept(true);
    var c2 := s.Accept(true);
    var _ := s.Register("alice", c1.value);
    var _ := s.Register("alice", c2.value);
    first, second := c1.value, c2.value;
  }

  /** After that race, the reader of the overwritten connection fails: its
      unsubscribe goes by name and removes the newcomer, whose connection is
      closed normally; the deferred close then closes the stale one with
      1011. Nobody is left registered. */
  method StaleReaderEvictsNewcomer() returns (s: Server, first: ConnId, second: ConnId)
    ensures s.Valid()
    ensures s.users == map[]
    ensures first in s.conns && s.conns[first].status == Closed(INTERNAL_ERROR)
    ensures second in s.conns && s.conns[second].status == Closed(NORMAL_CLOSURE)
  {
    s, first, second := SameNameRace();
    var consumed, failed := s.Session("alice", first, [ReadError]);
  }

  /** A request for `/ws` with a fresh name and a handshake that succeeds. */
  method Admit(s: Server, user: string) returns (c: ConnId)
    requires s.Valid() && user != "" && user !in s.users
    modifies s
    ensures s.Valid()
    ensures s.users == old(s.users)[user := c] && |s.users| == |old(s.users)| + 1
    ensures c !in old(s.conns) && s.conns == old(s.conns)[c := FRESH_CONN]
    ensures s.writerEnabled && s.queue == old(s.queue)
  {
    var r, x, w := s.ServeHTTP("/ws", user, true);
    c := x.value;
  }

  /** `alice`, `bob` and `carol` admitted, in that order. */
  method ThreeChatters() returns (s: Server, a: ConnId, b: ConnId, c: ConnId)
    ensures fresh(s) && s.Valid() && s.writerEnabled && s.queue == []
    ensures s.users == map["alice" := a, "bob" := b, "carol" := c]
    ensures s.conns == map[a := FRESH_CONN, b := FRESH_CONN, c := FRESH_CONN]
    ensures a != b && a != c && b != c
  {
    s := new Server();
    a := Admit(s, "alice");
    b := Admit(s, "bob");
    c := Admit(s, "carol");
  }

  /** `alice` sends "hi" claiming to be `mallory`; one writer round delivers
      `{alice, hi}` to `bob` and `carol` and nothing to `alice`. */
  method BroadcastSkipsSender() returns (s: Server, a: ConnId, b: ConnId, c: ConnId)
    ensures s.Valid()
    ensures s.queue == []
    ensures a in s.conns && s.conns[a].sent == []
    ensures b in s.conns && s.conns[b].sent == [Message("alice", "hi")]
    ensures c in s.conns && s.conns[c].sent == [Message("alice", "hi")]
  {
    s, a, b, c := ThreeChatters();
    var err := s.HandleRead("alice", a, Read(Message("mallory", "hi")));
    assert s.queue == [Message("alice", "hi")];
    var ev := s.WriterStep(false, {});
    assert "bob" in ev.attempted && "carol" in ev.attempted;
  }

  /** `alice` and `bob` admitted, in that order, and `bob` has sent "x". */
  method BobHasSent() returns (s: Server, a: ConnId, b: ConnId)
    ensures fresh(s) && s.Valid() && s.writerEnabled
    ensures s.users == map["alice" := a, "bob" := b]
    ensures s.conns == map[a := FRESH_CONN, b := FRESH_CONN] && a != b
    ensures s.queue == [Message("bob", "x")]
  {
    s := new Server();
    a := Admit(s, "alice");
    b := Admit(s, "bob");
    var err := s.HandleRead("bob", b, Read(Message("bob", "x")));
  }

  /** The write of `bob`'s message to `alice` fails, so the writer
      unsubscribes `alice` and closes her connection normally while her
      handler is still in its read loop. */
  method WriteFailureUnsubscribes() returns (s: Server, a: ConnId, b: ConnId)
    ensures fresh(s) && s.Valid()
    ensures s.users == map["bob" := b]
    ensures a in s.conns && s.conns[a].status == Closed(NORMAL_CLOSURE)
    ensures b in s.conns && s.conns[b].IsOpen() && s.conns[b].sent == []
  {
    s, a, b := BobHasSent();
    ghost var before := s.users;
    var ev := s.WriterStep(false, {"alice"});
    assert "alice" in ev.attempted;
    assert s.users == Registry.AfterFanOut(before, "bob", {"alice"});
    assert s.users.Keys == {"bob"};
  }

  /** After that write failure a new client takes the name `alice` (the
      precheck passes, the name being free). The old handler's next read
      fails on its closed connection and unsubscribes by name, closing the
      newcomer with 1000; the deferred close finds the old connection
      already closed and leaves its code at 1000. */
  method WriteFailureEvictsNewcomer() returns (s: Server, a: ConnId, a2: ConnId)
    ensures s.Valid()
    ensures s.users.Keys == {"bob"}
    ensures a in s.conns && s.conns[a].status == Closed(NORMAL_CLOSURE)
    ensures a2 in s.conns && s.conns[a2].status == Closed(NORMAL_CLOSURE)
  {
    var b;
    s, a, b := WriteFailureUnsubscribes();
    a2 := Admit(s, "alice");
    var consumed, failed := s.Session("alice", a, [Read(Message("alice", "late"))]);
  }

  /** A read error on the connection of `test` unsubscribes `test`. */
  method ReadErrorUnsubscribes() returns (s: Server, c: ConnId, err: bool)
    ensures s.Valid()
    ensures err && "test" !in s.users && s.users == map[]
    ensures c in s.conns && s.conns[c].status == Closed(NORMAL_CLOSURE)
  {
    s := new Server();
    c := Admit(s, "test");
    err := s.HandleRead("test", c, ReadError);
  }

  /** The flag is down on a new server and up after the first admission;
      the registry holds one user, then two. */
  method AdmissionsRaiseFlag() returns (s: Server, flag0: bool, size1: nat, flag1: bool, size2: nat)
    ensures s.Valid()
    ensures !flag0 && size1 == 1 && flag1 && size2 == 2
  {
    s := new Server();
    flag0 := s.writerEnabled;
    var c1 := Admit(s, "test1");
    size1, flag1 := |s.users|, s.writerEnabled;
    var c2 := Admit(s, "test2");
    size2 := |s.users|;
  }

  /** Three users registered under `0`, `1` and `2`. */
  method ThreeUsers() returns (s: Server, c0: ConnId, c1: ConnId, c2: ConnId)
    ensures fresh(s) && s.Valid()
    ensures s.users == map["0" := c0, "1" := c1, "2" := c2] && |s.users| == 3
  {
    s := new Server();
    c0 := Admit(s, "0");
    c1 := Admit(s, "1");
    c2 := Admit(s, "2");
  }

  /** Unsubscribing a name nobody has changes nothing: the three users stay. */
  method UnsubscribeUnknown() returns (s: Server)
    ensures s.Valid()
    ensures |s.users| == 3 && s.users.Keys == {"0", "1", "2"}
  {
    var c0, c1, c2;
    s, c0, c1, c2 := ThreeUsers();
    s.Unsubscribe("4");
  }

  /** Unsubscribing `0` among three users leaves two, without `0`, and
      closes `0`'s connection normally. */
  method UnsubscribeOne() returns (s: Server, c0: ConnId)
    ensures s.Valid()
    ensures "0" !in s.users && "1" in s.users && "2" in s.users && |s.users| == 2
    ensures c0 in s.conns && s.conns[c0].status == Closed(NORMAL_CLOSURE)
  {
    var c1, c2;
    s, c0, c1, c2 := ThreeUsers();
    s.Unsubscribe("0");
  }

  /** Requests that do not become chat connections: another path, a
      missing name, a taken name, a failed handshake. */
  method Refusals() returns (s: Server, notFound: Response, noName: Response, taken: Response, noUpgrade: Response)
    ensures notFound == NotFound && noName == BadRequest && taken == BadRequest && noUpgrade == UpgradeFailed
    ensures s.Valid() && s.users.Keys == {"test"} && s.writerEnabled
  {
    s := new Server();
    var c, w;
    notFound, c, w := s.ServeHTTP("/", "test", true);
    noName, c, w := s.ServeHTTP("/ws", "", true);
    var ok, c1, w1 := s.ServeHTTP("/ws", "test", true);
    taken, c, w := s.ServeHTTP("/ws", "test", true);
    noUpgrade, c, w := s.ServeHTTP("/ws", "other", false);
  }

  /** A writer started on a fresh server whose context is already
      cancelled exits at once with the flag cleared. */
  method CancelledWriter() returns (s: Server)
    ensures s.Valid() && !s.writerEnabled && s.users == map[] && s.queue == []
  {
    s := new Server();
    var delivered := s.HandleWrite([]);
  }
}
