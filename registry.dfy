/** The user map as a value: what registering, unsubscribing and one fan-out
    round do to the mapping from username to connection handle. The server
    class applies these to its `users` field. */
module Registry {

  /** `unsubscribe(user)`: the entry for `user` goes, every other entry stays. */
  function Remove<C>(users: map<string, C>, user: string): (r: map<string, C>)
    ensures r.Keys == users.Keys - {user}
    ensures forall u :: u in r ==> r[u] == users[u]
    ensures user in users ==> |r| == |users| - 1
    ensures user !in users ==> r == users
  {
    var r := users - {user};
    assert r.Keys == users.Keys - {user};
    r
  }

  /** Unsubscribing twice is unsubscribing once. */
  lemma RemoveIdempotent<C>(users: map<string, C>, user: string)
    ensures Remove(Remove(users, user), user) == Remove(users, user)
  {
  }

  /** The plain map assignment of admission: a fresh name adds one entry, a
      name already present has its handle replaced. */
  function Insert<C>(users: map<string, C>, user: string, c: C): (r: map<string, C>)
    ensures r.Keys == users.Keys + {user}
    ensures user in r && r[user] == c
    ensures forall u :: u in users && u != user ==> r[u] == users[u]
    ensures |r| == if user in users then |users| else |users| + 1
  {
    users[user := c]
  }

  /** Admitting a fresh name and then unsubscribing it gives back the
      registry as it was. */
  lemma InsertThenRemove<C>(users: map<string, C>, user: string, c: C)
    requires user !in users
    ensures Remove(Insert(users, user, c), user) == users
  {
    assert Remove(Insert(users, user, c), user).Keys == users.Keys;
  }

  /** The registry after one fan-out round of a message from `sender` in which
      the writes to the users in `failing` fail: every failing recipient is
      gone, the sender and every other recipient keep their handle. */
  function AfterFanOut<C>(users: map<string, C>, sender: string, failing: set<string>): (r: map<string, C>)
    ensures r.Keys == users.Keys - (failing - {sender})
    ensures sender in users ==> sender in r
    ensures forall u :: u in r ==> r[u] == users[u]
  {
    map u | u in users && (u == sender || u !in failing) :: users[u]
  }

  /** Unsubscribing the users of `order`, one after the other. */
  function RemoveAll<C>(users: map<string, C>, order: seq<string>): (r: map<string, C>)
    ensures r.Keys <= users.Keys
    ensures forall u :: u in r ==> r[u] == users[u] && u !in order
    decreases |order|
  {
    if order == [] then users else RemoveAll(Remove(users, order[0]), order[1..])
  }

  /** What `RemoveAll` does to one name: it goes exactly when it is in
      `order`, and otherwise keeps its handle. */
  lemma {:induction false} RemoveAllAt<C>(users: map<string, C>, order: seq<string>, u: string)
    ensures u in RemoveAll(users, order) <==> u in users && u !in order
    ensures u in RemoveAll(users, order) ==> RemoveAll(users, order)[u] == users[u]
    decreases |order|
  {
    if order != [] {
      RemoveAllAt(Remove(users, order[0]), order[1..], u);
      assert order == [order[0]] + order[1..];
    }
  }

  /** The range loop over the user map may visit the recipients in any order
      and unsubscribes each failing one as it meets it: whatever that order,
      the registry ends up as `AfterFanOut` says. */
  lemma FanOutOrderIrrelevant<C>(users: map<string, C>, sender: string, failing: set<string>, order: seq<string>)
    requires forall u :: u in order <==> u in users && u != sender && u in failing
    ensures RemoveAll(users, order) == AfterFanOut(users, sender, failing)
  {
    var l, r := RemoveAll(users, order), AfterFanOut(users, sender, failing);
    forall u {
      RemoveAllAt(users, order, u);
    }
    assert l.Keys == r.Keys;
  }

  /** The registry after successive fan-out rounds, the `i`-th sent by
      `senders[i]` with the writes to the users in `failing[i]` failing. */
  function AfterRounds<C>(users: map<string, C>, senders: seq<string>, failing: seq<set<string>>): (r: map<string, C>)
    requires |senders| == |failing|
    ensures r.Keys <= users.Keys
    ensures forall u :: u in r ==> r[u] == users[u]
    decreases |senders|
  {
    if senders == [] then users
    else AfterRounds(AfterFanOut(users, senders[0], failing[0]), senders[1..], failing[1..])
  }

  /** One more round at the end of a run of rounds. */
  lemma {:induction false} AfterRoundsSnoc<C>(users: map<string, C>, senders: seq<string>, failing: seq<set<string>>,
                                              sender: string, fails: set<string>)
    requires |senders| == |failing|
    ensures AfterRounds(users, senders + [sender], failing + [fails])
         == AfterFanOut(AfterRounds(users, senders, failing), sender, fails)
    decreases |senders|
  {
    if senders == [] {
      assert senders + [sender] == [sender] && failing + [fails] == [fails];
    } else {
      assert (senders + [sender])[1..] == senders[1..] + [sender];
      assert (failing + [fails])[1..] == failing[1..] + [fails];
      AfterRoundsSnoc(AfterFanOut(users, senders[0], failing[0]), senders[1..], failing[1..], sender, fails);
    }
  }

  /** A user keeps its entry through a run of rounds exactly when it had
      one and no write to it failed in a round it did not send itself. */
  lemma {:induction false} AfterRoundsAt<C>(users: map<string, C>, senders: seq<string>, failing: seq<set<string>>, u: string)
    requires |senders| == |failing|
    ensures u in AfterRounds(users, senders, failing) <==>
      u in users && forall i :: 0 <= i < |senders| ==> u == senders[i] || u !in failing[i]
    decreases |senders|
  {
    if senders != [] {
      AfterRoundsAt(AfterFanOut(users, senders[0], failing[0]), senders[1..], failing[1..], u);
      assert forall i :: 1 <= i < |senders| ==> senders[i] == senders[1..][i - 1] && failing[i] == failing[1..][i - 1];
    }
  }
}
