# Chat room server: connection registry and fan-out

This project models the core of a single-room websocket chat server
(`server.go`). Clients connect on `/ws?username=<name>`. The server keeps a
map from username to connection handle. Every message a client sends is
stamped with that client's name and put on a queue. A single writer takes
messages off the queue and writes each one to every registered user except
its sender. A failed read or a failed write unsubscribes the user concerned:
the connection is closed with code 1000 (normal closure, section 7.4.1 of
RFC 6455) and its entry is deleted.

The server is modelled as a sequential state machine:

- `Chatroom.Server` is a class with the fields of the Go `Server`:
  - `users`, the username-to-handle map;
  - `writerEnabled`, the writer flag;
  - `queue`, a sequence that stands in for the unbuffered `writeCh` channel.
  Two more fields track the connections it has accepted: `conns`, each
  connection's open/closed state with its close code and the messages
  written to it, and `nextId`.
- Each handler of the Go code is one method, or a few methods called in
  sequence. What the websocket library would decide is passed in as an
  input: whether the handshake succeeds, what a read returns, which writes
  fail, and whether the context is cancelled.
- `Chat` holds the values: the message, read outcomes, HTTP responses,
  name stamping, and routing.
- `Registry` holds what each operation does to the user map, as pure
  functions on `map<string, C>`.
- `Transport` holds the connection handle: close (the first close code
  wins) and write.
- `Scenarios` replays the assertions of `server_test.go` about routing and
  refusals, the writer flag and the registry size across two admissions, a
  message from one client reaching another, a read error unsubscribing its
  user, unsubscribing an unknown and a known name, and a cancelled writer.
  `Test_NewServer` is covered by the constructor's contract. `Scenarios`
  also plays out the interleavings described below.

Admission is modelled both ways. `HandleWsConn` runs it as one step, and
then a successful admission always adds a fresh name. The split steps
`CheckUser`, `Accept` and `Register` follow the code as written. The
duplicate check (server.go:59-61) and the insert (server.go:75-77) are
separate, and the insert is a plain overwrite. `Scenarios.SameNameRace`
shows two clients with the same name. Both pass the check before either
registers, and the second registration silently replaces the first. The
first connection then stays open with no entry. In
`Scenarios.StaleReaderEvictsNewcomer`, the first connection's reader fails
later. Its unsubscribe goes by name, so it closes and removes the newcomer.
A design that registers with insert-if-absent would refuse the second
client. The code does not, and the model follows the code.

A stale reader can evict a newcomer without any race on the precheck.
The writer runs beside the handlers. It can fail a write to a user whose
handler is still in its read loop, and then unsubscribe that user, which
closes the connection and frees the name. A new client can then take the
name, because the precheck now passes. The old handler's next read fails
on its closed connection, and its unsubscribe by name closes the newcomer.
`Scenarios.WriteFailureUnsubscribes` and
`Scenarios.WriteFailureEvictsNewcomer` show this. The read-path methods
(`HandleRead`, `ReadStep`, `ReadLoop` and `Session`) all accept a
connection that a writer step has already closed. Their first read then
fails.

## Model

| member | source | states |
|---|---|---|
| `Chat.Stamp` | server.go:137 | the forwarded message carries the connection's own name and the text that was read, whatever name the client sent |
| `Chat.StampAll` | server.go:137-141 | stamping a run of reads yields one message per read, as many as were read |
| `Chat.StampAllAt` | server.go:126-144 | the i-th message a reader forwards is the i-th message read, stamped with the reader's name |
| `Chat.StampAllSnoc` | server.go:141 | forwarding one more message appends exactly that stamped message to the queue's tail |
| `Chat.StampAllIgnoresClaimedName` | server.go:137 | two runs of reads with the same texts produce the same forwarded messages, whatever names the client claimed |
| `Chat.Received` | server.go:88-92 | the reader loop forwards a prefix of the reads; if it stops short, it stopped at a failed read |
| `Chat.ReceivedAt` | server.go:88-92 | each forwarded message is the read at the same position |
| `Chat.ReceivedSnoc` | server.go:88-92 | while every read has succeeded, one more successful read forwards one more message and a failed one forwards nothing |
| `Chat.ReceivedStops` | server.go:89-91 | nothing after the first failed read is forwarded |
| `Chat.Admission` | server.go:52-72 | 400 exactly when the name is empty or already registered; upgrade failure exactly when the name is acceptable and the handshake fails; upgraded exactly otherwise; never not-found |
| `Chat.Route` | server.go:42-49 | not found exactly when the path is not `/ws`; `/ws` is answered by admission |
| `Registry.Remove` | server.go:147-155 | removes exactly the given key, keeps every other entry's handle, shrinks the map by one when the key was present, and is the identity when it was absent |
| `Registry.RemoveIdempotent` | server.go:147-151 | unsubscribing twice equals unsubscribing once |
| `Registry.Insert` | server.go:75-77 | the name now maps to the new handle (overwriting any old one); other entries are unchanged; the size grows by one exactly when the name was new |
| `Registry.InsertThenRemove` | server.go:75-77 | admitting a fresh name and then unsubscribing it restores the registry |
| `Registry.AfterFanOut` | server.go:108-120 | after one round, the failing recipients are gone; the sender and every other recipient keep their handle |
| `Registry.RemoveAll` | server.go:108-119 | unsubscribing names one by one only deletes entries; no surviving name is among those unsubscribed, and no surviving handle changes |
| `Registry.RemoveAllAt` | server.go:108-119 | unsubscribing a sequence of names removes exactly those names and keeps every other handle |
| `Registry.FanOutOrderIrrelevant` | server.go:108-119 | whatever order the map iteration visits the recipients in, unsubscribing the failing ones one by one gives `AfterFanOut` |
| `Registry.AfterRounds` | server.go:103-122 | successive rounds never add a name and never change a surviving handle |
| `Registry.AfterRoundsSnoc` | server.go:103-122 | one more round is one more `AfterFanOut` on the result |
| `Registry.AfterRoundsAt` | server.go:103-122 | a user survives a run of rounds exactly when it was registered and no write to it failed in a round it did not send |
| `Transport.Close` | server.go:153 | a close leaves the connection closed; an open connection records the code; an already closed one is unchanged; nothing written is lost |
| `Transport.CloseFirstCodeWins` | server.go:73 | a second close (the deferred one with 1011) does not change the first close code |
| `Transport.Write` | server.go:113 | a failed write (refused, or to a closed connection) changes nothing; a successful one appends the message to what the peer received |
| `Chatroom.CloseRegistered` | server.go:147-155 | unsubscribe closes the handle registered under the name with 1000 and no other |
| `Chatroom.AfterHandlerExit` | server.go:73-93 | after a failed read the handler's own connection is closed: with 1000 if it was the one registered under its name, otherwise with 1011 by the deferred close; if a write failure had already closed it, it stays as it was; a newer handle under the same name is closed with 1000; nothing else changes |
| `Chatroom.RoundResult` | server.go:108-120 | one fan-out round: the registry becomes `AfterFanOut`; each recipient whose write succeeds stays open and has the message appended; each failing recipient is closed with 1000; the sender's connection and every unregistered handle are untouched |
| `Chatroom.ConnsDone` | server.go:109-111 | a fan-out round leaves the sender's connection untouched |
| `Chatroom.RoundDone` | server.go:108-120 | after a full round, the registry is `AfterFanOut` and every recipient either received the message or was closed with 1000; connections of the sender and of unregistered handles are untouched |
| `Chatroom.Server.Valid` | server.go:68-77 | the registry invariant every method keeps: each registered handle is an accepted connection that is still open (unsubscribe closes and deletes together, server.go:153-154), and no handle is registered under two names |
| `Chatroom.Server.constructor` | server.go:32-40 | a new server has no users, no connections, an empty queue and the writer flag down |
| `Chatroom.Server.ServeHTTP` | server.go:42-49 | the response is `Route`'s; any path other than `/ws` changes nothing; a successful admission inserts the new open connection; the writer starts only if the flag was down |
| `Chatroom.Server.HandleWsConn` | server.go:52-86 | admission as one step: a 400 or a failed handshake leaves users and the flag unchanged; a success adds a fresh name (size plus one), maps it to a new open connection, and raises the flag |
| `Chatroom.Server.CheckUser` | server.go:53-66 | the request goes on to the handshake exactly when the name is non-empty and not registered |
| `Chatroom.Server.Accept` | server.go:68-72 | a failed handshake changes nothing; a successful one yields a new open connection and leaves the registry alone |
| `Chatroom.Server.Register` | server.go:75-86 | the name is mapped to the handle by overwriting, without a second check; a writer starts exactly when the flag was down; the flag ends up raised |
| `Chatroom.Server.StartWriter` | server.go:96-97 | a writer raises the flag on start |
| `Chatroom.Server.Unsubscribe` | server.go:147-155 | users become `Remove(users, user)` and connections `CloseRegistered(...)`; queue and flag unchanged |
| `Chatroom.Server.HandleRead` | server.go:126-144 | a read fails exactly on a read error or a closed connection; on failure the name is unsubscribed and nothing is queued; on success exactly one message is queued, stamped with the reader's name and carrying the text read, and users are unchanged |
| `Chatroom.Server.ReadStep` | server.go:89-91 | one turn of the read loop, stated over the prefix of reads done so far; it fails exactly on a read error or a closed connection |
| `Chatroom.Server.ReadLoop` | server.go:88-92 | the loop stops exactly at the first failed read, which is the first read when the connection was already closed; the queue grows by the stamped messages read before it (none on a closed connection); on failure the name is unsubscribed, otherwise users and connections are unchanged |
| `Chatroom.Server.Session` | server.go:73-93 | the read loop followed by the deferred close, on an open connection or one a write failure has already closed; the connections end as `AfterHandlerExit` says |
| `Chatroom.Server.HandleWrite` | server.go:96-122 | a writer run raises the flag, takes one queued message per round in FIFO order, leaves the registry as `AfterRounds` of their senders, and clears the flag when the context is cancelled |
| `Chatroom.Server.WriterStep` | server.go:103-122 | cancellation clears the flag and changes nothing else; an empty queue blocks; otherwise the head of the queue is removed and fanned out to every user but its sender, as `RoundResult` says |
| `Chatroom.Server.FanOut` | server.go:108-120 | every registered user except the sender is attempted, and the sender never is; each failing recipient is unsubscribed and the others still receive the message |
| `Chatroom.Server.FanOutTurn` | server.go:108-119 | one turn of the range loop keeps the round's invariant |
| `Chatroom.Server.Deliver` | server.go:113-119 | the write to one recipient: on success the message is appended; on failure that recipient alone is unsubscribed |
| `Scenarios.SameNameRace` | server.go:59-77 | two requests for the same name both pass the precheck; the second registration overwrites the first, whose connection stays open without an entry |
| `Scenarios.StaleReaderEvictsNewcomer` | server.go:126-155 | the overwritten connection's failed read unsubscribes the newcomer by name (closed with 1000); its own connection is closed with 1011 |
| `Scenarios.WriteFailureUnsubscribes` | server.go:113-119 | a failed write of bob's message to alice unsubscribes alice (closed with 1000) while bob stays registered and receives nothing |
| `Scenarios.WriteFailureEvictsNewcomer` | server.go:126-135 | after that, a new alice is admitted; the old handler's read on its closed connection fails and unsubscribes the newcomer (closed with 1000); the old connection keeps code 1000; only bob is left |
| `Scenarios.ReadErrorUnsubscribes` | server_test.go:137-147 | a read error on `test`'s connection returns an error and removes `test` from the registry |
| `Scenarios.AdmissionsRaiseFlag` | server_test.go:64-88 | the flag is down on a new server and up after the first admission; the registry holds one user, then two |
| `Scenarios.BroadcastSkipsSender` | server_test.go:90-102 | alice's message, sent under a false name, reaches bob and carol as `{alice, hi}` and alice receives nothing |
| `Scenarios.UnsubscribeUnknown` | server_test.go:167-173 | unsubscribing an unknown name leaves the three users in place |
| `Scenarios.UnsubscribeOne` | server_test.go:186-194 | unsubscribing `0` leaves two users, without `0`, with `0`'s connection closed normally |
| `Scenarios.Refusals` | server_test.go:33-59 | another path gives not found; an empty name and a taken name give 400; a failed handshake gives an upgrade failure |
| `Scenarios.CancelledWriter` | server_test.go:105-117 | a writer on a fresh server with a cancelled context exits with the flag down |

## Left out

- Sockets, the websocket handshake, framing, and the JSON encoding (`websocket.Accept`, `wsjson.Read`, `wsjson.Write`) are not modelled. Their outcomes are inputs: `upgradeOk`, a `ReadOutcome`, the set of failing recipients, and `cancelled`.
- The exact status written by a failed handshake (426 in the tests) comes from the websocket library. It is modelled only as `UpgradeFailed`.
- Goroutines, `sync.RWMutex` and `context` are not modelled. Each method is one uninterrupted step, and interleavings are written out by the caller (see `Scenarios`). Races on the unlocked `writerEnabled` reads and writes (server.go:84, 97) and on the unlocked map iteration (server.go:108) are out of scope.
- The unbuffered channel's blocking hand-over is not modelled. `queue` is an unbounded FIFO, so an enqueue never blocks, and a writer step on an empty queue reports `Blocked`.
- The writer goroutine is started and raises its flag in the same step as the registration that starts it (server.go:85, 97).
- `WriterStep` requires the flag to be up: it is a step of a running writer.
- Logging through zerolog is not modelled.
- The error values returned by `Close` are not modelled.
- cmd/main.go (process entry, logger setup, `ListenAndServe`) is not part of this model.
- The order in which `range` visits the map is left open. `FanOut` picks recipients in any order, and `Registry.FanOutOrderIrrelevant` shows that the result does not depend on it.
- Chatroom.Server.HandleWrite: it states only the registry, queue, flag and connection ids over a whole run. The per-connection effect of each round is stated by `WriterStep` and `RoundResult`.
- Chatroom.Server.Session: it models a finite run of reads with no writer step in between. The handler's deferred close runs only after a failed read, because with no failure the Go loop never returns.
