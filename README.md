# Chat room broadcaster: a Dafny model of `room.run`

The system is a websocket chat room. Each connected client has an outbound
mailbox, a buffered Go channel `send chan []byte` of capacity
`messageBufferSize` (256). A single goroutine runs `room.run`, and it alone
owns the registry of connected clients (`clients map[*client]bool`). It
reacts to three kinds of event, one at a time:

- **join**: the client is added to the registry.
- **leave**: the client is deleted from the registry and its mailbox is closed.
- **forward(msg)**: every registered client is offered `msg` by a
  non-blocking send. A client whose mailbox is full is deleted from the
  registry and its mailbox is closed. This drops slow clients.

The model has three modules.

- `Channel` (`channel.dfy`) gives the Go channel semantics the room relies on.
  A send inside `select`/`default` never blocks. It panics on a closed
  channel, enqueues at the tail when there is room, and otherwise takes the
  default branch. `close` panics on a closed channel and keeps the buffered
  items. A `range` receive takes the oldest item; on an empty channel it
  waits if the channel is open and stops if it is closed.
- `RoomEvents` (`room_events.dfy`) holds the handler's three cases as pure
  functions on the room's abstract state: the registry, plus the mailbox of
  every client that has connected. A Go panic is modelled as the state
  `Crashed(fault)`. The lemmas here carry the properties: what each event
  does, the invariant they all keep, that a fan-out is the same in any
  iteration order, and what a client that never drains receives.
- `RoomState` (`room.dfy`) holds the `Room` class. The registry, the
  mailboxes and the panic reason are mutable fields. `Join`, `Leave` and
  `Forward` update these fields in place. `Forward` loops over a snapshot of
  the registry, in an order chosen by `:|`. Each method is proved to have
  exactly the effect of its `RoomEvents` function.

The panics are explicit. `Leave` closes the mailbox unconditionally
(room.go:34). So when a client's mailbox was already closed, because a
fan-out dropped that client (room.go:43-44), the client's deferred leave
(room.go:79) panics with "close of closed channel". A send to a closed
mailbox would panic as well. The invariant `Healthy` (every registered
client's mailbox is open, and no mailbox holds more than 256 items) rules
that second panic out.

The design description says a leave of an unregistered client is a no-op.
The code does not behave that way: it still closes the mailbox. The model
follows the code (`LeaveStep`, `Room.Leave`). The intended behaviour
(`LeaveGuardedStep`, `Room.LeaveGuarded`) is modelled beside it; see
Findings.

## Model

| member | source | states |
|---|---|---|
| Channel.Make | room.go:72 | A mailbox created for a new client is empty and open. |
| Channel.Drain | client.go:33 | The writer's `range` loop, if no write fails, receives exactly the buffered items, oldest first. It then stops if and only if the mailbox is closed, and otherwise waits. |
| Channel.SendAllKeepsOrder | room.go:39 | Non-blocking sends into an open mailbox with room for all of them succeed and append the messages at the tail, in the order sent. |
| Channel.SendThenDrain | room.go:39 | FIFO delivery: after those sends, the receiver drains the old buffer followed by the sent messages, in order. |
| Channel.CloseThenDrain | room.go:34 | Closing an open mailbox succeeds and loses nothing. The writer receives every buffered item, then stops. |
| Channel.CloseTwicePanics | room.go:34 | A second close of the same mailbox always panics. |
| RoomEvents.JoinStep | room.go:28-30 | Joining keeps every registered client backed by a mailbox and every mailbox within capacity. |
| RoomEvents.JoinRegisters | room.go:28-30 | After a join the client is registered. Every other client's membership is unchanged, and no mailbox changes. |
| RoomEvents.JoinIdempotent | room.go:30 | Joining twice equals joining once. Joining an already registered client changes nothing. |
| RoomEvents.JoinPreservesHealthy | room.go:30 | Joining a client whose mailbox is open keeps the invariant (registered means open, and mailboxes stay within 256). |
| RoomEvents.LeaveStep | room.go:31-34 | A leave keeps every registered client backed by a mailbox and every mailbox within capacity. |
| RoomEvents.LeaveDeregisters | room.go:31-34 | Leave on an open mailbox removes the client from the registry and closes its mailbox. The buffered items are kept. No other client's membership or mailbox changes, and the invariant is kept. |
| RoomEvents.LeaveUnregistered | room.go:33-34 | Leave of an unregistered client leaves the registry unchanged (a `delete` of an absent key) but still closes its mailbox. |
| RoomEvents.LeaveCrashesIff | room.go:34 | Leave panics with "close of closed channel" if and only if the client's mailbox was already closed. |
| RoomEvents.ForwardStep | room.go:35-46 | A fan-out never adds a registered client and never creates or removes a mailbox. |
| RoomEvents.ForwardDelivers | room.go:37-44 | Under the invariant, a fan-out does not panic and keeps the invariant. A registered client with fewer than 256 items stays registered and gets `msg` at its tail. A registered client with 256 items is removed, its mailbox is closed, and it does not get `msg`. An unregistered client's mailbox is untouched. |
| RoomEvents.ForwardCrashesIff | room.go:39 | A fan-out panics ("send on closed channel") if and only if some registered client's mailbox is closed. |
| RoomEvents.ForwardToOne | room.go:38-44 | The single-client form of ForwardDelivers: a client with room gets `msg`, and a full client is dropped and closed. |
| RoomEvents.VisitStep | room.go:38-45 | The loop body for one client creates and removes no mailbox and keeps each mailbox within capacity. |
| RoomEvents.VisitExtends | room.go:38-45 | One loop iteration on an open mailbox handles exactly one more client of the registry snapshot. |
| RoomEvents.VisitRest | room.go:37-46 | Visiting the remaining clients, in any order and once each, completes the fan-out. |
| RoomEvents.ForwardAnyOrder | room.go:37-46 | For every order that lists the registry once per client, the loop ends in the same state as ForwardStep. The result does not depend on Go's map iteration order. |
| RoomEvents.ForwardAllSkipsUnregistered | room.go:37 | A client that is not registered receives none of the messages forwarded while it is away. Its mailbox is unchanged. |
| RoomEvents.ForwardAllWithinRoom | room.go:37-40 | A registered client with room for a sequence of forwards stays registered and receives them at its tail, in the order forwarded. |
| RoomEvents.ForwardAllDropsStalledClient | room.go:41-44 | Take a registered client that never drains and holds `k` items. It receives the next `256 - k` messages in order. The following message drops it and closes its mailbox. It receives nothing afterwards. |
| RoomEvents.HandleStep | room.go:26-47 | Every event keeps every registered client backed by a mailbox and every mailbox within capacity. |
| RoomEvents.HandleStepPreservesHealthy | room.go:26-47 | Under the invariant, with joins of open mailboxes, the only event that makes `run` panic is the leave of a client whose mailbox is closed already. Every other event keeps the invariant. |
| RoomEvents.Alone | room.go:70-76 | The state right after a client connects to an empty room and joins it is healthy, and the client's mailbox is fresh. |
| RoomEvents.DropThenLeaveCrashes | room.go:31-44 | A lone client that never drains is dropped by the 257th forward. Its leave then panics with "close of closed channel". |
| RoomEvents.LeaveGuardedStep | room.go:31-34 | The guarded leave keeps every registered client backed by a mailbox and every mailbox within capacity. |
| RoomEvents.LeaveGuardedSafe | room.go:31-34 | Under the invariant, the guarded leave never panics and keeps the invariant. It deregisters the client. It closes the mailbox of a registered client. It is a no-op for an unregistered one, and it is idempotent. |
| RoomEvents.HandleGuardedStep | room.go:26-47 | With the guarded leave, every event keeps every registered client backed by a mailbox and every mailbox within capacity. |
| RoomEvents.HandleGuardedStepNeverCrashes | room.go:26-47 | With the guarded leave, no admissible event ever makes `run` panic, and the invariant is kept. |
| RoomEvents.DropThenLeaveGuardedIsSafe | room.go:31-44 | In the scenario of DropThenLeaveCrashes, the guarded leave is harmless and the client's mailbox ends up closed. |
| RoomState.Room.constructor | room.go:18 | A new room has no clients and no mailboxes. |
| RoomState.Room.NewClient | room.go:70-74 | A connecting client gets a new identity and a fresh, empty, open mailbox, and is not registered yet. |
| RoomState.Room.Join | room.go:28-30 | The registry gains the client, and the mailboxes are unchanged. The effect equals JoinStep. |
| RoomState.Room.Leave | room.go:31-34 | The registry loses the client. An open mailbox is closed with its items kept. A closed one records the panic. The effect equals LeaveStep. |
| RoomState.Room.LeaveGuarded | room.go:31-34 | The corrected leave. Its effect equals LeaveGuardedStep. |
| RoomState.Room.Forward | room.go:35-46 | The in-place loop over a snapshot of the registry, which deletes the current client when its mailbox is full. Its effect equals ForwardStep, whatever order the loop picks. |
| RoomState.Room.Take | client.go:33 | One receive of the writer's `range` loop. It takes the oldest item, waits on an open empty mailbox, or stops on a closed empty one. Nothing else changes. |
| RoomState.Room.Handle | room.go:25-49 | One iteration of `run` once `select` has chosen an event. The effect equals HandleStep. |

## Left out

- `ServeHTTP` (room.go:61-83): the websocket upgrade, `log.Fatal`, and launching the pumps are I/O. Only its effect on the room is kept: `Room.NewClient` for a fresh mailbox of capacity 256 (room.go:70-74), the join that follows it, and the deferred leave (room.go:79), which is the leave event in the scenarios.
- `upgrader` and `socketBufferSize` (room.go:52, room.go:57-59): transport configuration that the room's logic never reads.
- The `read` and `write` pumps (client.go:20-39): blocking socket calls into a library that is not part of this model. Only the receive semantics of `range c.send` are kept, as `Room.Take` and `Channel.Drain`.
- Goroutines, the `select` among the three event channels, and their blocking sends: events are handled one at a time, in an order that `Room.Handle`'s caller chooses. No priority among event kinds is specified.
- What happens after a panic: the process ends. `Crashed` records only the reason. The methods require that no panic has happened yet, and the pure functions keep a crashed state unchanged.
- Pointer identity of `*client` is modelled by natural-number ids, which `Room.NewClient` hands out in increasing order.

## Findings

| source | as written | input that shows it | evidently intended | confidence | as-written member | corrected member |
|---|---|---|---|---|---|---|
| room.go:31-34 | The leave case closes `client.send` whether or not the client is still registered. | A client that never drains is alone in the room. 257 forwards arrive: the 257th finds its mailbox full, drops it, and closes the mailbox (room.go:43-44). The client's deferred leave (room.go:79) then closes the mailbox again, and Go panics, ending the server. | A leave of a client that is no longer registered does nothing (the design calls leave idempotent). Only a registered client's mailbox is closed. | high; not executed | RoomEvents.DropThenLeaveCrashes | RoomEvents.LeaveGuardedSafe |
