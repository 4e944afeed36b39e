/**
 The chat room's event handler (the body of `room.run`) as pure functions on
 the room's abstract state: the set of registered clients and every client's
 outbound mailbox. Each function is one case of the handler's `select`; the
 lemmas state what each case promises and which invariant they all keep.
 */
module RoomEvents {
  import opened Channel

  /** Capacity of every client's mailbox (`messageBufferSize`). */
  const MessageBufferSize: nat := 256

  /** A client stands for a `*client` pointer: equal ids are the same client. */
  type ClientId = nat

  /** The two runtime panics the handler can hit. */
  datatype Fault =
    | CloseOfClosedChannel(client: ClientId)
    | SendOnClosedChannel

  /** While the loop runs: the registry (`r.clients`) and each known client's
      mailbox (`client.send`). After a panic the process is gone, and only the
      reason is left. */
  datatype State =
    | Running(clients: set<ClientId>, send: map<ClientId, Chan>)
    | Crashed(fault: Fault)

  /** Every registered client has a mailbox, and no mailbox holds more than
      its capacity (a Go channel never does). */
  predicate Wellformed(s: State)
  {
    s.Running? ==>
      && s.clients <= s.send.Keys
      && forall c :: c in s.send ==> |s.send[c].items| <= MessageBufferSize
  }

  /** The invariant that keeps `run` from panicking: the loop is running and
      every registered client's mailbox is still open. */
  predicate Healthy(s: State)
  {
    && s.Running?
    && Wellformed(s)
    && forall c :: c in s.clients ==> !s.send[c].closed
  }

  /** A client the handler may be told about: one that owns a mailbox. */
  predicate Knows(s: State, c: ClientId)
  {
    s.Running? ==> c in s.send
  }

  /** A client that has just connected: its mailbox is the fresh, empty, open
      channel that `make` returned. */
  predicate FreshClient(s: State, c: ClientId)
  {
    s.Running? && c in s.send && s.send[c] == Make()
  }

  // ---------------------------------------------------------------- join

  /** `case client := <-r.join: r.clients[client] = true` */
  function JoinStep(s: State, c: ClientId): (r: State)
    requires Wellformed(s) && Knows(s, c)
    ensures Wellformed(r)
  {
    if s.Crashed? then s else Running(s.clients + {c}, s.send)
  }

  /** Joining registers the client and nothing else: no other membership and
      no mailbox changes. */
  lemma JoinRegisters(s: State, c: ClientId)
    requires Wellformed(s) && s.Running? && c in s.send
    ensures JoinStep(s, c).Running?
    ensures c in JoinStep(s, c).clients
    ensures forall d :: d != c ==> (d in JoinStep(s, c).clients <==> d in s.clients)
    ensures JoinStep(s, c).send == s.send
  {
  }

  /** A map assignment to `true` twice is the same as once. */
  lemma JoinIdempotent(s: State, c: ClientId)
    requires Wellformed(s) && Knows(s, c)
    ensures JoinStep(JoinStep(s, c), c) == JoinStep(s, c)
    ensures s.Running? && c in s.clients ==> JoinStep(s, c) == s
  {
  }

  /** Joining a client whose mailbox is open keeps the invariant. */
  lemma JoinPreservesHealthy(s: State, c: ClientId)
    requires Healthy(s) && c in s.send && !s.send[c].closed
    ensures Healthy(JoinStep(s, c))
  {
  }

  // --------------------------------------------------------------- leave

  /** `case client := <-r.leave: delete(r.clients, client); close(client.send)`.
      The close is unconditional, so a mailbox closed before panics. */
  function LeaveStep(s: State, c: ClientId): (r: State)
    requires Wellformed(s) && Knows(s, c)
    ensures Wellformed(r)
  {
    if s.Crashed? then s
    else match Close(s.send[c])
      case ClosedOk(next) => Running(s.clients - {c}, s.send[c := next])
      case CloseOfClosed => Crashed(CloseOfClosedChannel(c))
  }

  /** Leaving deregisters the client and closes its mailbox, keeping what is
      buffered for the client's writer to drain; no other client's membership
      or mailbox changes, and the invariant is kept. */
  lemma LeaveDeregisters(s: State, c: ClientId)
    requires Wellformed(s) && s.Running? && c in s.send && !s.send[c].closed
    ensures LeaveStep(s, c).Running?
    ensures LeaveStep(s, c).clients == s.clients - {c}
    ensures LeaveStep(s, c).send.Keys == s.send.Keys
    ensures LeaveStep(s, c).send[c] == Chan(s.send[c].items, true)
    ensures forall d :: d in s.send && d != c ==> LeaveStep(s, c).send[d] == s.send[d]
    ensures Healthy(s) ==> Healthy(LeaveStep(s, c))
  {
  }

  /** `delete` of an absent key leaves the registry alone, but the mailbox is
      still closed. */
  lemma LeaveUnregistered(s: State, c: ClientId)
    requires Wellformed(s) && s.Running? && c in s.send && c !in s.clients
    requires !s.send[c].closed
    ensures LeaveStep(s, c) == Running(s.clients, s.send[c := Chan(s.send[c].items, true)])
  {
  }

  /** Leave panics exactly when the client's mailbox was already closed. */
  lemma LeaveCrashesIff(s: State, c: ClientId)
    requires Wellformed(s) && s.Running? && c in s.send
    ensures LeaveStep(s, c).Crashed? <==> s.send[c].closed
    ensures LeaveStep(s, c).Crashed? ==> LeaveStep(s, c).fault == CloseOfClosedChannel(c)
  {
  }

  // ------------------------------------------------------------- forward

  /** One client's share of a fan-out: a successful enqueue, or, when the
      mailbox is full, the mailbox closed with its items kept. */
  function Deliver(ch: Chan, m: Msg): Chan
  {
    match TrySend(ch, MessageBufferSize, m)
    case Enqueued(next) => next
    case Full => Close(ch).next
    case SendOnClosed => ch
  }

  /** The registered clients that survive a fan-out over `targets`: those not
      visited, and those visited that had room. */
  function Kept(clients: set<ClientId>, send: map<ClientId, Chan>, targets: set<ClientId>): set<ClientId>
  {
    set c | c in clients && (c in targets && c in send ==> HasRoom(send[c], MessageBufferSize))
  }

  /** The mailboxes after a fan-out over `targets`. */
  function Delivered(send: map<ClientId, Chan>, targets: set<ClientId>, m: Msg): map<ClientId, Chan>
  {
    map c | c in send :: if c in targets then Deliver(send[c], m) else send[c]
  }

  /** The fan-out part way through: the clients of `visited` have been
      handled and no other. */
  function PartialForward(s: State, visited: set<ClientId>, m: Msg): (r: State)
    requires Wellformed(s) && s.Running?
    ensures Wellformed(r) && r.Running? && r.send.Keys == s.send.Keys
  {
    Running(Kept(s.clients, s.send, visited), Delivered(s.send, visited, m))
  }

  /** Some registered client's mailbox is closed: any fan-out panics. */
  predicate SomeClosed(s: State)
    requires Wellformed(s) && s.Running?
  {
    exists c :: c in s.clients && s.send[c].closed
  }

  /** `case msg := <-r.forward:` the fan-out over every registered client.
      Since each client is handled on its own mailbox, the outcome is given
      here without reference to an iteration order (see ForwardAnyOrder). */
  function ForwardStep(s: State, m: Msg): (r: State)
    requires Wellformed(s)
    ensures Wellformed(r)
    ensures r.Running? ==> s.Running? && r.send.Keys == s.send.Keys && r.clients <= s.clients
  {
    if s.Crashed? then s
    else if SomeClosed(s) then Crashed(SendOnClosedChannel)
    else PartialForward(s, s.clients, m)
  }

  /** The fan-out's promise to each client, given the invariant: a registered
      client with room stays and gets `m` at its tail; a registered client
      whose mailbox is full is dropped, closed, and does not get `m`; a client
      not registered is not touched. The invariant is kept. */
  lemma ForwardDelivers(s: State, m: Msg)
    requires Healthy(s)
    ensures ForwardStep(s, m).Running?
    ensures Healthy(ForwardStep(s, m))
    ensures ForwardStep(s, m).send.Keys == s.send.Keys
    ensures forall c :: c in s.clients && |s.send[c].items| < MessageBufferSize ==>
      c in ForwardStep(s, m).clients && ForwardStep(s, m).send[c] == Chan(s.send[c].items + [m], false)
    ensures forall c :: c in s.clients && |s.send[c].items| == MessageBufferSize ==>
      c !in ForwardStep(s, m).clients && ForwardStep(s, m).send[c] == Chan(s.send[c].items, true)
    ensures forall c :: c in s.send && c !in s.clients ==>
      c !in ForwardStep(s, m).clients && ForwardStep(s, m).send[c] == s.send[c]
  {
  }

  /** A fan-out panics exactly when some registered client's mailbox is closed. */
  lemma ForwardCrashesIff(s: State, m: Msg)
    requires Wellformed(s) && s.Running?
    ensures ForwardStep(s, m).Crashed? <==> exists c :: c in s.clients && s.send[c].closed
  {
  }

  /** The source's loop body for one client `c` of the registry. */
  function VisitStep(s: State, c: ClientId, m: Msg): (r: State)
    requires Wellformed(s) && Knows(s, c)
    ensures Wellformed(r)
    ensures r.Running? ==> s.Running? && r.send.Keys == s.send.Keys
  {
    if s.Crashed? then s
    else match TrySend(s.send[c], MessageBufferSize, m)
      case Enqueued(next) => Running(s.clients, s.send[c := next])
      case Full => Running(s.clients - {c}, s.send[c := Close(s.send[c]).next])
      case SendOnClosed => Crashed(SendOnClosedChannel)
  }

  /** The source's loop: the body for each client of `order` in turn, up to
      the first panic. */
  function VisitAll(s: State, order: seq<ClientId>, m: Msg): (r: State)
    requires Wellformed(s) && (s.Running? ==> forall i :: 0 <= i < |order| ==> order[i] in s.send)
    decreases |order|
  {
    if order == [] || s.Crashed? then s
    else VisitAll(VisitStep(s, order[0], m), order[1..], m)
  }

  predicate Distinct(order: seq<ClientId>)
  {
    forall i, j :: 0 <= i < j < |order| ==> order[i] != order[j]
  }

  /** One loop iteration on an open mailbox extends the handled set by one
      client. */
  lemma VisitExtends(s: State, visited: set<ClientId>, c: ClientId, m: Msg)
    requires Wellformed(s) && s.Running?
    requires c in s.clients && c !in visited && !s.send[c].closed
    ensures VisitStep(PartialForward(s, visited, m), c, m) == PartialForward(s, visited + {c}, m)
  {
  }

  /** Visiting the remaining clients `order` after the clients `visited`
      completes the fan-out. */
  lemma {:induction false} VisitRest(s: State, visited: set<ClientId>, order: seq<ClientId>, m: Msg)
    requires Wellformed(s) && s.Running?
    requires Distinct(order)
    requires forall i :: 0 <= i < |order| ==> order[i] !in visited
    requires forall c :: c in s.clients <==> c in visited || c in order
    requires forall c :: c in visited ==> !s.send[c].closed
    ensures VisitAll(PartialForward(s, visited, m), order, m) == ForwardStep(s, m)
    decreases |order|
  {
    var st := PartialForward(s, visited, m);
    if order == [] {
      assert !SomeClosed(s);
      assert visited == s.clients;
    } else {
      var c := order[0];
      assert c in s.clients;
      assert st.send[c] == s.send[c];
      if s.send[c].closed {
        assert SomeClosed(s);
        assert VisitStep(st, c, m) == Crashed(SendOnClosedChannel);
      } else {
        var visited' := visited + {c};
        VisitExtends(s, visited, c, m);
        forall i | 0 <= i < |order[1..]|
          ensures order[1..][i] !in visited'
        {
          assert order[1..][i] == order[i + 1];
        }
        forall d | d in s.clients
          ensures d in visited' || d in order[1..]
        {
          if d !in visited && d != c {
            var k :| 0 <= k < |order| && order[k] == d;
            assert order[1..][k - 1] == d;
          }
        }
        VisitRest(s, visited', order[1..], m);
      }
    }
  }

  /** The loop `for client := range r.clients` visits the registry in an
      order Go leaves unspecified, deleting only the client it is visiting.
      Whatever that order, the result is the fan-out of ForwardStep. */
  lemma ForwardAnyOrder(s: State, order: seq<ClientId>, m: Msg)
    requires Wellformed(s) && s.Running?
    requires Distinct(order)
    requires forall c :: c in s.clients <==> c in order
    ensures VisitAll(s, order, m) == ForwardStep(s, m)
  {
    assert PartialForward(s, {}, m) == s;
    VisitRest(s, {}, order, m);
  }

  /** Several forward events processed one after another. */
  function ForwardAll(s: State, msgs: seq<Msg>): (r: State)
    requires Wellformed(s)
    ensures Wellformed(r)
    ensures r.Running? ==> s.Running? && r.send.Keys == s.send.Keys
    decreases |msgs|
  {
    if msgs == [] then s else ForwardAll(ForwardStep(s, msgs[0]), msgs[1..])
  }

  /** A client that is not registered is never written to, so it receives no
      message forwarded while it is away. */
  lemma {:induction false} ForwardAllSkipsUnregistered(s: State, c: ClientId, msgs: seq<Msg>)
    requires Healthy(s) && c in s.send && c !in s.clients
    ensures Healthy(ForwardAll(s, msgs))
    ensures c !in ForwardAll(s, msgs).clients
    ensures ForwardAll(s, msgs).send[c] == s.send[c]
    decreases |msgs|
  {
    if msgs != [] {
      ForwardDelivers(s, msgs[0]);
      ForwardAllSkipsUnregistered(ForwardStep(s, msgs[0]), c, msgs[1..]);
    }
  }

  /** Per-client order follows forward order: a registered client with room
      for all of `msgs` stays registered and receives them at its tail, in
      the order they were forwarded. */
  lemma {:induction false} ForwardAllWithinRoom(s: State, c: ClientId, msgs: seq<Msg>)
    requires Healthy(s) && c in s.clients
    requires |s.send[c].items| + |msgs| <= MessageBufferSize
    ensures Healthy(ForwardAll(s, msgs))
    ensures c in ForwardAll(s, msgs).clients
    ensures ForwardAll(s, msgs).send[c] == Chan(s.send[c].items + msgs, false)
    decreases |msgs|
  {
    var items := s.send[c].items;
    if msgs == [] {
      assert items + msgs == items;
    } else {
      var s' := ForwardStep(s, msgs[0]);
      ForwardToOne(s, c, msgs[0]);
      ForwardAllWithinRoom(s', c, msgs[1..]);
      assert ForwardAll(s, msgs) == ForwardAll(s', msgs[1..]);
      assert items + [msgs[0]] + msgs[1..] == items + msgs;
    }
  }

  /** What one forward does to one registered client, given the invariant. */
  lemma ForwardToOne(s: State, c: ClientId, m: Msg)
    requires Healthy(s) && c in s.clients
    ensures Healthy(ForwardStep(s, m))
    ensures |s.send[c].items| < MessageBufferSize ==>
      c in ForwardStep(s, m).clients && ForwardStep(s, m).send[c] == Chan(s.send[c].items + [m], false)
    ensures |s.send[c].items| == MessageBufferSize ==>
      c !in ForwardStep(s, m).clients && ForwardStep(s, m).send[c] == Chan(s.send[c].items, true)
  {
  }

  /** A client that never drains is dropped on the first forward that finds
      its mailbox full: with `k` items buffered, it receives the next
      `256 - k` messages in order, the following one closes its mailbox and
      removes it from the registry, and it receives nothing after that. */
  lemma {:induction false} ForwardAllDropsStalledClient(s: State, c: ClientId, msgs: seq<Msg>)
    requires Healthy(s) && c in s.clients
    requires |s.send[c].items| + |msgs| > MessageBufferSize
    ensures Healthy(ForwardAll(s, msgs))
    ensures c !in ForwardAll(s, msgs).clients
    ensures ForwardAll(s, msgs).send[c]
         == Chan(s.send[c].items + msgs[..MessageBufferSize - |s.send[c].items|], true)
    decreases |msgs|
  {
    var items := s.send[c].items;
    var s' := ForwardStep(s, msgs[0]);
    assert ForwardAll(s, msgs) == ForwardAll(s', msgs[1..]);
    if |items| < MessageBufferSize {
      assert Healthy(s') && c in s'.clients && s'.send[c].items == items + [msgs[0]] by {
        ForwardToOne(s, c, msgs[0]);
      }
      ForwardAllDropsStalledClient(s', c, msgs[1..]);
      var n := MessageBufferSize - (|items| + 1);
      assert items + [msgs[0]] + msgs[1..][..n] == items + msgs[..n + 1];
    } else {
      assert Healthy(s') && c in s'.send && c !in s'.clients && s'.send[c] == Chan(items, true) by {
        ForwardToOne(s, c, msgs[0]);
      }
      ForwardAllSkipsUnregistered(s', c, msgs[1..]);
      assert items + msgs[..0] == items;
    }
  }


  // --------------------------------------------------------- the handler

  /** The three kinds of event `run` selects among. */
  datatype Event =
    | JoinEvent(joiner: ClientId)
    | LeaveEvent(leaver: ClientId)
    | ForwardEvent(msg: Msg)

  predicate KnowsEvent(s: State, e: Event)
  {
    match e
    case JoinEvent(c) => Knows(s, c)
    case LeaveEvent(c) => Knows(s, c)
    case ForwardEvent(_) => true
  }

  /** One iteration of `for { select { ... } }` once an event is chosen. */
  function HandleStep(s: State, e: Event): (r: State)
    requires Wellformed(s) && KnowsEvent(s, e)
    ensures Wellformed(r)
  {
    match e
    case JoinEvent(c) => JoinStep(s, c)
    case LeaveEvent(c) => LeaveStep(s, c)
    case ForwardEvent(m) => ForwardStep(s, m)
  }

  /** Events as the connection code produces them: a join brings a client
      whose mailbox is open, and a leave names a client with a mailbox. */
  predicate Admissible(s: State, e: Event)
    requires Healthy(s)
  {
    match e
    case JoinEvent(c) => c in s.send && !s.send[c].closed
    case LeaveEvent(c) => c in s.send
    case ForwardEvent(_) => true
  }

  /** Under the invariant, the only event that makes `run` panic is the leave
      of a client whose mailbox is already closed; every other event keeps
      the invariant. */
  lemma HandleStepPreservesHealthy(s: State, e: Event)
    requires Healthy(s) && Admissible(s, e)
    ensures HandleStep(s, e).Crashed? <==> e.LeaveEvent? && s.send[e.leaver].closed
    ensures HandleStep(s, e).Running? ==> Healthy(HandleStep(s, e))
  {
  }

  /** The room as a client finds it right after connecting to an empty room:
      only itself registered, with a fresh mailbox. */
  function Alone(c: ClientId): (s: State)
    ensures Healthy(s) && FreshClient(s, c) && s.clients == {c}
  {
    Running({c}, map[c := Make()])
  }

  /** A client alone in the room whose writer stalls is dropped by the 257th
      forward; its deferred leave then closes its mailbox a second time, and
      `run` panics. */
  lemma DropThenLeaveCrashes(c: ClientId, msgs: seq<Msg>)
    requires |msgs| == MessageBufferSize + 1
    ensures Healthy(ForwardAll(Alone(c), msgs))
    ensures c !in ForwardAll(Alone(c), msgs).clients
    ensures LeaveStep(ForwardAll(Alone(c), msgs), c) == Crashed(CloseOfClosedChannel(c))
  {
    ForwardAllDropsStalledClient(Alone(c), c, msgs);
  }

  // ------------------------------------------------- leave, as intended

  /** Leave as the design describes it: only a registered client is
      deregistered and has its mailbox closed; for any other client it is a
      no-op. */
  function LeaveGuardedStep(s: State, c: ClientId): (r: State)
    requires Wellformed(s) && Knows(s, c)
    ensures Wellformed(r)
  {
    if s.Running? && c in s.clients then LeaveStep(s, c) else s
  }

  /** The guarded leave never panics under the invariant, keeps it, leaves the
      client deregistered, closes its mailbox when it was registered, and is
      idempotent. */
  lemma LeaveGuardedSafe(s: State, c: ClientId)
    requires Healthy(s) && c in s.send
    ensures Healthy(LeaveGuardedStep(s, c))
    ensures LeaveGuardedStep(s, c).clients == s.clients - {c}
    ensures c in s.clients ==> LeaveGuardedStep(s, c).send == s.send[c := Chan(s.send[c].items, true)]
    ensures c !in s.clients ==> LeaveGuardedStep(s, c) == s
    ensures LeaveGuardedStep(LeaveGuardedStep(s, c), c) == LeaveGuardedStep(s, c)
  {
  }

  /** The handler with the guarded leave. */
  function HandleGuardedStep(s: State, e: Event): (r: State)
    requires Wellformed(s) && KnowsEvent(s, e)
    ensures Wellformed(r)
  {
    match e
    case LeaveEvent(c) => LeaveGuardedStep(s, c)
    case _ => HandleStep(s, e)
  }

  /** With the guarded leave, no admissible event ever makes `run` panic. */
  lemma HandleGuardedStepNeverCrashes(s: State, e: Event)
    requires Healthy(s) && Admissible(s, e)
    ensures Healthy(HandleGuardedStep(s, e))
  {
  }

  /** The scenario of DropThenLeaveCrashes with the guarded leave: the dropped
      client's leave is harmless and its mailbox ends up closed either way. */
  lemma DropThenLeaveGuardedIsSafe(c: ClientId, msgs: seq<Msg>)
    requires |msgs| == MessageBufferSize + 1
    ensures Healthy(LeaveGuardedStep(ForwardAll(Alone(c), msgs), c))
    ensures LeaveGuardedStep(ForwardAll(Alone(c), msgs), c).send[c].closed
  {
    ForwardAllDropsStalledClient(Alone(c), c, msgs);
    LeaveGuardedSafe(ForwardAll(Alone(c), msgs), c);
  }
}
