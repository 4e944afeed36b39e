/**
 The chat room object: the registry and the mailboxes it owns as mutable
 fields, and the handler's cases as methods that update them in place. Each
 method is proved to have the effect of its counterpart in RoomEvents.
 */
module RoomState {
  import opened Channel
  import opened RoomEvents

  datatype Option<T> = None | Some(value: T)

  class Room {
    /** `r.clients`: the registered clients. */
    var clients: set<ClientId>
    /** Each client's `send` channel, for every client ever connected. */
    var send: map<ClientId, Chan>
    /** The panic that stopped `run`, if one did. */
    var fault: Option<Fault>
    /** Ids not yet handed out (a new `*client` is a new pointer). */
    var nextId: ClientId

    ghost predicate Valid()
      reads this
    {
      && Wellformed(Running(clients, send))
      && forall c :: c in send ==> c < nextId
    }

    /** The abstract state the fields stand for. */
    function Abs(): State
      reads this
    {
      if fault.Some? then Crashed(fault.value) else Running(clients, send)
    }

    /** An empty room. */
    constructor ()
      ensures Valid() && fault == None
      ensures Abs() == Running({}, map[])
    {
      clients, send, fault, nextId := {}, map[], None, 0;
    }

    /** The part of `ServeHTTP` the room sees: a new client with a fresh
        mailbox of capacity `messageBufferSize`, not yet registered. */
    method NewClient() returns (c: ClientId)
      requires Valid() && fault.None?
      modifies this
      ensures Valid()
      ensures c !in old(send) && send == old(send)[c := Make()]
      ensures clients == old(clients) && fault == old(fault)
      ensures FreshClient(Abs(), c)
    {
      c := nextId;
      send := send[c := Make()];
      nextId := nextId + 1;
    }

    method Join(c: ClientId)
      requires Valid() && fault.None? && c in send
      modifies this
      ensures Valid() && Abs() == JoinStep(old(Abs()), c)
      ensures clients == old(clients) + {c} && send == old(send)
      ensures fault == old(fault) && nextId == old(nextId)
    {
      clients := clients + {c};
    }

    /** The leave case as written: the close is unconditional. */
    method Leave(c: ClientId)
      requires Valid() && fault.None? && c in send
      modifies this
      ensures Valid() && Abs() == LeaveStep(old(Abs()), c)
      ensures clients == old(clients) - {c} && nextId == old(nextId)
      ensures fault == if old(send[c].closed) then Some(CloseOfClosedChannel(c)) else None
      ensures send == if old(send[c].closed) then old(send)
                      else old(send)[c := Chan(old(send[c].items), true)]
    {
      clients := clients - {c};
      match Close(send[c]) {
        case ClosedOk(next) =>
          send := send[c := next];
        case CloseOfClosed =>
          fault := Some(CloseOfClosedChannel(c));
      }
    }

    /** The leave case with the membership check it lacks. */
    method LeaveGuarded(c: ClientId)
      requires Valid() && fault.None? && c in send
      modifies this
      ensures Valid() && Abs() == LeaveGuardedStep(old(Abs()), c)
      ensures nextId == old(nextId)
    {
      if c in clients {
        Leave(c);
      }
    }

    /** The forward case: a non-blocking send to every client registered
        when the event is taken, dropping those whose mailbox is full. The
        loop visits a snapshot of the registry in an arbitrary order. */
    method Forward(m: Msg)
      requires Valid() && fault.None?
      modifies this
      ensures Valid() && Abs() == ForwardStep(old(Abs()), m)
      ensures nextId == old(nextId)
    {
      ghost var s0 := Abs();
      var pending := clients;
      ghost var visited: set<ClientId> := {};
      while pending != {}
        invariant Valid() && fault.None? && nextId == old(nextId)
        invariant pending <= s0.clients && visited == s0.clients - pending
        invariant forall c :: c in visited ==> !s0.send[c].closed
        invariant Abs() == PartialForward(s0, visited, m)
        decreases pending
      {
        var c :| c in pending;
        assert send[c] == s0.send[c];
        match TrySend(send[c], MessageBufferSize, m) {
          case Enqueued(next) =>
            send := send[c := next];
          case Full =>
            clients := clients - {c};
            send := send[c := Close(send[c]).next];
          case SendOnClosed =>
            assert SomeClosed(s0);
            fault := Some(SendOnClosedChannel);
            return;
        }
        VisitExtends(s0, visited, c, m);
        pending := pending - {c};
        visited := visited + {c};
      }
      assert !SomeClosed(s0);
    }

    /** One step of the client's writer, `for msg := range c.send`: take the
        oldest buffered message, wait on an open empty mailbox, or stop on a
        closed empty one. */
    method Take(c: ClientId) returns (r: RecvResult)
      requires Valid() && fault.None? && c in send
      modifies this
      ensures Valid() && r == Recv(old(send[c]))
      ensures send == if r.Received? then old(send)[c := r.next] else old(send)
      ensures clients == old(clients) && fault == old(fault) && nextId == old(nextId)
    {
      r := Recv(send[c]);
      if r.Received? {
        send := send[c := r.next];
      }
    }

    /** One iteration of `run` once `select` has picked an event. */
    method Handle(e: Event)
      requires Valid() && fault.None? && KnowsEvent(Abs(), e)
      modifies this
      ensures Valid() && Abs() == HandleStep(old(Abs()), e)
      ensures nextId == old(nextId)
    {
      match e {
        case JoinEvent(c) => Join(c);
        case LeaveEvent(c) => Leave(c);
        case ForwardEvent(msg) => Forward(msg);
      }
    }
  }
}
