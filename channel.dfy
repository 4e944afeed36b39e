/**
 Semantics of a buffered Go channel of byte slices, as the chat room uses it:
 a client's outbound mailbox `send chan []byte`. Only the three operations the
 room and its clients perform are modelled: a send inside a `select` with a
 `default` branch (never blocks), `close`, and the receive performed by each
 step of a `for msg := range ch` loop.
 */
module Channel {

  /** A message is an opaque byte string; the room never looks inside it. */
  type Msg = seq<bv8>

  /** The buffered items, oldest first, and whether `close` has been called. */
  datatype Chan = Chan(items: seq<Msg>, closed: bool)

  /** A fresh channel as built by `make(chan []byte, n)`: empty and open. */
  function Make(): (ch: Chan)
    ensures ch.items == [] && !ch.closed
  {
    Chan([], false)
  }

  /** The buffer has a free slot for a channel of capacity `cap`. */
  predicate HasRoom(ch: Chan, cap: nat)
  {
    |ch.items| < cap
  }

  /** Outcome of `select { case ch <- m: ... default: ... }`. */
  datatype SendResult =
    | Enqueued(next: Chan)  // the first case was taken
    | Full                  // the default branch was taken
    | SendOnClosed          // Go panics: send on closed channel

  /** Non-blocking send: a closed channel panics even inside a select, a
      channel with free space takes the message at its tail, and a full
      open channel falls through to `default`. */
  function TrySend(ch: Chan, cap: nat, m: Msg): SendResult
  {
    if ch.closed then SendOnClosed
    else if HasRoom(ch, cap) then Enqueued(Chan(ch.items + [m], false))
    else Full
  }

  /** Outcome of `close(ch)`. */
  datatype CloseResult =
    | ClosedOk(next: Chan)
    | CloseOfClosed         // Go panics: close of closed channel

  /** Closing keeps the buffered items for the receiver to drain. */
  function Close(ch: Chan): CloseResult
  {
    if ch.closed then CloseOfClosed else ClosedOk(Chan(ch.items, true))
  }

  /** Outcome of one step of `for msg := range ch`. */
  datatype RecvResult =
    | Received(m: Msg, next: Chan)  // the oldest buffered item
    | Blocked                       // open and empty: the receiver waits
    | Done                          // closed and empty: the loop ends

  function Recv(ch: Chan): RecvResult
  {
    if ch.items != [] then Received(ch.items[0], Chan(ch.items[1..], ch.closed))
    else if ch.closed then Done
    else Blocked
  }

  /** What a `range` loop that is never stopped by a write error receives
      before it first fails to receive: exactly the buffered items, oldest
      first, and it then ends if and only if the channel is closed. */
  function Drain(ch: Chan): (r: (seq<Msg>, RecvResult))
    ensures r.0 == ch.items
    ensures r.1 == (if ch.closed then Done else Blocked)
    decreases |ch.items|
  {
    match Recv(ch)
    case Received(m, next) =>
      var rest := Drain(next);
      ([m] + rest.0, rest.1)
    case other => ([], other)
  }

  /** Sends one message after another, stopping at the first that does not
      enqueue. */
  function SendAll(ch: Chan, cap: nat, ms: seq<Msg>): SendResult
    decreases |ms|
  {
    if ms == [] then Enqueued(ch)
    else match TrySend(ch, cap, ms[0])
      case Enqueued(next) => SendAll(next, cap, ms[1..])
      case other => other
  }

  /** Messages sent into an open channel with room for all of them are kept
      in the order they were sent. */
  lemma {:induction false} SendAllKeepsOrder(ch: Chan, cap: nat, ms: seq<Msg>)
    requires !ch.closed && |ch.items| + |ms| <= cap
    ensures SendAll(ch, cap, ms) == Enqueued(Chan(ch.items + ms, false))
    decreases |ms|
  {
    if ms != [] {
      var next := Chan(ch.items + [ms[0]], false);
      assert TrySend(ch, cap, ms[0]) == Enqueued(next);
      SendAllKeepsOrder(next, cap, ms[1..]);
      assert next.items + ms[1..] == ch.items + ms;
    }
  }

  /** FIFO delivery: what the receiver drains after those sends is the old
      buffer followed by the sent messages, in order. */
  lemma SendThenDrain(ch: Chan, cap: nat, ms: seq<Msg>)
    requires !ch.closed && |ch.items| + |ms| <= cap
    ensures SendAll(ch, cap, ms).Enqueued?
    ensures Drain(SendAll(ch, cap, ms).next) == (ch.items + ms, Blocked)
  {
    SendAllKeepsOrder(ch, cap, ms);
  }

  /** Closing an open channel does not lose buffered items: the receiver
      gets all of them and only then stops. */
  lemma CloseThenDrain(ch: Chan)
    requires !ch.closed
    ensures Close(ch).ClosedOk?
    ensures Drain(Close(ch).next) == (ch.items, Done)
  {
  }

  /** A second close is always a panic, whatever the first one kept. */
  lemma CloseTwicePanics(ch: Chan)
    requires Close(ch).ClosedOk?
    ensures Close(Close(ch).next) == CloseOfClosed
  {
  }
}
