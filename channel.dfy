/**
 * The frame channel between capture and inference: a kotlinx Channel created
 * with a fixed buffer capacity, used with the non-blocking `trySend` on the
 * producer side and drained in order by the consumer's `for` loop.
 *
 * `Apply` is the value-level meaning of one operation and `Run` of a sequence
 * of them; the class's methods are tied to `Apply`, and the lemmas state the
 * buffering policy: never more than the capacity, first in first out, and a
 * full or closed channel drops the newest item.
 */
module Channel {
  import opened Wrappers

  datatype ChanState<T> = ChanState(buffered: seq<T>, closed: bool)

  datatype ChanOp<T> = Send(item: T) | Receive | Close

  /** What one operation did: the state after it, what it accepted, what it delivered. */
  datatype Effect<T> = Effect(after: ChanState<T>, accepted: seq<T>, delivered: seq<T>)

  function Apply<T>(s: ChanState<T>, capacity: nat, op: ChanOp<T>): Effect<T>
  {
    match op
    case Send(x) =>
      if s.closed || |s.buffered| >= capacity then Effect(s, [], [])
      else Effect(s.(buffered := s.buffered + [x]), [x], [])
    case Receive =>
      if s.buffered == [] then Effect(s, [], [])
      else Effect(s.(buffered := s.buffered[1..]), [], [s.buffered[0]])
    case Close => Effect(s.(closed := true), [], [])
  }

  function Run<T>(s: ChanState<T>, capacity: nat, ops: seq<ChanOp<T>>): Effect<T>
    decreases |ops|
  {
    if ops == [] then Effect(s, [], [])
    else
      var e := Apply(s, capacity, ops[0]);
      var rest := Run(e.after, capacity, ops[1..]);
      Effect(rest.after, e.accepted + rest.accepted, e.delivered + rest.delivered)
  }

  /** The buffer never grows past the capacity, whatever the producer and consumer do. */
  lemma {:induction false} RunStaysBounded<T>(s: ChanState<T>, capacity: nat, ops: seq<ChanOp<T>>)
    requires |s.buffered| <= capacity
    ensures |Run(s, capacity, ops).after.buffered| <= capacity
    decreases |ops|
  {
    if ops != [] {
      RunStaysBounded(Apply(s, capacity, ops[0]).after, capacity, ops[1..]);
    }
  }

  /** One operation keeps the FIFO balance. */
  lemma ApplyIsFifo<T>(s: ChanState<T>, capacity: nat, op: ChanOp<T>)
    ensures var e := Apply(s, capacity, op);
            s.buffered + e.accepted == e.delivered + e.after.buffered
  {
    if op.Receive? && s.buffered != [] {
      assert s.buffered == [s.buffered[0]] + s.buffered[1..];
    }
  }

  /** FIFO: what was buffered, followed by everything accepted, is exactly what was
      delivered followed by what is still buffered, in the same order. */
  lemma {:induction false} RunIsFifo<T>(s: ChanState<T>, capacity: nat, ops: seq<ChanOp<T>>)
    ensures var r := Run(s, capacity, ops);
            s.buffered + r.accepted == r.delivered + r.after.buffered
    decreases |ops|
  {
    if ops != [] {
      var e := Apply(s, capacity, ops[0]);
      var rest := Run(e.after, capacity, ops[1..]);
      ApplyIsFifo(s, capacity, ops[0]);
      RunIsFifo(e.after, capacity, ops[1..]);
      assert Run(s, capacity, ops) == Effect(rest.after, e.accepted + rest.accepted, e.delivered + rest.delivered);
      calc {
        s.buffered + (e.accepted + rest.accepted);
        (e.delivered + e.after.buffered) + rest.accepted;
        e.delivered + (rest.delivered + rest.after.buffered);
      }
    }
  }

  /** Once closed, a channel accepts nothing more. */
  lemma {:induction false} ClosedAcceptsNothing<T>(s: ChanState<T>, capacity: nat, ops: seq<ChanOp<T>>)
    requires s.closed
    ensures Run(s, capacity, ops).accepted == [] && Run(s, capacity, ops).after.closed
    decreases |ops|
  {
    if ops != [] {
      ClosedAcceptsNothing(Apply(s, capacity, ops[0]).after, capacity, ops[1..]);
    }
  }

  /** Sends into a full channel with no receive in between are all dropped. */
  lemma {:induction false} FullDropsEverySend<T>(s: ChanState<T>, capacity: nat, items: seq<T>)
    requires |s.buffered| >= capacity
    ensures Run(s, capacity, SendAll(items)) == Effect(s, [], [])
    decreases |items|
  {
    if items != [] {
      FullDropsEverySend(s, capacity, items[1..]);
    }
  }

  function SendAll<T>(items: seq<T>): (ops: seq<ChanOp<T>>)
    ensures |ops| == |items|
    ensures forall i :: 0 <= i < |items| ==> ops[i] == Send(items[i])
  {
    if items == [] then [] else [Send(items[0])] + SendAll(items[1..])
  }

  /** A kotlinx Channel with a fixed buffer capacity. */
  class BoundedChannel<T> {
    const capacity: nat
    var buffered: seq<T>
    var closed: bool

    ghost predicate Valid()
      reads this
    {
      |buffered| <= capacity
    }

    function State(): ChanState<T>
      reads this
    {
      ChanState(buffered, closed)
    }

    /** Channel(capacity = n): empty and open. */
    constructor (n: nat)
      ensures Valid() && capacity == n && buffered == [] && !closed
    {
      capacity := n;
      buffered := [];
      closed := false;
    }

    /** trySend: never suspends; accepts only when open and not full. */
    method TrySend(x: T) returns (sent: bool)
      requires Valid()
      modifies this
      ensures Valid()
      ensures Apply(old(State()), capacity, Send(x)) == Effect(State(), if sent then [x] else [], [])
      ensures sent <==> !old(closed) && |old(buffered)| < capacity
      ensures buffered == if sent then old(buffered) + [x] else old(buffered)
      ensures closed == old(closed)
    {
      if closed || |buffered| >= capacity {
        return false;
      }
      buffered := buffered + [x];
      sent := true;
    }

    /** One iteration of the consumer's loop: the oldest item if there is one. */
    method TryReceive() returns (x: Option<T>)
      requires Valid()
      modifies this
      ensures Valid()
      ensures Apply(old(State()), capacity, Receive) == Effect(State(), [], if x.Some? then [x.value] else [])
      ensures old(buffered) == [] ==> x.None? && buffered == []
      ensures old(buffered) != [] ==> x == Some(old(buffered)[0]) && buffered == old(buffered)[1..]
      ensures closed == old(closed)
    {
      if buffered == [] {
        return None;
      }
      x := Some(buffered[0]);
      buffered := buffered[1..];
    }

    /** close: no more sends are accepted; buffered items stay receivable. */
    method Close()
      requires Valid()
      modifies this
      ensures Valid()
      ensures Apply(old(State()), capacity, ChanOp.Close) == Effect(State(), [], [])
      ensures closed && buffered == old(buffered)
    {
      closed := true;
    }
  }
}
