/** The two behaviours of a FreeRTOS queue that the programs rely on: a send to
    the back with zero wait fails when the queue is full, and receive takes the
    oldest item. The queue is its contents plus the length it was created with. */
module BoundedQueue {

  import opened Arith

  /** xQueueSendToBack(q, &x, 0): appends when there is room, otherwise refuses
      at once and leaves the queue as it was. */
  function Send<T>(q: seq<T>, capacity: nat, x: T): (r: (seq<T>, bool))
    ensures r.1 <==> |q| < capacity
    ensures q <= r.0 && |r.0| <= |q| + 1
    ensures |q| <= capacity ==> |r.0| <= capacity
    ensures r.1 ==> r.0 == q + [x]
    ensures !r.1 ==> r.0 == q
  {
    if |q| < capacity then (q + [x], true) else (q, false)
  }

  /** One operation on a queue: a zero-wait send, or a receive attempt. */
  datatype Op<T> = Put(item: T) | Take

  /** What a run of operations did: the queue left behind, the items the queue
      accepted and the items receivers got, each in the order it happened. */
  datatype Trace<T> = Trace(queue: seq<T>, accepted: seq<T>, delivered: seq<T>)

  function Run<T>(q: seq<T>, capacity: nat, ops: seq<Op<T>>): Trace<T>
    decreases |ops|
  {
    if ops == [] then Trace(q, [], [])
    else match ops[0]
      case Put(x) =>
        var (q', ok) := Send(q, capacity, x);
        var t := Run(q', capacity, ops[1..]);
        Trace(t.queue, if ok then [x] + t.accepted else t.accepted, t.delivered)
      case Take =>
        if q == [] then Run(q, capacity, ops[1..])
        else
          var t := Run(q[1..], capacity, ops[1..]);
          Trace(t.queue, t.accepted, [q[0]] + t.delivered)
  }

  /** A send never takes the queue past its length. */
  lemma SendBounded<T>(q: seq<T>, capacity: nat, x: T)
    requires |q| <= capacity
    ensures |Send(q, capacity, x).0| <= capacity
    ensures Send(q, capacity, x).1 <==> |q| < capacity
    ensures Send(q, capacity, x).0 == if |q| < capacity then q + [x] else q
  {
  }

  /** FIFO: whatever mix of sends and receives runs, the items received, followed
      by those still queued, are exactly the items that were queued at the start
      followed by the ones accepted, in the same order; and the queue stays
      within its length. */
  lemma {:induction false} RunIsFifo<T>(q: seq<T>, capacity: nat, ops: seq<Op<T>>)
    requires |q| <= capacity
    ensures var t := Run(q, capacity, ops);
      q + t.accepted == t.delivered + t.queue && |t.queue| <= capacity
    decreases |ops|
  {
    if ops != [] {
      match ops[0]
      case Put(x) =>
        var (q', ok) := Send(q, capacity, x);
        RunIsFifo(q', capacity, ops[1..]);
        var t := Run(q', capacity, ops[1..]);
        if ok {
          assert q + ([x] + t.accepted) == q' + t.accepted;
        }
      case Take =>
        if q != [] {
          RunIsFifo(q[1..], capacity, ops[1..]);
          var t := Run(q[1..], capacity, ops[1..]);
          assert q == [q[0]] + q[1..];
          assert q + t.accepted == [q[0]] + (q[1..] + t.accepted);
        } else {
          RunIsFifo(q, capacity, ops[1..]);
        }
    }
  }

  /** Sending a burst with nobody receiving. */
  function SendAll<T>(q: seq<T>, capacity: nat, xs: seq<T>): seq<T>
    decreases |xs|
  {
    if xs == [] then q else SendAll(Send(q, capacity, xs[0]).0, capacity, xs[1..])
  }

  /** Overload: a burst keeps its first items, as many as there is room for, in
      order, and drops all the rest. */
  lemma {:induction false} SendAllKeepsRoom<T>(q: seq<T>, capacity: nat, xs: seq<T>)
    requires |q| <= capacity
    ensures SendAll(q, capacity, xs) == q + xs[..Min(|xs|, capacity - |q|)]
    decreases |xs|
  {
    if xs != [] {
      var q' := Send(q, capacity, xs[0]).0;
      SendAllKeepsRoom(q', capacity, xs[1..]);
      if |q| < capacity {
        assert q' == q + [xs[0]];
        assert xs[..Min(|xs|, capacity - |q|)] == [xs[0]] + xs[1..][..Min(|xs| - 1, capacity - |q'|)];
      } else {
        assert Min(|xs|, capacity - |q|) == 0;
      }
    }
  }
}
