/** The relay queue between the bell interrupt and the doorbell worker: a FIFO of fixed
    capacity whose interrupt-side send never blocks and drops the token when the queue is full. */
module Relay {
  import opened Numbers

  /** The capacity the queue is created with. */
  const Capacity: nat := 10

  /** The non-blocking send from interrupt context: append at the back when there is room,
      otherwise leave the queue as it is (the failure is not reported to anyone). */
  function Send<T>(q: seq<T>, x: T, cap: nat): (r: seq<T>)
    ensures |q| < cap ==> r == q + [x]
    ensures |q| >= cap ==> r == q
  {
    if |q| < cap then q + [x] else q
  }

  /** Sending several tokens one after the other. */
  function SendAll<T>(q: seq<T>, xs: seq<T>, cap: nat): seq<T>
    decreases |xs|
  {
    if xs == [] then q else SendAll(Send(q, xs[0], cap), xs[1..], cap)
  }

  /** Sends with no receive in between: the queue keeps the tokens that found room, in order,
      and drops every later one. */
  lemma {:induction false} SendAllKeepsPrefix<T>(q: seq<T>, xs: seq<T>, cap: nat)
    requires |q| <= cap
    ensures SendAll(q, xs, cap) == q + xs[..Min(|xs|, cap - |q|)]
    decreases |xs|
  {
    if xs != [] {
      var q' := Send(q, xs[0], cap);
      SendAllKeepsPrefix(q', xs[1..], cap);
      if |q| < cap {
        assert xs[..Min(|xs|, cap - |q|)] == [xs[0]] + xs[1..][..Min(|xs| - 1, cap - |q'|)];
      } else {
        assert xs[..Min(|xs|, cap - |q|)] == [];
      }
    }
  }

  /** One operation on the queue: an interrupt-side send, or a receive by the worker. */
  datatype Op<T> = Put(x: T) | Take

  /** The queue together with the history of what it admitted and what it delivered. */
  datatype Channel<T> = Channel(queue: seq<T>, admitted: seq<T>, delivered: seq<T>)

  /** A send admits its token iff there is room; a receive delivers the front token.
      A receive on an empty queue would block; in the sequential model it has no effect. */
  function Apply<T>(c: Channel<T>, op: Op<T>, cap: nat): (r: Channel<T>)
    ensures op.Put? ==> r.queue == Send(c.queue, op.x, cap) && r.delivered == c.delivered
                        && r.admitted == c.admitted + (if |c.queue| < cap then [op.x] else [])
    ensures op.Take? && c.queue != [] ==>
              [c.queue[0]] + r.queue == c.queue
              && r.delivered == c.delivered + [c.queue[0]] && r.admitted == c.admitted
    ensures op.Take? && c.queue == [] ==> r == c
  {
    match op
    case Put(x) =>
      if |c.queue| < cap then Channel(Send(c.queue, x, cap), c.admitted + [x], c.delivered) else c
    case Take =>
      if c.queue == [] then c else Channel(c.queue[1..], c.admitted, c.delivered + [c.queue[0]])
  }

  function Replay<T>(c: Channel<T>, ops: seq<Op<T>>, cap: nat): Channel<T>
    decreases |ops|
  {
    if ops == [] then c else Replay(Apply(c, ops[0], cap), ops[1..], cap)
  }

  lemma {:induction false} ReplayAppend<T>(c: Channel<T>, a: seq<Op<T>>, b: seq<Op<T>>, cap: nat)
    ensures Replay(c, a + b, cap) == Replay(Replay(c, a, cap), b, cap)
    decreases |a|
  {
    if a == [] {
      assert a + b == b;
    } else {
      assert (a + b)[0] == a[0];
      assert (a + b)[1..] == a[1..] + b;
      ReplayAppend(Apply(c, a[0], cap), a[1..], b, cap);
    }
  }

  /** Over any interleaving of sends and receives the queue stays within its capacity, and the
      tokens delivered followed by those still queued are exactly the tokens admitted, in the
      order they were admitted: nothing admitted is lost, duplicated or reordered. */
  lemma {:induction false} Fifo<T>(c: Channel<T>, ops: seq<Op<T>>, cap: nat)
    requires |c.queue| <= cap && c.delivered + c.queue == c.admitted
    ensures var d := Replay(c, ops, cap);
            |d.queue| <= cap && d.delivered + d.queue == d.admitted
    decreases |ops|
  {
    if ops != [] {
      var c' := Apply(c, ops[0], cap);
      if ops[0].Take? && c.queue != [] {
        assert c'.delivered + c'.queue == c.delivered + [c.queue[0]] + c.queue[1..];
        assert [c.queue[0]] + c.queue[1..] == c.queue;
      }
      Fifo(c', ops[1..], cap);
    }
  }

  /** The admission and delivery histories only grow. */
  lemma {:induction false} AdmittedGrows<T>(c: Channel<T>, ops: seq<Op<T>>, cap: nat)
    ensures c.admitted <= Replay(c, ops, cap).admitted
    ensures c.delivered <= Replay(c, ops, cap).delivered
    decreases |ops|
  {
    if ops != [] {
      AdmittedGrows(Apply(c, ops[0], cap), ops[1..], cap);
    }
  }

  /** Starting from an empty queue, tokens come out in the order they were admitted. */
  lemma FifoFromEmpty<T>(ops: seq<Op<T>>, cap: nat)
    ensures var d := Replay(Channel([], [], []), ops, cap);
            |d.queue| <= cap && d.delivered <= d.admitted
  {
    var d := Replay(Channel([], [], []), ops, cap);
    Fifo(Channel([], [], []), ops, cap);
    assert d.admitted[..|d.delivered|] == d.delivered;
  }
}
