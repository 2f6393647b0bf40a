/** The doorbell interrupt's debounce rule. Time is counted in whole seconds, as the clock
    the interrupt reads is; the interval is measured from the last ACCEPTED ring, not from
    the last edge. */
module Bell {

  /** An edge at `now` is a new ring when strictly more than `timeout` has passed since the last ring. */
  predicate Accepts(lastRing: int, now: int, timeout: int)
    // an edge exactly `timeout` after the last ring is rejected
    ensures now == lastRing + timeout ==> !Accepts(lastRing, now, timeout)
    // with a non-negative timeout a ring is never at or before the previous one
    ensures timeout >= 0 && Accepts(lastRing, now, timeout) ==> lastRing < now
  {
    now - lastRing > timeout
  }

  /** The last-ring timestamp after one edge at `now`. */
  function Debounce(lastRing: int, now: int, timeout: int): (r: int)
    ensures r == now <==> Accepts(lastRing, now, timeout) || lastRing == now
    ensures r != now ==> r == lastRing
  {
    if Accepts(lastRing, now, timeout) then now else lastRing
  }

  /** The last-ring timestamp after a sequence of edges. */
  function LastRing(lastRing: int, times: seq<int>, timeout: int): int
    decreases |times|
  {
    if times == [] then lastRing
    else LastRing(Debounce(lastRing, times[0], timeout), times[1..], timeout)
  }

  /** The times of the edges that are accepted as rings, in order. */
  function Rings(lastRing: int, times: seq<int>, timeout: int): (r: seq<int>)
    ensures |r| <= |times|
    ensures forall t :: t in r ==> t in times
    decreases |times|
  {
    if times == [] then []
    else
      (if Accepts(lastRing, times[0], timeout) then [times[0]] else [])
      + Rings(Debounce(lastRing, times[0], timeout), times[1..], timeout)
  }

  /** The timestamp kept is that of the most recent ring, or the initial value if there was none. */
  lemma {:induction false} LastRingIsLatestRing(lastRing: int, times: seq<int>, timeout: int)
    ensures var r := Rings(lastRing, times, timeout);
            LastRing(lastRing, times, timeout) == if r == [] then lastRing else r[|r| - 1]
    decreases |times|
  {
    if times != [] {
      LastRingIsLatestRing(Debounce(lastRing, times[0], timeout), times[1..], timeout);
    }
  }

  /** The first ring is more than `timeout` after the initial timestamp, and any two
      consecutive rings are more than `timeout` apart. */
  lemma {:induction false} RingSpacing(lastRing: int, times: seq<int>, timeout: int)
    ensures var r := Rings(lastRing, times, timeout);
            (|r| > 0 ==> r[0] - lastRing > timeout)
            && forall i :: 0 < i < |r| ==> r[i] - r[i - 1] > timeout
    decreases |times|
  {
    if times != [] {
      var next := Debounce(lastRing, times[0], timeout);
      RingSpacing(next, times[1..], timeout);
      var rest := Rings(next, times[1..], timeout);
      if Accepts(lastRing, times[0], timeout) {
        var r := [times[0]] + rest;
        forall i | 0 < i < |r| ensures r[i] - r[i - 1] > timeout {
          if i > 1 {
            assert r[i] == rest[i - 1] && r[i - 1] == rest[i - 2];
          }
        }
      }
    }
  }

  /** Edges that are all more than `timeout` apart (the first from the initial timestamp)
      each ring. */
  lemma {:induction false} SpacedEdgesAllRing(lastRing: int, times: seq<int>, timeout: int)
    requires |times| > 0 ==> times[0] - lastRing > timeout
    requires forall i :: 0 < i < |times| ==> times[i] - times[i - 1] > timeout
    ensures Rings(lastRing, times, timeout) == times
    decreases |times|
  {
    if times != [] {
      SpacedEdgesAllRing(times[0], times[1..], timeout);
    }
  }

  /** Appending one edge: it rings iff it is accepted against the timestamp kept so far. */
  lemma {:induction false} RingsSnoc(lastRing: int, times: seq<int>, now: int, timeout: int)
    ensures var kept := LastRing(lastRing, times, timeout);
            Rings(lastRing, times + [now], timeout)
              == Rings(lastRing, times, timeout) + (if Accepts(kept, now, timeout) then [now] else [])
            && LastRing(lastRing, times + [now], timeout) == Debounce(kept, now, timeout)
    decreases |times|
  {
    if times == [] {
      assert times + [now] == [now];
    } else {
      assert (times + [now])[0] == times[0];
      assert (times + [now])[1..] == times[1..] + [now];
      RingsSnoc(Debounce(lastRing, times[0], timeout), times[1..], now, timeout);
    }
  }

  /** With the timestamp initially 0, the first edge rings iff it comes strictly after
      `timeout`; an edge exactly `timeout` after the last ring, or before it, is rejected. */
  lemma FirstEdge(now: int, timeout: int)
    ensures Rings(0, [now], timeout) == (if now > timeout then [now] else [])
    ensures !Accepts(now - timeout, now, timeout)
    ensures timeout >= 0 ==> forall earlier :: earlier < now ==> !Accepts(now, earlier, timeout)
  {
  }

  /** A burst whose edges are each within `timeout` of the previous one can still ring more
      than once, because spacing is measured from the last ring: with a 5 s timeout,
      edges at 6, 10 and 14 s ring at 6 and 14 s. */
  lemma BurstCanRingTwice()
    ensures Rings(0, [6, 10, 14], 5) == [6, 14]
  {
    assert [6, 10, 14][1..] == [10, 14];
    assert [10, 14][1..] == [14];
  }

  /** Two edges after a quiet period, with a 5 s timeout: 3 s apart they ring once,
      6 s apart they ring twice. */
  lemma TwoEdges(lastRing: int, t0: int)
    requires t0 - lastRing > 5
    ensures Rings(lastRing, [t0, t0 + 3], 5) == [t0]
    ensures Rings(lastRing, [t0, t0 + 6], 5) == [t0, t0 + 6]
  {
    assert [t0, t0 + 3][1..] == [t0 + 3];
    assert [t0, t0 + 6][1..] == [t0 + 6];
  }

  /** Straight after boot, with the clock and the timestamp both at 0 and a 5 s timeout:
      an edge at 0 s is suppressed, so edges at 0 and 3 s ring not at all and
      edges at 0 and 6 s ring once, at 6 s. */
  lemma EdgesFromBoot()
    ensures Rings(0, [0, 3], 5) == []
    ensures Rings(0, [0, 6], 5) == [6]
  {
    assert [0, 3][1..] == [3];
    assert [0, 6][1..] == [6];
  }
}
