/** The Wi-Fi station bring-up retry machine: the handler that reacts to station-start,
    station-disconnected and got-IP events, and the classification of the event-group
    bits once the start-up thread stops waiting. */
module Wifi {
  import opened Numbers

  /** The events the handler distinguishes; every other Wi-Fi event id is ignored. */
  datatype Event = StaStart | StaDisconnected | GotIp | OtherEvent

  /** The retry counter and the two latched event-group bits. */
  datatype State = State(retryNum: int, connected: bool, failed: bool)

  /** The state after one event, and whether the handler asked the driver to connect. */
  datatype Reaction = Reaction(next: State, connect: bool)

  datatype Outcome = Connected | Failed | Unexpected

  const Initial: State := State(0, false, false)

  /** The largest value the counter can reach: with a negative limit no retry is ever made. */
  function Ceiling(maxRetry: int): nat { if maxRetry < 0 then 0 else maxRetry }

  predicate InRange(s: State, maxRetry: int) { 0 <= s.retryNum <= Ceiling(maxRetry) }

  /** One call of the handler. */
  function Step(s: State, e: Event, maxRetry: int): (r: Reaction)
    // a connect request is issued on start, and on a disconnect only below the ceiling
    ensures r.connect <==> e == StaStart || (e == StaDisconnected && s.retryNum < maxRetry)
    // the bits are latched: set, never cleared
    ensures s.connected ==> r.next.connected
    ensures s.failed ==> r.next.failed
    ensures r.next.connected != s.connected ==> e == GotIp
    ensures r.next.failed != s.failed ==> e == StaDisconnected && !r.connect
    ensures e == StaDisconnected && !r.connect ==> r.next.failed
    // the counter counts retries and is reset by an address
    ensures e == GotIp ==> r.next.retryNum == 0 && r.next.connected
    ensures e != GotIp ==> r.next.retryNum == s.retryNum + (if r.connect && e == StaDisconnected then 1 else 0)
    ensures InRange(s, maxRetry) ==> InRange(r.next, maxRetry)
  {
    match e
    case StaStart => Reaction(s, true)
    case StaDisconnected =>
      if s.retryNum < maxRetry then Reaction(s.(retryNum := s.retryNum + 1), true)
      else Reaction(s.(failed := true), false)
    case GotIp => Reaction(s.(retryNum := 0, connected := true), false)
    case OtherEvent => Reaction(s, false)
  }

  /** The state after a sequence of events. */
  function Run(s: State, es: seq<Event>, maxRetry: int): State
    decreases |es|
  {
    if es == [] then s else Run(Step(s, es[0], maxRetry).next, es[1..], maxRetry)
  }

  /** The number of connect requests issued over a sequence of events. */
  function Connects(s: State, es: seq<Event>, maxRetry: int): nat
    decreases |es|
  {
    if es == [] then 0
    else
      var r := Step(s, es[0], maxRetry);
      (if r.connect then 1 else 0) + Connects(r.next, es[1..], maxRetry)
  }

  /** What the start-up thread concludes from the bits: CONNECTED is tested first. */
  function Classify(s: State): (o: Outcome)
    ensures o == Connected <==> s.connected
    ensures o == Failed <==> !s.connected && s.failed
    // Unexpected is reported exactly when the wait would not yet have been released
    ensures o == Unexpected <==> !(s.connected || s.failed)
  {
    if s.connected then Connected
    else if s.failed then Failed
    else Unexpected
  }

  function Disconnects(k: nat): (es: seq<Event>)
    ensures |es| == k
    ensures forall i :: 0 <= i < k ==> es[i] == StaDisconnected
  {
    seq(k, _ => StaDisconnected)
  }

  lemma {:induction false} RunAppend(s: State, a: seq<Event>, b: seq<Event>, maxRetry: int)
    ensures Run(s, a + b, maxRetry) == Run(Run(s, a, maxRetry), b, maxRetry)
    ensures Connects(s, a + b, maxRetry) == Connects(s, a, maxRetry) + Connects(Run(s, a, maxRetry), b, maxRetry)
    decreases |a|
  {
    if a == [] {
      assert a + b == b;
    } else {
      assert (a + b)[0] == a[0];
      assert (a + b)[1..] == a[1..] + b;
      RunAppend(Step(s, a[0], maxRetry).next, a[1..], b, maxRetry);
    }
  }

  /** Starting inside the range, no sequence of events takes the counter outside 0..Ceiling. */
  lemma {:induction false} RetryCeiling(s: State, es: seq<Event>, maxRetry: int)
    requires InRange(s, maxRetry)
    ensures InRange(Run(s, es, maxRetry), maxRetry)
    decreases |es|
  {
    if es != [] {
      RetryCeiling(Step(s, es[0], maxRetry).next, es[1..], maxRetry);
    }
  }

  /** Over any sequence of events a set bit stays set. */
  lemma {:induction false} BitsLatched(s: State, es: seq<Event>, maxRetry: int)
    ensures s.connected ==> Run(s, es, maxRetry).connected
    ensures s.failed ==> Run(s, es, maxRetry).failed
    decreases |es|
  {
    if es != [] {
      BitsLatched(Step(s, es[0], maxRetry).next, es[1..], maxRetry);
    }
  }

  /** An address acquired anywhere in the sequence makes the outcome Connected,
      whatever else happened before or after it. */
  lemma {:induction false} GotIpConnects(s: State, es: seq<Event>, maxRetry: int)
    requires GotIp in es
    ensures Run(s, es, maxRetry).connected
    ensures Classify(Run(s, es, maxRetry)) == Connected
    decreases |es|
  {
    var next := Step(s, es[0], maxRetry).next;
    if es[0] == GotIp {
      BitsLatched(next, es[1..], maxRetry);
    } else {
      GotIpConnects(next, es[1..], maxRetry);
    }
  }

  /** k disconnections in a row: each one below the ceiling retries, the first one at the
      ceiling sets FAIL, and CONNECTED is left as it was. */
  lemma {:induction false} DisconnectRun(s: State, k: nat, maxRetry: int)
    requires InRange(s, maxRetry)
    ensures var left := Ceiling(maxRetry) - s.retryNum;
            var t := Run(s, Disconnects(k), maxRetry);
            Connects(s, Disconnects(k), maxRetry) == Min(k, left)
            && t.retryNum == s.retryNum + Min(k, left)
            && (t.failed <==> s.failed || k > left)
            && t.connected == s.connected
    decreases k
  {
    if k > 0 {
      var es := Disconnects(k);
      assert es[1..] == Disconnects(k - 1);
      DisconnectRun(Step(s, StaDisconnected, maxRetry).next, k - 1, maxRetry);
    }
  }

  /** Station start followed by k disconnections: 1 + min(k, MAXIMUM_RETRY) connect requests,
      FAIL set exactly when k exceeds the ceiling, so first on the (MAXIMUM_RETRY+1)-th disconnect. */
  lemma AttemptCount(maxRetry: int, k: nat)
    ensures var es := [StaStart] + Disconnects(k);
            var t := Run(Initial, es, maxRetry);
            Connects(Initial, es, maxRetry) == 1 + Min(k, Ceiling(maxRetry))
            && t.retryNum == Min(k, Ceiling(maxRetry))
            && (t.failed <==> k > Ceiling(maxRetry))
            && Classify(t) == (if k > Ceiling(maxRetry) then Failed else Unexpected)
  {
    var es := [StaStart] + Disconnects(k);
    assert es[0] == StaStart;
    assert es[1..] == Disconnects(k);
    DisconnectRun(Initial, k, maxRetry);
  }

  /** Start, k <= MAXIMUM_RETRY failed attempts, then an address: k + 1 connect requests,
      outcome Connected with the counter back at 0 and FAIL never set. */
  lemma RecoverAfterRetries(maxRetry: int, k: nat)
    requires k <= Ceiling(maxRetry)
    ensures var es := [StaStart] + Disconnects(k) + [GotIp];
            var t := Run(Initial, es, maxRetry);
            Connects(Initial, es, maxRetry) == k + 1
            && t.retryNum == 0 && !t.failed
            && Classify(t) == Connected
  {
    var pre := [StaStart] + Disconnects(k);
    AttemptCount(maxRetry, k);
    RunAppend(Initial, pre, [GotIp], maxRetry);
    assert [GotIp][1..] == [];
  }
}
