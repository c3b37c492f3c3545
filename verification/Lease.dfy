/**
 How long a received message stays hidden. A receive hides it for `timeout` seconds; while
 the handler runs, a heartbeat renews that every third of the timeout, but not more often
 than once a second. A beat may be lost, and may take effect late.
 */
module Lease {
  /** Fate of the beats of one handler run; beat `k` is sent `k` intervals after the receive. */
  datatype Beats = Beats(lost: nat -> bool, delay: nat -> real)

  /** How bad the network may be: beats lost in a row, and seconds a beat may be late, the handler's own late start included. */
  datatype Network = Network(losses: nat, latency: real)

  function Interval(timeout: real): (seconds: real)
    requires timeout > 0.0
    ensures seconds >= 1.0 && seconds >= timeout / 3.0
    ensures seconds == 1.0 || seconds == timeout / 3.0
  {
    if timeout / 3.0 > 1.0 then timeout / 3.0 else 1.0
  }

  /** `k` intervals of `h` seconds. */
  function Spans(k: nat, h: real): real {
    if k == 0 then 0.0 else Spans(k - 1, h) + h
  }

  lemma {:induction false} SpansIs(k: nat, h: real)
    ensures Spans(k, h) == k as real * h
  {
    if k > 0 {
      SpansIs(k - 1, h);
      assert k as real * h == (k - 1) as real * h + h;
    }
  }

  /** When beat `k` renews the lease; beat 0 is the receive itself. */
  function Effect(timeout: real, beats: Beats, k: nat): real
    requires timeout > 0.0
  {
    if k == 0 then 0.0 else Spans(k, Interval(timeout)) + beats.delay(k)
  }

  predicate Renews(beats: Beats, k: nat) {
    k == 0 || !beats.lost(k)
  }

  /** A renewal counts after the instant it happens, and until `timeout` later. */
  predicate Covers(timeout: real, beats: Beats, k: nat, t: real)
    requires timeout > 0.0
  {
    Renews(beats, k) &&
    (if k == 0 then 0.0 <= t else Effect(timeout, beats, k) < t) &&
    t < Effect(timeout, beats, k) + timeout
  }

  ghost predicate HiddenAt(timeout: real, beats: Beats, t: real)
    requires timeout > 0.0
  {
    exists k: nat :: Covers(timeout, beats, k, t)
  }

  /** Some beat among the `losses + 1` beats from `k` on is not lost. */
  ghost predicate RenewedWithin(beats: Beats, k: nat, losses: nat) {
    exists i: nat :: k <= i <= k + losses && !beats.lost(i)
  }

  ghost predicate Possible(network: Network, beats: Beats) {
    && (forall k: nat :: 0.0 <= beats.delay(k) <= network.latency)
    && (forall k: nat :: RenewedWithin(beats, k, network.losses))
  }

  /** No other worker can receive the message while the handler runs, however long it runs. */
  ghost predicate Exclusive(timeout: real, network: Network)
    requires timeout > 0.0
  {
    forall beats, t: real | Possible(network, beats) && t >= 0.0 :: HiddenAt(timeout, beats, t)
  }

  /** The longest time between two renewals. */
  function Gap(timeout: real, network: Network): real
    requires timeout > 0.0
  {
    Spans(network.losses + 1, Interval(timeout)) + network.latency
  }

  /** The last of the instants `x + h`, `x + 2 * h`, ... before `t`. */
  function LastBefore(h: real, x: real, t: real): (k: nat)
    requires h >= 1.0
    ensures k > 0 ==> Spans(k, h) + x < t
    ensures t <= Spans(k + 1, h) + x
    decreases if t > x then (t - x).Floor else 0
  {
    if t <= h + x then 0 else LastBefore(h, x, t - h) + 1
  }

  lemma {:induction false} SpansGrow(j: nat, k: nat, h: real)
    requires j <= k && h >= 0.0
    ensures Spans(j, h) <= Spans(k, h)
    decreases k
  {
    if j < k { SpansGrow(j, k - 1, h); }
  }

  lemma {:induction false} SpansAdd(j: nat, k: nat, h: real)
    ensures Spans(j + k, h) == Spans(j, h) + Spans(k, h)
    decreases k
  {
    if k > 0 { SpansAdd(j, k - 1, h); }
  }

  lemma LastRenewal(beats: Beats, losses: nat, k: nat) returns (j: nat)
    requires forall i: nat :: RenewedWithin(beats, i, losses)
    ensures Renews(beats, j) && j <= k <= j + losses
  {
    if k <= losses {
      j := 0;
    } else {
      assert RenewedWithin(beats, k - losses, losses);
      j :| k - losses <= j <= k && !beats.lost(j);
    }
  }

  /** A renewal up to `losses` beats before the last sure one still covers `t`. */
  lemma NotTooLate(t: real, h: real, k: nat, j: nat, losses: nat, slack: real, timeout: real)
    requires h >= 0.0 && k <= j + losses
    requires t <= Spans(k + 1, h) + slack && Spans(losses + 1, h) + slack < timeout
    ensures t < Spans(j, h) + timeout
  {
    SpansGrow(k + 1, j + (losses + 1), h);
    SpansAdd(j, losses + 1, h);
  }

  lemma HiddenThroughout(timeout: real, network: Network, beats: Beats, t: real)
    requires timeout > 0.0 && network.latency >= 0.0
    requires Gap(timeout, network) < timeout && Possible(network, beats) && t >= 0.0
    ensures HiddenAt(timeout, beats, t)
  {
    var h := Interval(timeout);
    var k := LastBefore(h, network.latency, t);
    var j := LastRenewal(beats, network.losses, k);
    NotTooLate(t, h, k, j, network.losses, network.latency, timeout);
    if j > 0 {
      assert 0.0 <= beats.delay(j) <= network.latency;
      SpansGrow(j, k, h);
    }
    assert Covers(timeout, beats, j, t);
  }

  /** A beat that is not lost, was sent before `end`, counts at `t` and still covers it. */
  lemma UsefulBeat(
    h: real, timeout: real, network: Network, beats: Beats, start: real, end: real, closing: real, t: real)
    returns (j: nat)
    requires h >= 1.0 && closing >= 0.0 && Spans(network.losses + 1, h) + network.latency + closing < timeout
    requires start <= network.latency && t <= end + closing && forall i: nat :: RenewedWithin(beats, i, network.losses)
    ensures Renews(beats, j) && t < Spans(j, h) + timeout
    ensures j > 0 ==> Spans(j, h) + start < end && Spans(j, h) + network.latency < t
  {
    var sure, sent := LastBefore(h, network.latency, t), LastBefore(h, start, end);
    var k := if sure <= sent then sure else sent;
    j := LastRenewal(beats, network.losses, k);
    NotTooLate(t, h, k, j, network.losses, network.latency + closing, timeout);
    SpansGrow(j, sure, h);
    SpansGrow(j, sent, h);
  }

  /**
   After the handler has ended, `end` seconds after the receive, no more beats are sent; the first
   goes out one interval after `start`. Those that were sent still cover the closing call.
   */
  lemma HiddenWhileClosing(
    timeout: real, network: Network, beats: Beats, start: real, end: real, closing: real, t: real)
    requires timeout > 0.0 && closing >= 0.0 && Gap(timeout, network) + closing < timeout
    requires start <= network.latency && t <= end + closing && Possible(network, beats)
    ensures t < timeout ||
            exists k: nat :: k > 0 && Spans(k, Interval(timeout)) + start < end && Covers(timeout, beats, k, t)
  {
    var j := UsefulBeat(Interval(timeout), timeout, network, beats, start, end, closing, t);
    if j > 0 {
      assert 0.0 <= beats.delay(j) <= network.latency;
      assert Covers(timeout, beats, j, t);
    }
  }

  /** Every `n`-th beat. */
  predicate Turn(k: nat, n: nat)
    requires n > 0
  {
    k == 0 || (k >= n && Turn(k - n, n))
  }

  /** The worst network: every renewal but one in `losses + 1` is lost, and that one is late. */
  function Worst(network: Network): Beats {
    Beats((k: nat) => !Turn(k, network.losses + 1), (k: nat) => network.latency)
  }

  lemma {:induction false} TurnComes(k: nat, n: nat) returns (i: nat)
    requires n > 0
    ensures k <= i < k + n && Turn(i, n)
  {
    if k == 0 {
      i := 0;
    } else if k < n {
      i := n;
    } else {
      i := TurnComes(k - n, n);
      i := i + n;
    }
  }

  lemma WorstIsPossible(network: Network)
    requires network.latency >= 0.0
    ensures Possible(network, Worst(network))
  {
    forall k: nat
      ensures RenewedWithin(Worst(network), k, network.losses)
    {
      var i := TurnComes(k, network.losses + 1);
      assert !Worst(network).lost(i);
    }
  }

  /** Under the worst network the lease of the receive runs out before the first renewal counts. */
  lemma WorstLapses(timeout: real, network: Network)
    requires timeout > 0.0 && network.latency >= 0.0
    requires Gap(timeout, network) >= timeout
    ensures !HiddenAt(timeout, Worst(network), timeout)
  {
    var beats, h, n := Worst(network), Interval(timeout), network.losses + 1;
    forall k: nat ensures !Covers(timeout, beats, k, timeout) {
      if k > 0 && Renews(beats, k) {
        assert k >= n;
        SpansGrow(n, k, h);
        assert Effect(timeout, beats, k) >= Gap(timeout, network);
      }
    }
  }

  /** A lease is exclusive exactly when it outlasts the longest gap between two renewals. */
  lemma ExclusiveIff(timeout: real, network: Network)
    requires timeout > 0.0 && network.latency >= 0.0
    ensures Exclusive(timeout, network) <==> Gap(timeout, network) < timeout
  {
    if Gap(timeout, network) < timeout {
      forall beats, t: real | Possible(network, beats) && t >= 0.0
        ensures HiddenAt(timeout, beats, t)
      {
        HiddenThroughout(timeout, network, beats, t);
      }
    } else {
      WorstIsPossible(network);
      WorstLapses(timeout, network);
    }
  }

  /**
   With prompt renewals: none may be lost at timeouts over one second, one in a row may be
   lost at timeouts over two seconds, two in a row are too many at any timeout.
   */
  lemma PromptRenewals(timeout: real, losses: nat)
    requires timeout > 0.0
    ensures Exclusive(timeout, Network(losses, 0.0)) <==>
            (losses == 0 && timeout > 1.0) || (losses == 1 && timeout > 2.0)
  {
    ExclusiveIff(timeout, Network(losses, 0.0));
    var h := Interval(timeout);
    assert Spans(1, h) == h && Spans(2, h) == h + h && Spans(3, h) == Spans(2, h) + h;
    if losses >= 2 {
      SpansGrow(3, losses + 1, h);
    }
  }
}
