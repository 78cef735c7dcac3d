/** The round-trip estimator: trsf/congestion/rtt.go. Durations and times are integers in
    nanoseconds; time 0 is the unset time. */
module Rtts {
  import opened Common

  const MILLISECOND: int := 1_000_000
  const NO_MIN_RTT: int := 0x7fff_ffff_ffff_ffff

  datatype Rtt = Rtt(firstAcked: int, srtt: int, rttvar: int, minRTT: int, latestRTT: int)

  /** The program's integer division, which truncates toward zero. */
  function Quotient(a: int, b: int): int
    requires b > 0
  {
    if a >= 0 then a / b else -(-a / b)
  }

  function Abs(a: int): int { if a < 0 then -a else a }

  function New(initial: int): Rtt { Rtt(0, initial, Quotient(initial, 2), NO_MIN_RTT, 0) }

  /** The delay before a probe timeout, doubled in part by every earlier one. */
  function Pto(r: Rtt, exponent: nat): int {
    r.srtt + Max(4 * r.rttvar, 1) + 25 * MILLISECOND * Pow2(exponent)
  }

  function Adjusted(r: Rtt, measured: int, ackDelay: int): int {
    if measured - r.minRTT >= ackDelay then measured - ackDelay else measured
  }

  function Updated(r: Rtt, measured: int, ackDelay: int, now: int): Rtt {
    var s := r.(minRTT := if measured > 0 && r.minRTT > measured then measured else r.minRTT, latestRTT := measured);
    if r.firstAcked == 0 then s.(srtt := measured, rttvar := Quotient(measured, 2), firstAcked := now)
    else
      var adjusted := Adjusted(s, measured, ackDelay);
      s.(rttvar := Quotient(3 * r.rttvar + Abs(r.srtt - adjusted), 4), srtt := Quotient(7 * r.srtt + adjusted, 8))
  }

  class RTTStats {
    var firstAcked: int
    var srtt: int
    var rttvar: int
    var minRTT: int
    var latestRTT: int

    ghost function View(): Rtt
      reads this
    {
      Rtt(firstAcked, srtt, rttvar, minRTT, latestRTT)
    }

    constructor (initial: int)
      ensures View() == New(initial)
    {
      firstAcked, srtt, rttvar, minRTT, latestRTT := 0, initial, Quotient(initial, 2), NO_MIN_RTT, 0;
    }

    method PTO(exponent: nat) returns (d: int)
      ensures d == Pto(View(), exponent)
    {
      d := srtt + Max(4 * rttvar, 1) + 25 * MILLISECOND * Pow2(exponent);
    }

    method UpdateRTT(measured: int, ackDelay: int, now: int)
      modifies this
      ensures View() == Updated(old(View()), measured, ackDelay, now)
    {
      if measured > 0 && minRTT > measured {
        minRTT := measured;
      }
      latestRTT := measured;
      if firstAcked == 0 {
        srtt := measured;
        rttvar := Quotient(measured, 2);
        firstAcked := now;
      } else {
        var adjusted := measured;
        if measured - minRTT >= ackDelay {
          adjusted := measured - ackDelay;
        }
        rttvar := Quotient(3 * rttvar + Abs(srtt - adjusted), 4);
        srtt := Quotient(7 * srtt + adjusted, 8);
      }
    }
  }

  // ---------------------------------------------------------------- whole runs

  datatype Sample = Sample(measured: int, ackDelay: int, now: int)

  function Fold(r: Rtt, samples: seq<Sample>): Rtt {
    if samples == [] then r
    else
      var last := samples[|samples| - 1];
      Updated(Fold(r, samples[..|samples| - 1]), last.measured, last.ackDelay, last.now)
  }

  /** What a clock that resolves every round trip delivers. */
  ghost predicate Resolved(samples: seq<Sample>) {
    forall s <- samples :: 0 < s.measured <= NO_MIN_RTT && s.ackDelay >= 0 && s.now != 0
  }

  ghost predicate Bounds(samples: seq<Sample>, low: int, high: int) {
    && (forall s <- samples :: low <= s.measured <= high)
    && (exists s <- samples :: s.measured == low)
  }

  /** MinRTT is the least raw sample, and the smoothed RTT lies between it and every upper bound of
      the samples, whatever delays the peer claims. */
  lemma {:induction false} SmoothedStaysBetweenSamples(initial: int, samples: seq<Sample>, high: int)
    requires samples != [] && Resolved(samples) && (forall s <- samples :: s.measured <= high)
    ensures var r := Fold(New(initial), samples);
            && Bounds(samples, r.minRTT, high)
            && r.minRTT <= r.srtt <= high && 0 <= r.rttvar <= high && r.firstAcked != 0
            && r.latestRTT == samples[|samples| - 1].measured
  {
    var before, last := samples[..|samples| - 1], samples[|samples| - 1];
    assert samples == before + [last];
    assert last in samples && forall s <- before :: s in samples;
    if before == [] {
      FirstStaysBetween(initial, last, high);
    } else {
      SmoothedStaysBetweenSamples(initial, before, high);
      NextStaysBetween(Fold(New(initial), before), before, last, high);
    }
  }

  ghost predicate Between(r: Rtt, samples: seq<Sample>, high: int) {
    && Bounds(samples, r.minRTT, high)
    && r.minRTT <= r.srtt <= high && 0 <= r.rttvar <= high && r.firstAcked != 0
  }

  lemma FirstStaysBetween(initial: int, s: Sample, high: int)
    requires 0 < s.measured <= NO_MIN_RTT && s.measured <= high && s.now != 0
    ensures Between(Updated(New(initial), s.measured, s.ackDelay, s.now), [s], high)
  {
    assert s in [s];
  }

  lemma NextStaysBetween(p: Rtt, before: seq<Sample>, last: Sample, high: int)
    requires Between(p, before, high) && Resolved(before) && 0 < last.measured <= high && last.ackDelay >= 0
    ensures Between(Updated(p, last.measured, last.ackDelay, last.now), before + [last], high)
  {
    StepStaysBetween(p, last, high);
    BoundsGrow(before, last, p.minRTT, high);
  }

  lemma BoundsGrow(before: seq<Sample>, last: Sample, low: int, high: int)
    requires Bounds(before, low, high) && last.measured <= high
    ensures Bounds(before + [last], Min(low, last.measured), high)
  {
    var s :| s in before && s.measured == low;
    var samples := before + [last];
    assert s in samples && last in samples;
    assert forall t <- samples :: t in before || t == last;
  }

  /** One sample: the guard keeps the adjusted sample at or above the minimum, and an average of
      two values in a range, rounded down, stays in the range. */
  lemma StepStaysBetween(p: Rtt, s: Sample, high: int)
    requires p.firstAcked != 0 && 0 < p.minRTT <= p.srtt <= high && 0 <= p.rttvar <= high
    requires 0 < s.measured <= high && s.ackDelay >= 0
    ensures var r := Updated(p, s.measured, s.ackDelay, s.now);
            && r.minRTT == Min(p.minRTT, s.measured) && r.minRTT <= r.srtt <= high
            && 0 <= r.rttvar <= high && r.firstAcked != 0 && r.latestRTT == s.measured
  {
  }

  /** The probe timeout is bounded by the worst round trip and the backoff. */
  lemma TimeoutIsBounded(initial: int, samples: seq<Sample>, high: int, exponent: nat)
    requires samples != [] && Resolved(samples) && (forall s <- samples :: s.measured <= high)
    ensures var r := Fold(New(initial), samples);
            && 25 * MILLISECOND * Pow2(exponent) + r.minRTT < Pto(r, exponent)
            && Pto(r, exponent) <= 5 * high + 25 * MILLISECOND * Pow2(exponent)
  {
    SmoothedStaysBetweenSamples(initial, samples, high);
    var last := samples[|samples| - 1];
    assert last in samples;
  }

  /** With a clock too coarse for the path the lower bound fails: two samples of 1 ns and 0 leave
      a smoothed RTT of 0 under a minimum of 1. */
  lemma UnresolvedSampleBreaksTheFloor()
    ensures var r := Fold(New(333 * MILLISECOND), [Sample(1, 0, 1), Sample(0, 0, 2)]);
            r.minRTT == 1 && r.srtt == 0
  {
    var a := [Sample(1, 0, 1)];
    assert [Sample(1, 0, 1), Sample(0, 0, 2)][..1] == a;
    assert a[..0] == [];
    assert Fold(New(333 * MILLISECOND), a) == Updated(New(333 * MILLISECOND), 1, 0, 1);
  }

  // ---------------------------------------------------------------- how fast it follows

  function Power(base: nat, n: nat): nat { if n == 0 then 1 else base * Power(base, n - 1) }

  /** The difference e is what 7^n / 8^n leaves of d, up to the rounding of n divisions. */
  ghost predicate Decayed(a: nat, b: nat, n: nat, d: int, e: int) {
    Power(a, n) * d - a * Power(b, n) <= Power(b, n) * e <= Power(a, n) * d
  }

  lemma Monotone(k: int, x: int, y: int)
    requires k >= 0 && x <= y
    ensures k * x <= k * y
  {
  }

  lemma Swap(x: int, y: int, z: int)
    ensures (x * y) * z == y * (x * z)
  {
  }

  lemma DecaysOnce(a: nat, b: nat, n: nat, d: int, e: int, f: int)
    requires b == a + 1 && Decayed(a, b, n, d, e) && a * e - a <= b * f <= a * e
    ensures Decayed(a, b, n + 1, d, f)
  {
    var p, q := Power(a, n), Power(b, n);
    Swap(b, q, f);
    Swap(a, p, d);
    Swap(a, q, e);
    Swap(q, a, e);
    Swap(a, p, d);
    DecaysBy(a, p, q, p * d, q * e, q * (b * f), a * e, b * f);
  }

  /** The same with the products named: pd is p * d, qe is q * e and qbf is q * b * f. */
  lemma DecaysBy(a: nat, p: nat, q: nat, pd: int, qe: int, qbf: int, ae: int, bf: int)
    requires pd - a * q <= qe <= pd && ae - a <= bf <= ae && qbf == q * bf && q * ae == a * qe
    ensures a * pd - a * ((a + 1) * q) <= qbf <= a * pd
  {
    Monotone(q, bf, ae);
    Monotone(a, qe, pd);
    DecaysNoFaster(a, q, pd, qe, qbf, ae, bf);
  }

  lemma DecaysNoFaster(a: nat, q: nat, pd: int, qe: int, qbf: int, ae: int, bf: int)
    requires pd - a * q <= qe && ae - a <= bf && qbf == q * bf && q * ae == a * qe
    ensures a * pd - a * ((a + 1) * q) <= qbf
  {
    Monotone(q, ae - a, bf);
    Monotone(a, pd - a * q, qe);
    Distributes(q, ae, a);
    Distributes(a, pd, a * q);
    assert (a + 1) * q == a * q + q;
    Distributes(a, (a + 1) * q, q);
  }

  lemma Distributes(k: int, x: int, y: int)
    ensures k * (x - y) == k * x - k * y
  {
  }

  /** Samples of which the path itself takes the time a, whatever delay the peer adds. */
  ghost predicate Steady(samples: seq<Sample>, a: int) {
    forall s <- samples :: s.ackDelay >= 0 && s.measured - s.ackDelay == a
  }

  lemma SteadyStep(r: Rtt, s: Sample, a: int)
    requires r.firstAcked != 0 && 0 < r.minRTT <= a && r.srtt >= 0 && r.rttvar >= 0
    requires s.ackDelay >= 0 && s.measured - s.ackDelay == a
    ensures var u := Updated(r, s.measured, s.ackDelay, s.now);
            && u.firstAcked != 0 && 0 < u.minRTT <= a && u.srtt >= 0 && u.rttvar >= 0
            && 7 * (r.srtt - a) - 7 <= 8 * (u.srtt - a) <= 7 * (r.srtt - a)
            && (r.srtt == a ==> u.srtt == a && 3 * r.rttvar - 3 <= 4 * u.rttvar <= 3 * r.rttvar)
  {
  }

  /** Every sample takes an eighth off the distance of the smoothed round trip from the true one, with
      the delays of the peer left out: after n samples of a path that takes the time a, the distance is
      7^n / 8^n of what it was, and less than 7 ns of rounding. */
  lemma {:induction false} SmoothedFollows(r: Rtt, samples: seq<Sample>, a: int)
    requires r.firstAcked != 0 && 0 < r.minRTT <= a && r.srtt >= 0 && r.rttvar >= 0 && Steady(samples, a)
    ensures var u := Fold(r, samples);
            && u.firstAcked != 0 && 0 < u.minRTT <= a && u.srtt >= 0 && u.rttvar >= 0
            && Decayed(7, 8, |samples|, r.srtt - a, u.srtt - a)
    decreases |samples|
  {
    if samples != [] {
      var before, last := samples[..|samples| - 1], samples[|samples| - 1];
      assert last in samples && forall s <- before :: s in samples;
      SmoothedFollows(r, before, a);
      var u := Fold(r, before);
      SteadyStep(u, last, a);
      DecaysOnce(7, 8, |before|, r.srtt - a, u.srtt - a, Fold(r, samples).srtt - a);
    }
  }

  /** On a settled path every sample takes a quarter off the variation. */
  lemma {:induction false} VariationSettles(r: Rtt, samples: seq<Sample>, a: int)
    requires r.firstAcked != 0 && 0 < r.minRTT <= a && r.srtt == a && r.rttvar >= 0 && Steady(samples, a)
    ensures var u := Fold(r, samples);
            && u.firstAcked != 0 && 0 < u.minRTT <= a && u.srtt == a && u.rttvar >= 0
            && Decayed(3, 4, |samples|, r.rttvar, u.rttvar)
    decreases |samples|
  {
    if samples != [] {
      var before, last := samples[..|samples| - 1], samples[|samples| - 1];
      assert last in samples && forall s <- before :: s in samples;
      VariationSettles(r, before, a);
      var u := Fold(r, before);
      SteadyStep(u, last, a);
      DecaysOnce(3, 4, |before|, r.rttvar, u.rttvar, Fold(r, samples).rttvar);
    }
  }

  /** A packet that takes as long as the one before it is never probed for: after every sample the
      probe timeout exceeds it, less the delay that the peer claims. */
  lemma TimeoutExceedsSample(initial: int, samples: seq<Sample>, exponent: nat)
    requires samples != [] && Resolved(samples)
    ensures var last := samples[|samples| - 1];
            Pto(Fold(New(initial), samples), exponent) > last.measured - last.ackDelay
  {
    var before, last := samples[..|samples| - 1], samples[|samples| - 1];
    assert samples == before + [last];
    assert last in samples && forall s <- before :: s in samples;
    var p := Fold(New(initial), before);
    if before == [] {
      FirstIsCovered(initial, last);
    } else {
      SmoothedStaysBetweenSamples(initial, before, NO_MIN_RTT);
      SampleIsCovered(p, last);
    }
    PtoExceeds(Updated(p, last.measured, last.ackDelay, last.now), last, exponent);
  }

  lemma PtoExceeds(u: Rtt, s: Sample, exponent: nat)
    requires u.srtt + 4 * u.rttvar >= s.measured - s.ackDelay - 4
    ensures Pto(u, exponent) > s.measured - s.ackDelay
  {
    Pow2IsPositive(exponent);
  }

  lemma FirstIsCovered(initial: int, s: Sample)
    requires 0 < s.measured && s.ackDelay >= 0
    ensures var u := Updated(New(initial), s.measured, s.ackDelay, s.now);
            u.srtt + 4 * u.rttvar >= s.measured - s.ackDelay - 4
  {
  }

  lemma SampleIsCovered(p: Rtt, s: Sample)
    requires p.firstAcked != 0 && 0 < p.srtt && 0 <= p.rttvar && 0 < s.measured && s.ackDelay >= 0
    ensures var u := Updated(p, s.measured, s.ackDelay, s.now);
            u.srtt + 4 * u.rttvar >= s.measured - s.ackDelay - 4
  {
  }

  lemma {:induction false} Pow2IsPositive(n: nat)
    ensures Pow2(n) >= 1
  {
    if n > 0 {
      Pow2IsPositive(n - 1);
    }
  }
}
