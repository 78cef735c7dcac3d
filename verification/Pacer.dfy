/** The pacer: trsf/congestion/pacer.go, over unsigned 64-bit arithmetic. Times are nanoseconds and 0
    is the unset time; the datagram size and the adjusted bandwidth, which the program reads through
    callbacks, are parameters. */
module Pacers {
  import opened Common

  const MAX_U64: int := 0xffff_ffff_ffff_ffff
  const SECOND: int := 1_000_000_000
  const MILLISECOND: int := 1_000_000
  const MAX_BURST_SCALE: int := 10

  function U64(x: int): int { x % 0x1_0000_0000_0000_0000 }

  /** An unsigned word read as a signed one. */
  function Signed(x: int): int { if x < 0x8000_0000_0000_0000 then x else x - 0x1_0000_0000_0000_0000 }

  datatype Pace = Pace(budget: int, mtu: int, lastSent: int)

  /** The datagram sizes, up to 1.8 GB, of which a burst sent for a second fits a word. */
  predicate Sane(p: Pace) { 0 <= p.budget <= MAX_U64 && 0 < p.mtu && MAX_BURST_SCALE * p.mtu * SECOND <= MAX_U64 }

  function LeastBurst(p: Pace): int { U64(MAX_BURST_SCALE * p.mtu) }

  function Scaled(p: Pace, bw: int, ns: int): int {
    if bw <= 0 then 0
    else if ns > MAX_U64 / bw then LeastBurst(p)
    else U64(bw * ns) / SECOND
  }

  function MaxBurst(p: Pace, bw: int): int { Max(LeastBurst(p), Scaled(p, bw, 2 * MILLISECOND)) }

  /** How many bytes may leave now. */
  function Budget(p: Pace, bw: int, now: int): int {
    if p.lastSent == 0 then MaxBurst(p, bw)
    else
      Capped(p.budget, if now > p.lastSent then Scaled(p, bw, now - p.lastSent) else 0, MaxBurst(p, bw))
  }

  /** A sum in a word, or the whole burst when it does not fit one. */
  function Capped(budget: int, added: int, burst: int): int {
    if added > 0 && U64(budget + added) < budget then burst else Min(U64(budget + added), burst)
  }

  /** How long the missing bytes take to accumulate, rounded up. */
  function Wait(p: Pace, bw: int): int
    requires bw > 0
  {
    var diff := U64(U64(p.mtu - p.budget) * SECOND);
    if diff % bw != 0 then U64(diff / bw + 1) else diff / bw
  }

  /** When the next packet may leave. A bandwidth of zero is divided by, which stops the program. */
  datatype Timing = Immediately | At(time: int) | DivisionByZero

  function Timer(p: Pace, bw: int): Timing {
    if p.budget >= p.mtu then Immediately
    else if bw <= 0 then DivisionByZero
    else At(p.lastSent + Max(MILLISECOND, Signed(Wait(p, bw))))
  }

  function AfterSend(p: Pace, bw: int, now: int, size: int, mtu: int): Pace {
    var budget := Budget(p.(mtu := mtu), bw, now);
    Pace(if size > budget then 0 else budget - size, mtu, now)
  }

  function New(mtu: int, bw: int): Pace { Pace(MaxBurst(Pace(0, mtu, 0), bw), mtu, 0) }

  class Pacer {
    var budgetAtLastSent: int
    var lastMTU: int
    var lastSentTime: int

    ghost function View(): Pace
      reads this
    {
      Pace(budgetAtLastSent, lastMTU, lastSentTime)
    }

    constructor (mtu: int, bw: int)
      ensures View() == New(mtu, bw)
    {
      lastMTU, lastSentTime := mtu, 0;
      budgetAtLastSent := MaxBurst(Pace(0, mtu, 0), bw);
    }

    method SendTime(bw: int) returns (at: Timing)
      ensures at == Timer(View(), bw)
    {
      if budgetAtLastSent >= lastMTU {
        return Immediately;
      }
      var bytes := U64(lastMTU - budgetAtLastSent);
      var diff := U64(bytes * SECOND);
      if bw <= 0 {
        return DivisionByZero;
      }
      var d := diff / bw;
      if diff % bw != 0 {
        d := U64(d + 1);
      }
      at := At(lastSentTime + Max(MILLISECOND, Signed(d)));
    }

    method OnSent(bw: int, now: int, size: int, mtu: int)
      modifies this
      ensures View() == AfterSend(old(View()), bw, now, size, mtu)
    {
      lastMTU := mtu;
      var budget := Budget(Pace(budgetAtLastSent, lastMTU, lastSentTime), bw, now);
      if size > budget {
        budgetAtLastSent := 0;
      } else {
        budgetAtLastSent := budget - size;
      }
      lastSentTime := now;
    }
  }

  // ---------------------------------------------------------------- what pacing promises

  /** Rounding up a division, both directions. */
  lemma WaitIsExact(missing: int, bw: int, ns: int)
    requires missing > 0 && bw > 0
    ensures ns >= Delay(missing, bw) <==> Earned(bw, ns) >= missing
  {
    var diff := missing * SECOND;
    assert diff == bw * (diff / bw) + diff % bw;
    var d := Delay(missing, bw);
    if ns >= d {
      Scale(bw, d, ns);
      assert bw * d >= diff;
      Monotone(diff, bw * ns);
    } else if ns > 0 {
      Scale(bw, ns, d - 1);
      assert bw * (d - 1) < diff;
      assert bw * ns < diff;
    }
  }

  lemma Scale(bw: int, a: int, b: int)
    requires bw > 0
    ensures a <= b ==> bw * a <= bw * b
    ensures bw * (a + 1) == bw * a + bw
  {
  }

  lemma Guard(bw: int, ns: int)
    requires 0 < bw && 0 <= ns
    ensures ns > MAX_U64 / bw <==> bw * ns > MAX_U64
  {
    var q := MAX_U64 / bw;
    assert MAX_U64 == bw * q + MAX_U64 % bw;
    if ns > q { Scale(bw, q + 1, ns); } else { Scale(bw, ns, q); }
  }

  /** The whole bytes that a bandwidth yields in a time. */
  function Earned(bw: int, ns: int): int { if ns > 0 then bw * ns / SECOND else 0 }

  /** A word holds any amount earned that the guard lets through, and the guard never gives more
      than was earned. */
  lemma ScaledIsEarned(p: Pace, bw: int, ns: int)
    requires Sane(p) && bw > 0 && ns >= 0
    ensures 0 <= Scaled(p, bw, ns) <= MAX_U64 / 100_000_000
    ensures Min(MAX_BURST_SCALE * p.mtu, bw * ns / SECOND) <= Scaled(p, bw, ns) <= bw * ns / SECOND
  {
    Guard(bw, ns);
    var earned := bw * ns;
    Monotone(MAX_U64, earned);
    if earned <= MAX_U64 {
      assert U64(earned) == earned;
    } else {
      assert MAX_BURST_SCALE * p.mtu <= MAX_U64 / SECOND;
    }
  }

  lemma Monotone(a: int, b: int)
    ensures a <= b ==> a / SECOND <= b / SECOND
    ensures b <= a ==> b / SECOND <= a / SECOND
  {
  }

  /** The linear part of the budget. */
  lemma AddsUp(budget: int, added: int, burst: int, mtu: int, earned: int)
    requires 0 <= budget <= MAX_U64 && 0 <= added <= MAX_U64 / 100_000_000 && 0 < mtu < 0x1_0000_0000_0000
    requires Min(MAX_BURST_SCALE * mtu, earned) <= added <= earned && MAX_BURST_SCALE * mtu <= burst <= MAX_U64
    ensures Min(mtu, budget + earned) <= Capped(budget, added, burst) <= budget + earned
  {
  }

  /** What the budget is when no word overflows: the bytes left plus the bytes earned, capped; and
      the overflow guards only ever answer with a full burst, which is more than one datagram. */
  lemma BudgetEarns(p: Pace, bw: int, now: int)
    requires Sane(p) && bw > 0 && p.lastSent != 0
    ensures MaxBurst(p, bw) >= MAX_BURST_SCALE * p.mtu
    ensures Min(p.mtu, p.budget + Earned(bw, now - p.lastSent)) <= Budget(p, bw, now)
    ensures Budget(p, bw, now) <= p.budget + Earned(bw, now - p.lastSent)
  {
    BurstFits(p, bw);
    if now > p.lastSent {
      ScaledIsEarned(p, bw, now - p.lastSent);
      AddsUp(p.budget, Scaled(p, bw, now - p.lastSent), MaxBurst(p, bw), p.mtu, bw * (now - p.lastSent) / SECOND);
    } else {
      AddsUp(p.budget, 0, MaxBurst(p, bw), p.mtu, 0);
    }
  }

  lemma BurstFits(p: Pace, bw: int)
    requires Sane(p) && bw > 0
    ensures MAX_BURST_SCALE * p.mtu <= MaxBurst(p, bw) <= MAX_U64
  {
  }

  /** The timer is exact: after it a whole datagram fits the budget, and unless the 1 ms floor
      postponed it, before it none does. */
  lemma TimerIsExact(p: Pace, bw: int, now: int)
    requires Sane(p) && bw > 0 && p.lastSent != 0
    ensures Timer(p, bw) == Immediately ==> Budget(p, bw, now) >= p.mtu
    ensures Timer(p, bw).At? && now >= Timer(p, bw).time ==> Budget(p, bw, now) >= p.mtu
    ensures Timer(p, bw).At? && now < Timer(p, bw).time && Timer(p, bw).time > p.lastSent + 1_000_000
            ==> Budget(p, bw, now) < p.mtu
  {
    BudgetEarns(p, bw, now);
    EarnsNothingBack(bw, now - p.lastSent);
    if p.budget < p.mtu {
      WaitIsExact(p.mtu - p.budget, bw, now - p.lastSent);
      WaitFits(p, bw);
    }
  }

  lemma EarnsNothingBack(bw: int, ns: int)
    requires bw > 0
    ensures Earned(bw, ns) >= 0
  {
  }

  /** How long n bytes take, rounded up, in unbounded arithmetic. */
  function Delay(bytes: int, bw: int): int
    requires bw > 0
  {
    if bytes * SECOND % bw != 0 then bytes * SECOND / bw + 1 else bytes * SECOND / bw
  }

  lemma MissingFits(p: Pace)
    requires Sane(p) && p.budget < p.mtu
    ensures var diff := (p.mtu - p.budget) * SECOND;
            0 <= diff < 0x4000_0000_0000_0000 && U64(U64(p.mtu - p.budget) * SECOND) == diff
  {
  }

  lemma WaitFits(p: Pace, bw: int)
    requires Sane(p) && bw > 0 && p.budget < p.mtu
    ensures Signed(Wait(p, bw)) == Delay(p.mtu - p.budget, bw)
  {
    MissingFits(p);
    DividesDown((p.mtu - p.budget) * SECOND, bw);
  }

  lemma DividesDown(diff: int, bw: int)
    requires 0 <= diff && bw > 0
    ensures 0 <= diff / bw <= diff && (diff % bw != 0 ==> diff / bw < diff)
  {
    assert diff == bw * (diff / bw) + diff % bw;
    if diff / bw >= 1 { Scale(diff / bw, 1, bw); }
  }

  // ---------------------------------------------------------------- the paced rate

  datatype Send = Send(now: int, size: int)

  function Run(p: Pace, bw: int, sends: seq<Send>): Pace {
    if sends == [] then p
    else
      var before := Run(p, bw, sends[..|sends| - 1]);
      AfterSend(before, bw, sends[|sends| - 1].now, sends[|sends| - 1].size, p.mtu)
  }

  /** A sender that waits for the timer and sends one datagram. */
  predicate Due(m: Pace, bw: int, s: Send) {
    && 0 < s.size <= m.mtu && m.lastSent <= s.now
    && (Timer(m, bw).At? ==> s.now >= Timer(m, bw).time)
  }

  ghost predicate Paced(p: Pace, bw: int, sends: seq<Send>)
    decreases |sends|
  {
    sends != [] ==>
      var before := sends[..|sends| - 1];
      Paced(p, bw, before) && Due(Run(p, bw, before), bw, sends[|sends| - 1])
  }

  function Bytes(sends: seq<Send>): int {
    if sends == [] then 0 else Bytes(sends[..|sends| - 1]) + sends[|sends| - 1].size
  }

  ghost predicate Within(p: Pace, bw: int, q: Pace, bytes: int) {
    && Sane(q) && q.mtu == p.mtu && q.lastSent >= p.lastSent
    && (bytes + q.budget) * SECOND <= p.budget * SECOND + bw * (q.lastSent - p.lastSent)
  }

  /** Pacing bounds the rate: at one bandwidth and one datagram size, a sender that waits for every
      timer never puts more bytes on the path than the budget it started with and the bandwidth times
      the time that has passed. */
  lemma {:induction false} PacedRateIsBounded(p: Pace, bw: int, sends: seq<Send>)
    requires Sane(p) && bw > 0 && p.lastSent > 0 && Paced(p, bw, sends)
    ensures Within(p, bw, Run(p, bw, sends), Bytes(sends))
    ensures Bytes(sends) * SECOND <= p.budget * SECOND + bw * (Run(p, bw, sends).lastSent - p.lastSent)
    decreases |sends|
  {
    if sends != [] {
      var before := sends[..|sends| - 1];
      PacedRateIsBounded(p, bw, before);
      SendStaysWithin(p, bw, Run(p, bw, before), sends[|sends| - 1], Bytes(before));
    }
  }

  lemma SendStaysWithin(p: Pace, bw: int, m: Pace, s: Send, bytes: int)
    requires bw > 0 && p.lastSent > 0 && Within(p, bw, m, bytes) && Due(m, bw, s)
    ensures Within(p, bw, AfterSend(m, bw, s.now, s.size, p.mtu), bytes + s.size)
  {
    SendSpendsBudget(m, bw, s);
    Chain(bw, s.now - m.lastSent, m.lastSent - p.lastSent);
  }

  lemma Chain(bw: int, a: int, b: int)
    ensures bw * (a + b) == bw * a + bw * b
  {
  }

  lemma SendSpendsBudget(m: Pace, bw: int, s: Send)
    requires Sane(m) && bw > 0 && m.lastSent > 0 && Due(m, bw, s)
    ensures var q := AfterSend(m, bw, s.now, s.size, m.mtu);
            && Sane(q) && q.mtu == m.mtu && q.lastSent == s.now
            && (s.size + q.budget) * SECOND <= m.budget * SECOND + bw * (s.now - m.lastSent)
  {
    TimerIsExact(m, bw, s.now);
    BudgetEarns(m, bw, s.now);
    assert m.(mtu := m.mtu) == m;
    BudgetFits(m, bw, s.now);
  }

  lemma BudgetFits(p: Pace, bw: int, now: int)
    requires Sane(p) && bw > 0
    ensures 0 <= Budget(p, bw, now) <= MAX_U64
  {
  }

  // ---------------------------------------------------------------- bursts

  /** The longest burst: ten datagrams, or two milliseconds at the bandwidth. */
  function Burst(mtu: int, bw: int): int { Max(10 * mtu, bw * 2_000_000 / 1_000_000_000) }

  /** No budget exceeds the longest burst, and a pacer that never sent has all of it, unless two
      milliseconds at the bandwidth overflow a word. */
  lemma BudgetIsCapped(p: Pace, bw: int, now: int)
    requires Sane(p) && bw > 0
    ensures 0 <= Budget(p, bw, now) <= Burst(p.mtu, bw)
    ensures p.lastSent == 0 && bw * 2_000_000 <= MAX_U64 ==> Budget(p, bw, now) == Burst(p.mtu, bw)
  {
    BudgetFits(p, bw, now);
    MaxBurstIsBurst(p, bw);
    assert Budget(p, bw, now) <= MaxBurst(p, bw);
  }

  lemma MaxBurstIsBurst(p: Pace, bw: int)
    requires Sane(p) && bw > 0
    ensures MaxBurst(p, bw) <= Burst(p.mtu, bw)
    ensures bw * 2_000_000 <= MAX_U64 ==> MaxBurst(p, bw) == Burst(p.mtu, bw)
  {
    ScaledIsEarned(p, bw, 2_000_000);
    Guard(bw, 2_000_000);
    if bw * 2_000_000 <= MAX_U64 {
      assert U64(bw * 2_000_000) == bw * 2_000_000;
    }
  }

  /** From the first packet on, a sender that waits for every timer puts no more on the path than one
      longest burst and the bandwidth times the time that has passed. */
  lemma BurstIsBounded(mtu: int, bw: int, first: Send, sends: seq<Send>)
    requires Sane(Pace(0, mtu, 0)) && bw > 0 && 0 < first.size <= mtu && first.now > 0
    requires var p := AfterSend(New(mtu, bw), bw, first.now, first.size, mtu); Paced(p, bw, sends)
    ensures var p := AfterSend(New(mtu, bw), bw, first.now, first.size, mtu);
            (first.size + Bytes(sends)) * SECOND
            <= Burst(mtu, bw) * SECOND + bw * (Run(p, bw, sends).lastSent - first.now)
  {
    var unused := New(mtu, bw);
    BurstFits(Pace(0, mtu, 0), bw);
    assert unused.(mtu := mtu) == unused && Sane(unused);
    BudgetIsCapped(unused, bw, first.now);
    BudgetEarnsBurst(unused, bw, first.now);
    PacedRateIsBounded(AfterSend(unused, bw, first.now, first.size, mtu), bw, sends);
  }

  lemma BudgetEarnsBurst(p: Pace, bw: int, now: int)
    requires Sane(p) && bw > 0 && p.lastSent == 0
    ensures Budget(p, bw, now) >= 10 * p.mtu
  {
  }

  function AfterAll(p: Pace, bw: int, now: int, sizes: seq<nat>, mtu: int): Pace {
    if sizes == [] then p
    else AfterSend(AfterAll(p, bw, now, sizes[..|sizes| - 1], mtu), bw, now, sizes[|sizes| - 1], mtu)
  }

  function Sum(sizes: seq<nat>): nat { if sizes == [] then 0 else Sum(sizes[..|sizes| - 1]) + sizes[|sizes| - 1] }

  /** The longest burst is there to be used: a pacer that never sent lets datagrams out without a pause
      as long as one more of full size fits the burst. */
  lemma {:induction false} BurstIsAvailable(mtu: int, bw: int, now: int, sizes: seq<nat>)
    requires Sane(Pace(0, mtu, 0)) && bw > 0 && bw * 2_000_000 <= MAX_U64 && now > 0
    requires Sum(sizes) + mtu <= Burst(mtu, bw)
    ensures var p := AfterAll(New(mtu, bw), bw, now, sizes, mtu);
            && Timer(p, bw) == Immediately
            && p.budget == Burst(mtu, bw) - Sum(sizes) && p.mtu == mtu && Sane(p)
            && p.lastSent == (if sizes == [] then 0 else now)
    decreases |sizes|
  {
    MaxBurstIsBurst(Pace(0, mtu, 0), bw);
    BurstFits(Pace(0, mtu, 0), bw);
    if sizes != [] {
      var before := sizes[..|sizes| - 1];
      BurstIsAvailable(mtu, bw, now, before);
      NothingEarnedAtOnce(AfterAll(New(mtu, bw), bw, now, before, mtu), bw, now, Burst(mtu, bw));
    }
  }

  lemma NothingEarnedAtOnce(p: Pace, bw: int, now: int, burst: int)
    requires Sane(p) && bw > 0 && p.lastSent in {0, now} && p.budget <= burst == MaxBurst(p, bw)
    requires p.lastSent == 0 ==> p.budget == burst
    ensures Budget(p, bw, now) == p.budget
  {
  }
}
