/** The congestion window: trsf/congestion/new_reno.go, whose floor is kept by a callback from the
    path MTU tracker. */
module NewRenos {
  import opened Common
  import MtuTrackers
  import Rtts
  import Pacers

  const SECOND: int := 1_000_000_000
  const MILLISECOND: int := 1_000_000
  const INITIAL_SSTHRESH: int := 65536
  const BITS_PER_BYTE: int := 8

  datatype Reno = Reno(cwnd: int, ssthresh: int, lastLoss: Option<int>)

  function New(mtu: int): Reno { Reno(mtu * 2, INITIAL_SSTHRESH, None) }

  /** The callback on every change of the estimate. */
  function Widened(c: Reno, newMTU: int): Reno { if c.cwnd < newMTU * 2 then c.(cwnd := newMTU * 2) else c }

  function CanSend(c: Reno, inFlight: int): bool { inFlight < c.cwnd }

  /** An acknowledgment of size bytes: slow start, then congestion avoidance. */
  function Grown(c: Reno, size: int): Reno
    requires c.cwnd > 0
  {
    if c.cwnd < c.ssthresh then c.(cwnd := c.cwnd + size)
    else
      var next := c.cwnd + Rtts.Quotient(size * size, c.cwnd);
      c.(cwnd := if next == 0 then 1 else next)
  }

  function Halved(c: Reno, now: int, mtu: int): Reno
    requires c.cwnd >= 0
  {
    if c.lastLoss.Some? && now - c.lastLoss.value < SECOND then c
    else
      var thresh := if c.cwnd / 2 < mtu * 2 then mtu * 2 else c.cwnd / 2;
      Reno(thresh, thresh, Some(now))
  }

  /** Bits in a second; one window each smoothed round trip. */
  function Bandwidth(cwnd: int, srtt: int): int {
    Pacers.U64(Pacers.U64(Pacers.U64(cwnd) * SECOND) / Max(srtt, MILLISECOND) * BITS_PER_BYTE)
  }

  /** What the pacer makes of it: bytes in a second with a quarter more. */
  function PacedBandwidth(cwnd: int, srtt: int): int { Bandwidth(cwnd, srtt) / BITS_PER_BYTE * 5 / 4 }

  class NewReno {
    var cwnd: int
    var ssthresh: int
    var lastLossTime: Option<int>
    const mtu: MtuTrackers.MTUTracker
    const rtt: Rtts.RTTStats
    const pacer: Pacers.Pacer

    ghost function View(): Reno
      reads this
    {
      Reno(cwnd, ssthresh, lastLossTime)
    }

    constructor (mtu: MtuTrackers.MTUTracker, rtt: Rtts.RTTStats)
      ensures View() == New(mtu.mtu) && this.mtu == mtu && this.rtt == rtt && fresh(pacer)
      ensures pacer.View() == Pacers.New(mtu.mtu, PacedBandwidth(cwnd, rtt.srtt))
    {
      cwnd, ssthresh, lastLossTime := mtu.mtu * 2, INITIAL_SSTHRESH, None;
      this.mtu, this.rtt := mtu, rtt;
      pacer := new Pacers.Pacer(mtu.mtu, PacedBandwidth(mtu.mtu * 2, rtt.srtt));
    }

    method OnMTUUpdate(newMTU: int)
      modifies this
      ensures View() == Widened(old(View()), newMTU)
    {
      if cwnd < newMTU * 2 {
        cwnd := newMTU * 2;
      }
    }

    method MaySend(inFlight: int) returns (can: bool)
      ensures can == CanSend(View(), inFlight)
    {
      can := inFlight < cwnd;
    }

    method PacingTimer() returns (at: Pacers.Timing)
      ensures at == Pacers.Timer(pacer.View(), PacedBandwidth(cwnd, rtt.srtt))
    {
      at := pacer.SendTime(PacedBandwidth(cwnd, rtt.srtt));
    }

    method RecordSend(size: int, now: int)
      modifies pacer
      ensures pacer.View() == Pacers.AfterSend(old(pacer.View()), PacedBandwidth(cwnd, rtt.srtt), now, size, mtu.mtu)
    {
      pacer.OnSent(PacedBandwidth(cwnd, rtt.srtt), now, size, mtu.mtu);
    }

    method RecordACK(size: int)
      requires cwnd > 0
      modifies this
      ensures View() == Grown(old(View()), size)
    {
      if cwnd < ssthresh {
        cwnd := cwnd + size;
      } else {
        cwnd := cwnd + Rtts.Quotient(size * size, cwnd);
        if cwnd == 0 {
          cwnd := 1;
        }
      }
    }

    method RecordLoss(now: int)
      requires cwnd >= 0
      modifies this
      ensures View() == Halved(old(View()), now, mtu.mtu)
    {
      if lastLossTime.Some? && now - lastLossTime.value < SECOND {
        return;
      }
      ssthresh := cwnd / 2;
      if ssthresh < mtu.mtu * 2 {
        ssthresh := mtu.mtu * 2;
      }
      cwnd := ssthresh;
      lastLossTime := Some(now);
    }
  }

  // ---------------------------------------------------------------- tracker and window together

  datatype World = World(mtu: MtuTrackers.World, reno: Reno)

  datatype Event =
    | Mtu(e: MtuTrackers.Event)
    | Acked(size: nat)
    | Lost(now: int)

  function Step(w: World, e: Event): World
    requires w.reno.cwnd > 0
  {
    match e
    case Mtu(m) =>
      var next := MtuTrackers.Step(w.mtu, m);
      World(next, if MtuTrackers.Announced(w.mtu.t, next.t) then Widened(w.reno, next.t.mtu) else w.reno)
    case Acked(size) => w.(reno := Grown(w.reno, size))
    case Lost(now) => w.(reno := Halved(w.reno, now, w.mtu.t.mtu))
  }

  function Init(min: int, max: int, period: int): World {
    World(MtuTrackers.Init(min, max, period), New(min))
  }

  ghost predicate FloorOk(w: World) {
    && w.reno.cwnd >= 2 * w.mtu.t.mtu && w.mtu.t.mtu >= w.mtu.t.min > 0
    && MtuTrackers.RangeOk(w.mtu) && MtuTrackers.CountsOk(w.mtu)
  }

  /** w is where some run of events leads from the start. */
  ghost predicate Reaches(start: World, events: seq<Event>, w: World)
    decreases |events|
  {
    if events == [] then w == start
    else exists v: World :: v.reno.cwnd > 0 && Reaches(start, events[..|events| - 1], v) && w == Step(v, events[|events| - 1])
  }

  lemma StepKeepsFloor(w: World, e: Event)
    requires FloorOk(w)
    ensures FloorOk(Step(w, e)) && Step(w, e).mtu.t.min == w.mtu.t.min
  {
    match e
    case Mtu(m) =>
      MtuTrackers.StepKeeps(w.mtu, m);
      MtuTrackers.BoundsStay(w.mtu, m);
    case Acked(size) => GrowsOnly(w.reno, size);
    case Lost(_) =>
  }

  lemma GrowsOnly(c: Reno, size: nat)
    requires c.cwnd > 0
    ensures Grown(c, size).cwnd >= c.cwnd
  {
  }

  /** In every run of tracker and window, whatever ACKs, losses, MTU raises and fallbacks come, the
      window holds two full datagrams at the current estimate. */
  lemma {:induction false} WindowHoldsTwoDatagrams(min: int, max: int, period: int, events: seq<Event>, w: World)
    requires 0 < min <= max && Reaches(Init(min, max, period), events, w)
    ensures w.reno.cwnd >= 2 * w.mtu.t.mtu && w.mtu.t.mtu >= min && FloorOk(w) && w.mtu.t.min == min
    decreases |events|
  {
    if events != [] {
      var v: World :| v.reno.cwnd > 0 && Reaches(Init(min, max, period), events[..|events| - 1], v)
                      && w == Step(v, events[|events| - 1]);
      WindowHoldsTwoDatagrams(min, max, period, events[..|events| - 1], v);
      StepKeepsFloor(v, events[|events| - 1]);
    }
  }

  /** Every sequence of events is a run: it leads to a world, and to one only. */
  lemma {:induction false} EveryRunLeadsSomewhere(min: int, max: int, period: int, events: seq<Event>) returns (w: World)
    requires 0 < min <= max
    ensures forall v :: Reaches(Init(min, max, period), events, v) <==> v == w
    decreases |events|
  {
    var start := Init(min, max, period);
    if events == [] {
      w := start;
    } else {
      var before, e := events[..|events| - 1], events[|events| - 1];
      var u := EveryRunLeadsSomewhere(min, max, period, before);
      assert Reaches(start, before, u);
      WindowHoldsTwoDatagrams(min, max, period, before, u);
      w := Step(u, e);
    }
  }

  /** The pacer has a bandwidth exactly when the window yields a byte in each smoothed round trip. */
  lemma PacedBandwidthIsPositive(cwnd: int, srtt: int)
    requires 0 < cwnd && cwnd * SECOND <= 0x7fff_ffff_ffff_ffff
    ensures PacedBandwidth(cwnd, srtt) > 0 <==> Max(srtt, MILLISECOND) <= cwnd * SECOND
  {
    var window, rtt := cwnd * SECOND, Max(srtt, MILLISECOND);
    Quotients(window, rtt);
    NoWrap(cwnd, rtt);
    Margin(window / rtt);
  }

  /** No product of the estimate wraps. */
  lemma NoWrap(cwnd: int, rtt: int)
    requires 0 < cwnd && cwnd * SECOND <= 0x7fff_ffff_ffff_ffff && rtt >= MILLISECOND
    ensures Pacers.U64(Pacers.U64(Pacers.U64(cwnd) * SECOND) / rtt * BITS_PER_BYTE) == cwnd * SECOND / rtt * BITS_PER_BYTE
  {
    Shrinks(cwnd * SECOND, rtt);
    assert Pacers.U64(cwnd) == cwnd && Pacers.U64(cwnd * SECOND) == cwnd * SECOND;
  }

  lemma Margin(rate: int)
    requires rate >= 0
    ensures rate * BITS_PER_BYTE / BITS_PER_BYTE * 5 / 4 > 0 <==> rate > 0
  {
    assert rate * BITS_PER_BYTE / BITS_PER_BYTE == rate;
  }

  lemma Quotients(a: int, b: int)
    requires a >= 0 && b > 0
    ensures a / b > 0 <==> b <= a
  {
    assert a == b * (a / b) + a % b;
    if a / b > 0 {
      assert b * (a / b) >= b;
    }
  }

  /** The pacing timer divides by zero exactly when it has to wait and the smoothed round trip is more
      than one second for each byte of the window. */
  lemma TimerDividesByZeroExactly(p: Pacers.Pace, cwnd: int, srtt: int)
    requires 0 < cwnd && cwnd * SECOND <= 0x7fff_ffff_ffff_ffff
    ensures Pacers.Timer(p, PacedBandwidth(cwnd, srtt)) == Pacers.DivisionByZero <==>
            p.budget < p.mtu && srtt > cwnd * SECOND
  {
    PacedBandwidthIsPositive(cwnd, srtt);
  }

  lemma Shrinks(a: int, b: int)
    requires a >= 0 && b >= BITS_PER_BYTE
    ensures a / b * BITS_PER_BYTE <= a
  {
  }

  // ---------------------------------------------------------------- how the window moves

  /** The time of the last loss that was not within a second of the halving before it. */
  function LastHalving(events: seq<Event>): Option<int> {
    if events == [] then None
    else
      var before := LastHalving(events[..|events| - 1]);
      match events[|events| - 1]
      case Lost(now) => if before.Some? && now - before.value < 1_000_000_000 then before else Some(now)
      case _ => before
  }

  /** Slow start ends with the first halving, or at 65536 bytes. */
  ghost predicate Phased(c: Reno, halved: Option<int>) {
    && c.lastLoss == halved
    && (if halved.None? then c.ssthresh == 65536 else c.cwnd >= c.ssthresh)
  }

  lemma StepPhases(w: World, e: Event, halved: Option<int>)
    requires FloorOk(w) && Phased(w.reno, halved)
    ensures Phased(Step(w, e).reno,
                   match e
                   case Lost(now) => if halved.Some? && now - halved.value < 1_000_000_000 then halved else Some(now)
                   case _ => halved)
  {
    match e
    case Acked(size) => GrowsOnly(w.reno, size);
    case Mtu(_) =>
    case Lost(_) =>
  }

  lemma {:induction false} RunPhases(min: int, max: int, period: int, events: seq<Event>, w: World)
    requires 0 < min <= max && Reaches(Init(min, max, period), events, w)
    ensures Phased(w.reno, LastHalving(events))
    decreases |events|
  {
    if events != [] {
      var before := events[..|events| - 1];
      var v: World :| v.reno.cwnd > 0 && Reaches(Init(min, max, period), before, v) && w == Step(v, events[|events| - 1]);
      RunPhases(min, max, period, before, v);
      WindowHoldsTwoDatagrams(min, max, period, before, v);
      StepPhases(v, events[|events| - 1], LastHalving(before));
    }
  }

  lemma MtuWidens(w: World, m: MtuTrackers.Event)
    requires FloorOk(w)
    ensures Step(w, Mtu(m)).reno.cwnd == Max(w.reno.cwnd, 2 * Step(w, Mtu(m)).mtu.t.mtu)
  {
    StepKeepsFloor(w, Mtu(m));
    MtuTrackers.StepKeeps(w.mtu, m);
  }

  /** Over every run: a loss halves the window, to no less than two datagrams, unless it comes within a
      second of the last halving; an acknowledgment before the first halving and below 65536 bytes adds
      its size, and any other adds the square of its size over the window, which is nothing exactly
      when the window exceeds that square; and a change of the estimate raises the window to two
      datagrams and no further. The window starts at two datagrams. */
  lemma WindowMovesExactly(min: int, max: int, period: int, events: seq<Event>, w: World,
                           now: int, size: nat, m: MtuTrackers.Event)
    requires 0 < min <= max && Reaches(Init(min, max, period), events, w)
    ensures var halved := LastHalving(events);
            && w.reno.cwnd > 0
            && Step(w, Lost(now)).reno.cwnd
               == (if halved.Some? && now - halved.value < 1_000_000_000 then w.reno.cwnd
                   else Max(w.reno.cwnd / 2, 2 * w.mtu.t.mtu))
            && Step(w, Acked(size)).reno.cwnd
               == w.reno.cwnd + (if halved.None? && w.reno.cwnd < 65536 then size else size * size / w.reno.cwnd)
            && (halved.Some? ==> (Step(w, Acked(size)).reno.cwnd == w.reno.cwnd <==> size * size < w.reno.cwnd))
            && Step(w, Mtu(m)).reno.cwnd == Max(w.reno.cwnd, 2 * Step(w, Mtu(m)).mtu.t.mtu)
            && (events == [] ==> w.reno.cwnd == 2 * min)
  {
    RunPhases(min, max, period, events, w);
    WindowHoldsTwoDatagrams(min, max, period, events, w);
    MtuWidens(w, m);
    AckMoves(w.reno, LastHalving(events), size);
    LossMoves(w.reno, LastHalving(events), now, w.mtu.t.mtu);
  }

  lemma LossMoves(c: Reno, halved: Option<int>, now: int, mtu: int)
    requires Phased(c, halved) && c.cwnd > 0
    ensures Halved(c, now, mtu).cwnd
            == if halved.Some? && now - halved.value < 1_000_000_000 then c.cwnd else Max(c.cwnd / 2, 2 * mtu)
  {
  }

  lemma AckMoves(c: Reno, halved: Option<int>, size: nat)
    requires Phased(c, halved) && c.cwnd > 0
    ensures var grown := Grown(c, size).cwnd;
            && grown == c.cwnd + (if halved.None? && c.cwnd < 65536 then size else size * size / c.cwnd)
            && (halved.Some? ==> (grown == c.cwnd <==> size * size < c.cwnd))
  {
    GrowsOnly(c, size);
    Quotients(size * size, c.cwnd);
  }

  function AckAll(c: Reno, sizes: seq<nat>): Option<Reno> {
    if sizes == [] then Some(c)
    else
      match AckAll(c, sizes[..|sizes| - 1])
      case None => None
      case Some(d) => if d.cwnd > 0 then Some(Grown(d, sizes[|sizes| - 1])) else None
  }

  function Sum(sizes: seq<nat>): nat { if sizes == [] then 0 else Sum(sizes[..|sizes| - 1]) + sizes[|sizes| - 1] }

  /** What one acknowledgment adds, in proportion to a window no larger than the current one. */
  lemma Share(window: int, cwnd: int, size: nat, most: nat)
    requires 0 < window <= cwnd && size <= most
    ensures window * (size * size / cwnd) <= most * size
  {
    var q := size * size / cwnd;
    assert size * size == cwnd * q + size * size % cwnd;
    Scales(window, cwnd, q);
    Scales(size, most, size);
  }

  lemma Scales(a: int, b: int, q: int)
    requires a <= b && q >= 0
    ensures a * q <= b * q
  {
  }

  lemma {:induction false} GrowthAddsUp(c: Reno, sizes: seq<nat>, most: nat)
    requires c.cwnd > 0 && c.cwnd >= c.ssthresh && forall s <- sizes :: s <= most
    ensures AckAll(c, sizes).Some?
    ensures var d := AckAll(c, sizes).value; d.cwnd >= c.cwnd && d.ssthresh == c.ssthresh && c.cwnd * (d.cwnd - c.cwnd) <= most * Sum(sizes)
    decreases |sizes|
  {
    if sizes != [] {
      var before, size := sizes[..|sizes| - 1], sizes[|sizes| - 1];
      assert forall s <- before :: s in sizes;
      GrowthAddsUp(c, before, most);
      assert size in sizes;
      AckAdds(c, AckAll(c, before).value, size, most, Sum(before));
    }
  }

  lemma AckAdds(c: Reno, d: Reno, size: nat, most: nat, total: nat)
    requires 0 < c.cwnd <= d.cwnd && d.cwnd >= d.ssthresh && size <= most
    requires c.cwnd * (d.cwnd - c.cwnd) <= most * total
    ensures var g := Grown(d, size);
            g.cwnd >= c.cwnd && g.ssthresh == d.ssthresh && c.cwnd * (g.cwnd - c.cwnd) <= most * (total + size)
  {
    Share(c.cwnd, d.cwnd, size, most);
    GrowsOnly(d, size);
    Quotients(size * size, d.cwnd);
    Distributes(c.cwnd, d.cwnd - c.cwnd, size * size / d.cwnd);
    Distributes(most, total, size);
  }

  lemma Distributes(a: int, x: int, y: int)
    ensures a * (x + y) == a * x + a * y
  {
  }

  /** Congestion avoidance is linear: past slow start, acknowledgments of at most one window of bytes
      together add no more than the size of the largest. */
  lemma AvoidanceIsLinear(c: Reno, sizes: seq<nat>, most: nat)
    requires c.cwnd > 0 && c.cwnd >= c.ssthresh && (forall s <- sizes :: s <= most) && Sum(sizes) <= c.cwnd
    ensures AckAll(c, sizes).Some? && c.cwnd <= AckAll(c, sizes).value.cwnd <= c.cwnd + most
  {
    GrowthAddsUp(c, sizes, most);
    Divides(c.cwnd, AckAll(c, sizes).value.cwnd - c.cwnd, most, Sum(sizes));
  }

  lemma Divides(window: int, grown: int, most: int, total: int)
    requires window > 0 && most >= 0 && total <= window && window * grown <= most * total
    ensures grown <= most
  {
    Scales(total, window, most);
    if grown > most {
      Scales(most + 1, grown, window);
    }
  }

  /** Pacing in numbers: the window once in each smoothed round trip, and a quarter more. */
  lemma PacedBandwidthIsWindowPerRoundTrip(cwnd: int, srtt: int)
    requires 0 < cwnd && cwnd * SECOND <= 0x7fff_ffff_ffff_ffff
    ensures PacedBandwidth(cwnd, srtt) == cwnd * 1_000_000_000 / Max(srtt, 1_000_000) * 5 / 4
  {
    var rate := cwnd * SECOND / Max(srtt, MILLISECOND);
    NoWrap(cwnd, Max(srtt, MILLISECOND));
    assert rate * BITS_PER_BYTE / BITS_PER_BYTE == rate;
  }
}
