/** Path MTU discovery: trsf/mtu/plpmtud.go. Times are integers in nanoseconds and 0 is the unset
    time; the smoothed RTT is a parameter where the program reads it live. */
module MtuTrackers {
  import opened Common

  const SECOND: int := 1_000_000_000
  const BLACK_HOLE_RTTS: int := 10
  const BLACK_HOLE_FLOOR: int := 1 * SECOND
  const BLACK_HOLE_CAP: int := 30 * SECOND
  const VALIDATION_INTERVAL: int := 60 * SECOND
  const SEARCH_PROBE_INTERVAL: int := 100_000_000
  const MAX_REPROBE_BACKOFF: nat := 6

  /** A snapshot of one MTUTracker. */
  datatype Tracker = Tracker(
    min: int, max: int, mtu: int, low: int, high: int, lastProbe: int,
    probeSent: bool, validating: bool,
    searchLossCount: nat, validationLossCount: nat,
    lastProbeConverged: int, lastValidation: int,
    reProbeAfterConverged: int, reprobeBackoffCount: nat,
    lastLargeACK: int, lastAnyACK: int, largeLostSeen: bool,
    fallbacks: nat, baseUnusable: nat)

  function New(min: int, max: int, period: int): Tracker {
    Tracker(min, max, min, min + 1, max, 0, false, false, 0, 0, 0, 0, period, 0, 0, 0, false, 0, 0)
  }

  function BlackHoleTimeout(srtt: int): (d: int)
    ensures BLACK_HOLE_FLOOR <= d <= BLACK_HOLE_CAP
  {
    if BLACK_HOLE_RTTS * srtt < BLACK_HOLE_FLOOR then BLACK_HOLE_FLOOR
    else if BLACK_HOLE_RTTS * srtt > BLACK_HOLE_CAP then BLACK_HOLE_CAP
    else BLACK_HOLE_RTTS * srtt
  }

  function ValidationDue(t: Tracker): int { t.lastValidation + VALIDATION_INTERVAL }

  function ReprobeDue(t: Tracker): int { t.lastProbeConverged + t.reProbeAfterConverged * Pow2(t.reprobeBackoffCount) }

  predicate Discoverable(t: Tracker) { t.min < t.max }

  predicate Searching(t: Tracker) { t.low <= t.high }

  /** The search starts again above the estimate. */
  function Reopened(t: Tracker): Tracker {
    t.(low := t.mtu + 1, high := t.max, lastProbeConverged := 0, searchLossCount := 0,
       reprobeBackoffCount := if t.reprobeBackoffCount < MAX_REPROBE_BACKOFF then t.reprobeBackoffCount + 1 else t.reprobeBackoffCount)
  }

  function SearchProbe(t: Tracker): Tracker {
    t.(probeSent := true, validating := false, lastProbe := (t.low + t.high + 1) / 2)
  }

  predicate Issues(t: Tracker, now: int) {
    && !t.probeSent && Discoverable(t)
    && (Searching(t) || now > ValidationDue(t) || (now > ReprobeDue(t) && t.mtu < t.max))
  }

  /** Probe; when it issues, the size is lastProbe. */
  function Probed(t: Tracker, now: int): Tracker {
    if !Issues(t, now) then t
    else if Searching(t) then SearchProbe(t)
    else if now > ValidationDue(t) then
      t.(probeSent := true, validating := true, lastValidation := now, lastProbe := t.mtu)
    else SearchProbe(Reopened(t))
  }

  function NextDeadline(t: Tracker, now: int): Option<int> {
    if !Discoverable(t) || t.probeSent then None
    else if Searching(t) then Some(now + SEARCH_PROBE_INTERVAL)
    else
      var next := if t.mtu < t.max && ReprobeDue(t) < ValidationDue(t) then ReprobeDue(t) else ValidationDue(t);
      Some(if next < now then now else next)
  }

  function MayConverge(t: Tracker, now: int): Tracker {
    if Searching(t) then t
    else t.(lastProbeConverged := if t.lastProbeConverged == 0 then now else t.lastProbeConverged,
            lastValidation := if t.lastValidation == 0 then now else t.lastValidation)
  }

  function SearchReset(t: Tracker): Tracker {
    t.(mtu := t.min, low := t.min + 1, high := t.max, lastProbe := t.min, probeSent := false,
       searchLossCount := 0, lastProbeConverged := 0)
  }

  function DetectorReset(t: Tracker): Tracker {
    t.(validationLossCount := 0, largeLostSeen := false, lastLargeACK := 0, validating := false, lastValidation := 0)
  }

  /** fallBackToBase, the only place where the estimate decreases. */
  function FallenBack(t: Tracker): Tracker {
    DetectorReset(SearchReset(t)).(fallbacks := t.fallbacks + 1)
  }

  function Acked(t: Tracker, now: int): Tracker {
    var done := t.(probeSent := false, validating := false);
    if t.validating then done.(validationLossCount := 0)
    else
      var raised := if t.lastProbe > t.mtu then done.(mtu := t.lastProbe, reprobeBackoffCount := 0) else done;
      MayConverge(raised.(searchLossCount := 0, low := t.lastProbe + 1), now)
  }

  function Lost(t: Tracker, now: int): Tracker {
    var done := t.(probeSent := false, validating := false);
    if t.validating then
      if t.validationLossCount + 1 < 3 then done.(validationLossCount := t.validationLossCount + 1)
      else if t.mtu <= t.min then done.(validationLossCount := 0, baseUnusable := t.baseUnusable + 1)
      else FallenBack(done)
    else if t.lastProbe <= t.mtu then done
    else if t.searchLossCount + 1 < 3 then done.(searchLossCount := t.searchLossCount + 1)
    else MayConverge(done.(high := t.lastProbe - 1, searchLossCount := 0), now)
  }

  function LargeAcked(t: Tracker, size: int, now: int): Tracker {
    if size <= t.min then t.(lastAnyACK := now)
    else t.(lastAnyACK := now, lastLargeACK := now, largeLostSeen := false)
  }

  function PeerActive(t: Tracker, now: int): Tracker { t.(lastAnyACK := now) }

  predicate BlackHole(t: Tracker, now: int, srtt: int) {
    && t.mtu > t.min && t.largeLostSeen
    && t.lastLargeACK != 0 && now - t.lastLargeACK > BlackHoleTimeout(srtt)
    && t.lastAnyACK != 0 && now - t.lastAnyACK <= BlackHoleTimeout(srtt)
  }

  function LargeLost(t: Tracker, size: int, now: int, srtt: int): Tracker {
    if size <= t.min then t
    else
      var seen := t.(largeLostSeen := true);
      if BlackHole(seen, now, srtt) then FallenBack(seen) else seen
  }

  /** Whether a step called onMTUUpdate. */
  predicate Announced(before: Tracker, after: Tracker) {
    after.mtu > before.mtu || after.fallbacks > before.fallbacks
  }

  class MTUTracker {
    const min: int
    const max: int
    const reProbeAfterConverged: int
    var mtu: int
    var low: int
    var high: int
    var lastProbe: int
    var probeSent: bool
    var validating: bool
    var searchLossCount: nat
    var validationLossCount: nat
    var lastProbeConverged: int
    var lastValidation: int
    var reprobeBackoffCount: nat
    var lastLargeACK: int
    var lastAnyACK: int
    var largeLostSeen: bool
    var fallbacks: nat
    var baseUnusable: nat

    ghost function View(): Tracker
      reads this
    {
      Tracker(min, max, mtu, low, high, lastProbe, probeSent, validating, searchLossCount, validationLossCount,
              lastProbeConverged, lastValidation, reProbeAfterConverged, reprobeBackoffCount,
              lastLargeACK, lastAnyACK, largeLostSeen, fallbacks, baseUnusable)
    }

    constructor (min: int, max: int, period: int)
      ensures View() == New(min, max, period)
    {
      this.min, this.max, reProbeAfterConverged := min, max, period;
      mtu, low, high, lastProbe := min, min + 1, max, 0;
      probeSent, validating, searchLossCount, validationLossCount := false, false, 0, 0;
      lastProbeConverged, lastValidation, reprobeBackoffCount := 0, 0, 0;
      lastLargeACK, lastAnyACK, largeLostSeen, fallbacks, baseUnusable := 0, 0, false, 0, 0;
    }

    method Probe(now: int) returns (size: int)
      modifies this
      ensures View() == Probed(old(View()), now)
      ensures size == if Issues(old(View()), now) then lastProbe else -1
    {
      if probeSent || min >= max {
        return -1;
      }
      if low > high {
        if now > lastValidation + VALIDATION_INTERVAL {
          probeSent, validating, lastValidation, lastProbe := true, true, now, mtu;
          return lastProbe;
        } else if now > lastProbeConverged + reProbeAfterConverged * Pow2(reprobeBackoffCount) && mtu < max {
          Reopen();
        } else {
          return -1;
        }
      }
      IssueSearch();
      size := lastProbe;
    }

    /** The part of Probe that starts the search again. */
    method Reopen()
      modifies this`low, this`high, this`lastProbeConverged, this`searchLossCount, this`reprobeBackoffCount
      ensures View() == Reopened(old(View()))
    {
      low, high, lastProbeConverged, searchLossCount := mtu + 1, max, 0, 0;
      if reprobeBackoffCount < MAX_REPROBE_BACKOFF {
        reprobeBackoffCount := reprobeBackoffCount + 1;
      }
    }

    /** The part of Probe that sends a search probe. */
    method IssueSearch()
      modifies this`probeSent, this`validating, this`lastProbe
      ensures View() == SearchProbe(old(View()))
    {
      probeSent, validating := true, false;
      lastProbe := (low + high + 1) / 2;
    }

    method Deadline(now: int) returns (d: Option<int>)
      ensures d == NextDeadline(View(), now)
    {
      if min >= max || probeSent {
        return None;
      }
      if low <= high {
        return Some(now + SEARCH_PROBE_INTERVAL);
      }
      var next := lastValidation + VALIDATION_INTERVAL;
      if mtu < max {
        var reprobe := lastProbeConverged + reProbeAfterConverged * Pow2(reprobeBackoffCount);
        if reprobe < next {
          next := reprobe;
        }
      }
      if next < now {
        return Some(now);
      }
      d := Some(next);
    }

    method MayDetectConverged(now: int)
      modifies this`lastProbeConverged, this`lastValidation
      ensures View() == MayConverge(old(View()), now)
    {
      if low > high {
        if lastProbeConverged == 0 {
          lastProbeConverged := now;
        }
        if lastValidation == 0 {
          lastValidation := now;
        }
      }
    }

    method ResetSearch()
      modifies this
      ensures View() == SearchReset(old(View()))
    {
      mtu, low, high, lastProbe := min, min + 1, max, min;
      probeSent, searchLossCount, lastProbeConverged := false, 0, 0;
    }

    method ResetDetector()
      modifies this
      ensures View() == DetectorReset(old(View()))
    {
      validationLossCount, lastValidation, lastLargeACK := 0, 0, 0;
      largeLostSeen, validating := false, false;
    }

    method FallBackToBase()
      modifies this
      ensures View() == FallenBack(old(View()))
    {
      ResetSearch();
      ResetDetector();
      fallbacks := fallbacks + 1;
    }

    method OnACK(now: int) returns (announce: bool)
      modifies this
      ensures View() == Acked(old(View()), now)
      ensures announce == Announced(old(View()), View())
    {
      var wasValidating := validating;
      probeSent, validating := false, false;
      if wasValidating {
        validationLossCount := 0;
        return false;
      }
      announce := Raise();
      MayDetectConverged(now);
    }

    /** The part of OnACK that moves the estimate up. */
    method Raise() returns (raised: bool)
      modifies this`searchLossCount, this`mtu, this`reprobeBackoffCount, this`low
      ensures View() == old(View()).(searchLossCount := 0, mtu := Max(old(mtu), lastProbe), low := lastProbe + 1,
                                     reprobeBackoffCount := if raised then 0 else old(reprobeBackoffCount))
      ensures raised <==> lastProbe > old(mtu)
    {
      searchLossCount := 0;
      raised := lastProbe > mtu;
      if raised {
        mtu := lastProbe;
        reprobeBackoffCount := 0;
      }
      low := lastProbe + 1;
    }

    method OnLost(now: int) returns (announce: bool)
      modifies this
      ensures View() == Lost(old(View()), now)
      ensures announce == Announced(old(View()), View())
    {
      var wasValidating := validating;
      probeSent, validating := false, false;
      if wasValidating {
        validationLossCount := validationLossCount + 1;
        if validationLossCount < 3 {
          return false;
        }
        validationLossCount := 0;
        if mtu <= min {
          baseUnusable := baseUnusable + 1;
          return false;
        }
        FallBackToBase();
        return true;
      }
      if lastProbe <= mtu {
        return false;
      }
      searchLossCount := searchLossCount + 1;
      if searchLossCount >= 3 {
        high := lastProbe - 1;
        searchLossCount := 0;
        MayDetectConverged(now);
      }
      announce := false;
    }

    method OnLargePacketACKed(size: int, now: int)
      modifies this
      ensures View() == LargeAcked(old(View()), size, now)
    {
      lastAnyACK := now;
      if size <= min {
        return;
      }
      lastLargeACK := now;
      largeLostSeen := false;
    }

    method OnPeerActivity(now: int)
      modifies this
      ensures View() == PeerActive(old(View()), now)
    {
      lastAnyACK := now;
    }

    method OnLargePacketLost(size: int, now: int, srtt: int) returns (announce: bool)
      modifies this
      ensures View() == LargeLost(old(View()), size, now, srtt)
      ensures announce == Announced(old(View()), View())
    {
      if size <= min {
        return false;
      }
      largeLostSeen := true;
      announce := EvaluateBlackHole(now, srtt);
    }

    method EvaluateBlackHole(now: int, srtt: int) returns (fell: bool)
      modifies this
      ensures fell == BlackHole(old(View()), now, srtt)
      ensures View() == if fell then FallenBack(old(View())) else old(View())
    {
      if mtu <= min || !largeLostSeen {
        return false;
      }
      var timeout := BlackHoleTimeout(srtt);
      if lastLargeACK == 0 || now - lastLargeACK <= timeout {
        return false;
      }
      if lastAnyACK == 0 || now - lastAnyACK > timeout {
        return false;
      }
      FallBackToBase();
      fell := true;
    }
  }

  // ---------------------------------------------------------------- whole runs

  /** A tracker with its history: whether a probe was ever issued, how often the estimate rose,
      how often data losses made it fall, and when a large packet was last acknowledged. */
  datatype World = World(t: Tracker, probed: bool, raises: nat, dataFallbacks: nat, bigAck: Option<int>)

  datatype Event =
    | ProbeAt(now: int)
    | VerdictACK(now: int)
    | VerdictLost(now: int)
    | BigACK(size: int, now: int)
    | Activity(now: int)
    | BigLost(size: int, now: int, srtt: int)

  function Init(min: int, max: int, period: int): World { World(New(min, max, period), false, 0, 0, None) }

  /** A verdict needs a probe that was issued at some time, but may come late, in any order and any
      number of times. */
  function Step(w: World, e: Event): World {
    match e
    case ProbeAt(now) => w.(t := Probed(w.t, now), probed := w.probed || Issues(w.t, now))
    case VerdictACK(now) =>
      if !w.probed then w
      else
        var t' := Acked(w.t, now);
        w.(t := t', raises := if t'.mtu > w.t.mtu then w.raises + 1 else w.raises)
    case VerdictLost(now) => if !w.probed then w else w.(t := Lost(w.t, now))
    case BigACK(size, now) =>
      w.(t := LargeAcked(w.t, size, now), bigAck := if size > w.t.min then Some(now) else w.bigAck)
    case Activity(now) => w.(t := PeerActive(w.t, now))
    case BigLost(size, now, srtt) =>
      var t' := LargeLost(w.t, size, now, srtt);
      w.(t := t', dataFallbacks := w.dataFallbacks + t'.fallbacks - w.t.fallbacks)
  }

  function Exec(w: World, events: seq<Event>): World {
    if events == [] then w else Step(Exec(w, events[..|events| - 1]), events[|events| - 1])
  }

  ghost predicate RangeOk(w: World) {
    && w.t.min <= w.t.mtu <= w.t.max && w.t.low == w.t.mtu + 1 && w.t.high <= w.t.max
    && (w.probed ==> w.t.mtu <= w.t.lastProbe <= w.t.max)
    && (w.t.probeSent || w.t.validating ==> w.probed)
  }

  ghost predicate CountsOk(w: World) {
    && w.t.fallbacks + (if w.t.mtu > w.t.min then 1 else 0) <= w.raises
    && (w.t.lastLargeACK != 0 ==> w.bigAck == Some(w.t.lastLargeACK))
  }

  lemma ProbeKeeps(w: World, now: int)
    requires RangeOk(w) && CountsOk(w)
    ensures RangeOk(Step(w, ProbeAt(now))) && CountsOk(Step(w, ProbeAt(now)))
  {
    var t := w.t;
    if Issues(t, now) {
      var s := if Searching(t) then t else Reopened(t);
      assert s.low <= s.high ==> s.low <= (s.low + s.high + 1) / 2 <= s.high;
    }
  }

  lemma AckKeeps(w: World, now: int)
    requires RangeOk(w) && CountsOk(w)
    ensures RangeOk(Step(w, VerdictACK(now))) && CountsOk(Step(w, VerdictACK(now)))
  {
  }

  lemma LostKeeps(w: World, now: int)
    requires RangeOk(w) && CountsOk(w)
    ensures RangeOk(Step(w, VerdictLost(now))) && CountsOk(Step(w, VerdictLost(now)))
  {
  }

  lemma DataKeeps(w: World, size: int, now: int, srtt: int)
    requires RangeOk(w) && CountsOk(w)
    ensures RangeOk(Step(w, BigACK(size, now))) && CountsOk(Step(w, BigACK(size, now)))
    ensures RangeOk(Step(w, BigLost(size, now, srtt))) && CountsOk(Step(w, BigLost(size, now, srtt)))
  {
  }

  lemma StepKeeps(w: World, e: Event)
    requires RangeOk(w) && CountsOk(w)
    ensures RangeOk(Step(w, e)) && CountsOk(Step(w, e))
  {
    match e
    case ProbeAt(now) => ProbeKeeps(w, now);
    case VerdictACK(now) => AckKeeps(w, now);
    case VerdictLost(now) => LostKeeps(w, now);
    case BigACK(size, now) => DataKeeps(w, size, now, 0);
    case Activity(_) =>
    case BigLost(size, now, srtt) => DataKeeps(w, size, now, srtt);
  }

  lemma BoundsStay(w: World, e: Event)
    ensures Step(w, e).t.min == w.t.min && Step(w, e).t.max == w.t.max
  {
  }

  /** MTU safety over every run, late and repeated verdicts included: the estimate stays between
      the bounds, the search starts right above it, and it never fell more often than it rose. */
  lemma {:induction false} MtuStaysInRange(min: int, max: int, period: int, events: seq<Event>)
    requires min <= max
    ensures var w := Exec(Init(min, max, period), events);
            && w.t.min == min && w.t.max == max
            && min <= w.t.mtu <= max && w.t.low == w.t.mtu + 1 && w.t.fallbacks <= w.raises
            && RangeOk(w) && CountsOk(w)
  {
    if events != [] {
      MtuStaysInRange(min, max, period, events[..|events| - 1]);
      StepKeeps(Exec(Init(min, max, period), events[..|events| - 1]), events[|events| - 1]);
      BoundsStay(Exec(Init(min, max, period), events[..|events| - 1]), events[|events| - 1]);
    }
  }

  /** The estimate falls to the base size and nowhere else. */
  lemma FallsOnlyToBase(w: World, e: Event)
    requires Step(w, e).t.mtu < w.t.mtu
    ensures Step(w, e).t.mtu == w.t.min && Step(w, e).t.fallbacks == w.t.fallbacks + 1
  {
  }

  /** Every large loss of the run comes within the black-hole floor of a large ACK. */
  ghost predicate LossesNearACKs(w: World, events: seq<Event>)
    decreases |events|
  {
    events != [] ==>
      && LossesNearACKs(w, events[..|events| - 1])
      && var v, e := Exec(w, events[..|events| - 1]), events[|events| - 1];
         e.BigLost? && e.size > v.t.min ==> v.bigAck.Some? && e.now - v.bigAck.value <= BLACK_HOLE_FLOOR
  }

  /** Congestion alone never lowers the estimate. */
  lemma {:induction false} NoFallbackNearACKs(min: int, max: int, period: int, events: seq<Event>)
    requires min <= max && LossesNearACKs(Init(min, max, period), events)
    ensures Exec(Init(min, max, period), events).dataFallbacks == 0
    decreases |events|
  {
    if events != [] {
      var before, e := events[..|events| - 1], events[|events| - 1];
      NoFallbackNearACKs(min, max, period, before);
      MtuStaysInRange(min, max, period, before);
      var v := Exec(Init(min, max, period), before);
      if e.BigLost? && e.size > min {
        assert !BlackHole(v.t.(largeLostSeen := true), e.now, e.srtt);
      }
    }
  }

  /** The announced deadline is neither early nor late. While searching it is a tenth of a second away;
      otherwise Probe issues after it and not before, and when none is announced, Probe never issues. */
  lemma DeadlineIssues(t: Tracker, asked: int, now: int)
    requires now > asked
    ensures match NextDeadline(t, asked)
            case None => !Issues(t, now)
            case Some(d) => if Searching(t) then Issues(t, now) && d == asked + 100_000_000 else Issues(t, now) <==> now > d
  {
  }

  // ---------------------------------------------------------------- convergence

  /** One probe and its answer on a path that carries exactly the sizes up to p. */
  function Round(t: Tracker, p: int, probeAt: int, verdictAt: int): Tracker {
    var t' := Probed(t, probeAt);
    if t'.lastProbe <= p then Acked(t', verdictAt) else Lost(t', verdictAt)
  }

  predicate Decides(t: Tracker, p: int) { (t.low + t.high + 1) / 2 <= p || t.searchLossCount == 2 }

  /** Rounds until the range is empty or the schedule ends. */
  function Rounds(t: Tracker, p: int, times: seq<(int, int)>): Tracker
    decreases |times|
  {
    if times == [] || !Searching(t) then t
    else Rounds(Round(t, p, times[0].0, times[0].1), p, times[1..])
  }

  /** How many of those rounds decided a size. */
  function Decided(t: Tracker, p: int, times: seq<(int, int)>): nat
    decreases |times|
  {
    if times == [] || !Searching(t) then 0
    else (if Decides(t, p) then 1 else 0) + Decided(Round(t, p, times[0].0, times[0].1), p, times[1..])
  }

  function Log2(n: nat): nat { if n <= 1 then 0 else 1 + Log2(n / 2) }

  /** The sizes a range of n candidates can still cost. */
  function Steps(n: int): nat { if n <= 0 then 0 else Log2(n) + 1 }

  lemma {:induction false} StepsMonotone(a: int, b: int)
    requires a <= b
    ensures Steps(a) <= Steps(b)
    decreases if b < 0 then 0 else b
  {
    if 1 < a {
      StepsMonotone(a / 2, b / 2);
    }
  }

  lemma StepsHalve(n: int)
    requires n >= 1
    ensures Steps(n / 2) + 1 == Steps(n)
  {
  }

  /** The search state: nothing outstanding, every size up to the estimate carried, every size
      above the range refused. */
  ghost predicate OnPath(t: Tracker, p: int) {
    && t.min < t.max && !t.probeSent && t.searchLossCount < 3
    && t.min <= t.mtu <= p && t.low == t.mtu + 1 && t.mtu <= t.max
    && t.high <= t.max && (t.high == t.max || p <= t.high) && t.low <= t.high + 1
  }

  lemma RoundHalves(t: Tracker, p: int, probeAt: int, verdictAt: int)
    requires OnPath(t, p) && Searching(t)
    ensures var t' := Round(t, p, probeAt, verdictAt);
            && OnPath(t', p) && t'.min == t.min && t'.max == t.max
            && (if Decides(t, p) then t'.high - t'.low + 1 <= (t.high - t.low + 1) / 2 && t'.searchLossCount == 0
                else t'.high == t.high && t'.low == t.low && t'.searchLossCount == t.searchLossCount + 1)
  {
  }

  /** The rounds still needed: three per size, less the losses already counted. */
  function Budget(t: Tracker): int { 3 * Steps(t.high - t.low + 1) - t.searchLossCount }

  lemma RoundSpends(t: Tracker, p: int, probeAt: int, verdictAt: int)
    requires OnPath(t, p) && Searching(t)
    ensures var t' := Round(t, p, probeAt, verdictAt);
            && OnPath(t', p) && t'.min == t.min && t'.max == t.max && (Searching(t') || t'.searchLossCount == 0)
            && Budget(t') <= Budget(t) - 1
            && (if Decides(t, p) then 1 else 0) + Steps(t'.high - t'.low + 1) <= Steps(t.high - t.low + 1)
  {
    var t' := Round(t, p, probeAt, verdictAt);
    RoundHalves(t, p, probeAt, verdictAt);
    HalvingSpends(t.high - t.low + 1, t'.high - t'.low + 1, Decides(t, p), t.searchLossCount, t'.searchLossCount);
  }

  lemma HalvingSpends(n: int, m: int, decided: bool, losses: nat, after: nat)
    requires n >= 1 && losses < 3
    requires if decided then m <= n / 2 && after == 0 else m == n && after == losses + 1
    ensures 3 * Steps(m) - after <= 3 * Steps(n) - losses - 1
    ensures (if decided then 1 else 0) + Steps(m) <= Steps(n)
  {
    StepsMonotone(m, if decided then n / 2 else n);
    StepsHalve(n);
  }

  lemma {:induction false} RoundsConverge(t: Tracker, p: int, times: seq<(int, int)>)
    requires OnPath(t, p) && (Searching(t) || t.searchLossCount == 0)
    ensures var t' := Rounds(t, p, times);
            && OnPath(t', p) && t'.min == t.min && t'.max == t.max
            && (|times| >= Budget(t) ==> !Searching(t'))
    decreases |times|
  {
    if times != [] && Searching(t) {
      RoundSpends(t, p, times[0].0, times[0].1);
      RoundsConverge(Round(t, p, times[0].0, times[0].1), p, times[1..]);
    }
  }

  lemma {:induction false} FewSizesAreDecided(t: Tracker, p: int, times: seq<(int, int)>)
    requires OnPath(t, p)
    ensures Decided(t, p, times) <= Steps(t.high - t.low + 1)
    decreases |times|
  {
    if times != [] && Searching(t) {
      RoundSpends(t, p, times[0].0, times[0].1);
      FewSizesAreDecided(Round(t, p, times[0].0, times[0].1), p, times[1..]);
    }
  }

  /** The search converges: on a path carrying exactly the sizes up to p, with each verdict
      answering the outstanding probe, at most floor(log2(max - min)) + 1 sizes are decided, and
      after three rounds for each of them the estimate is the smaller of p and max. */
  lemma SearchConverges(min: int, max: int, period: int, p: int, times: seq<(int, int)>)
    requires min < max && min <= p
    ensures var t := Rounds(New(min, max, period), p, times);
            && Decided(New(min, max, period), p, times) <= Log2(max - min) + 1
            && (!Searching(t) ==> t.mtu == Min(p, max))
            && (|times| >= 3 * (Log2(max - min) + 1) ==> !Searching(t))
  {
    RoundsConverge(New(min, max, period), p, times);
    FewSizesAreDecided(New(min, max, period), p, times);
  }

  // ---------------------------------------------------------------- down and up again

  /** Between two probes of a search that has counted no loss. */
  ghost predicate Ready(w: World) {
    !w.t.probeSent && Discoverable(w.t) && w.t.low == w.t.mtu + 1 && w.t.searchLossCount == 0
  }

  function Middle(w: World): int { (w.t.low + w.t.high + 1) / 2 }

  lemma ExecTwo(w: World, a: Event, b: Event)
    ensures Exec(w, [a, b]) == Step(Step(w, a), b)
  {
    assert [a, b][..1] == [a] && [a][..0] == [];
    assert Exec(w, [a]) == Step(w, a);
  }

  lemma {:induction false} ExecJoins(w: World, a: seq<Event>, b: seq<Event>)
    ensures Exec(w, a + b) == Exec(Exec(w, a), b)
    decreases |b|
  {
    if b == [] {
      assert a + b == a;
    } else {
      assert (a + b)[..|a + b| - 1] == a + b[..|b| - 1];
      ExecJoins(w, a, b[..|b| - 1]);
    }
  }

  /** An acknowledged search probe raises the estimate to the middle of the range. */
  lemma ProbeSucceeds(w: World, now: int) returns (es: seq<Event>)
    requires Ready(w) && Searching(w.t)
    ensures var v := Exec(w, es);
            && v.t.mtu == Middle(w) && v.t.high == w.t.high && v.t.min == w.t.min && v.t.max == w.t.max && Ready(v)
  {
    es := [ProbeAt(now), VerdictACK(now)];
    ExecTwo(w, ProbeAt(now), VerdictACK(now));
  }

  lemma ProbeFails(w: World, now: int) returns (es: seq<Event>)
    requires !w.t.probeSent && Discoverable(w.t) && w.t.low == w.t.mtu + 1 && Searching(w.t) && w.t.searchLossCount < 3
    ensures var v := Exec(w, es);
            && v.t.mtu == w.t.mtu && v.t.low == w.t.low && v.t.min == w.t.min && v.t.max == w.t.max && !v.t.probeSent
            && (if w.t.searchLossCount == 2 then v.t.high == Middle(w) - 1 && v.t.searchLossCount == 0
                else v.t.high == w.t.high && v.t.searchLossCount == w.t.searchLossCount + 1)
  {
    es := [ProbeAt(now), VerdictLost(now)];
    ExecTwo(w, ProbeAt(now), VerdictLost(now));
  }

  /** Three lost probes of one size bring the range below it. */
  lemma SizeFails(w: World, now: int) returns (es: seq<Event>)
    requires Ready(w) && Searching(w.t)
    ensures var v := Exec(w, es);
            && v.t.mtu == w.t.mtu && v.t.high == Middle(w) - 1 && v.t.min == w.t.min && v.t.max == w.t.max && Ready(v)
  {
    var a := ProbeFails(w, now);
    var b := ProbeFails(Exec(w, a), now);
    ExecJoins(w, a, b);
    var c := ProbeFails(Exec(w, a + b), now);
    ExecJoins(w, a + b, c);
    es := a + b + c;
  }

  /** A black hole: large packets stop being acknowledged while the peer stays active. */
  lemma HoleOpens(w: World) returns (es: seq<Event>)
    requires Discoverable(w.t) && w.t.mtu > w.t.min
    ensures var v := Exec(w, es);
            && v.t.mtu == w.t.min && v.t.high == w.t.max && v.t.min == w.t.min && v.t.max == w.t.max && Ready(v)
  {
    var late := 1 + 2 * SECOND;
    var a, b := [BigACK(w.t.mtu, 1), Activity(late)], [BigLost(w.t.mtu, late, 0)];
    ExecTwo(w, BigACK(w.t.mtu, 1), Activity(late));
    var v := Exec(w, a);
    assert Exec(v, b) == Step(v, BigLost(w.t.mtu, late, 0)) by { assert b[..0] == []; }
    assert BlackHole(v.t.(largeLostSeen := true), late, 0);
    ExecJoins(w, a, b);
    es := a + b;
  }

  /** The estimate can rise, fall to the base size once, and rise again in two steps to values below
      the first one. */
  lemma EstimateFallsAndRises(min: int, max: int, period: int)
      returns (up: seq<Event>, down: seq<Event>, again: seq<Event>, more: seq<Event>)
    requires min + 8 <= max
    ensures var high := (min + max + 2) / 2;
            var mid := (min + high + 1) / 2;
            var w1 := Exec(Init(min, max, period), up);
            var w2 := Exec(w1, down);
            var w3 := Exec(w2, again);
            var w4 := Exec(w3, more);
            && w1.t.mtu == high && w2.t.mtu == min && w3.t.mtu == mid && w4.t.mtu == (high + mid + 1) / 2
            && min < mid < (high + mid + 1) / 2 < high
  {
    var w0 := Init(min, max, period);
    up := ProbeSucceeds(w0, 1);
    var w1 := Exec(w0, up);
    down := HoleOpens(w1);
    var w2 := Exec(w1, down);
    var fails := SizeFails(w2, 1);
    var lower := Exec(w2, fails);
    var raise := ProbeSucceeds(lower, 1);
    ExecJoins(w2, fails, raise);
    again := fails + raise;
    more := ProbeSucceeds(Exec(w2, again), 1);
  }
}
