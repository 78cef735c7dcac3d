/** What the MTU tracker decides, told from the history of the run alone: when large packets and
    signs of life last came in, which probe is out, how many validations failed in a row, how often
    the search was reopened. */
module MtuHistories {
  import opened Common
  import opened MtuTrackers

  // ---------------------------------------------------------------- history

  /** The last acknowledgment of a packet above the base size since the estimate last fell; the last
      sign of life from the peer; the size of the last probe since the estimate last fell; whether
      the probe that is out, if one is, re-proves the estimate; the validations lost since one was
      acknowledged or led to a verdict; the reopenings of the search since the estimate last rose;
      when the search range ran empty; and since when the estimate counts as proven. */
  datatype Signs = Signs(
    large: Option<int>, life: Option<int>,
    probe: Option<int>, out: Option<bool>, strikes: nat,
    reopenings: nat, converged: Option<int>, proven: Option<int>)

  const SILENCE: Signs := Signs(None, None, None, None, 0, 0, None, None)

  predicate Fell(before: Tracker, after: Tracker) { after.mtu < before.mtu }

  /** The signs after a fall: only the sign of life and the reopenings are remembered. */
  function Forgotten(s: Signs): Signs { SILENCE.(life := s.life, reopenings := s.reopenings) }

  function AfterProbe(s: Signs, before: Tracker, after: Tracker, now: int): Signs {
    if !before.probeSent && after.probeSent then
      var validation := after.lastProbe == before.mtu;
      var reopening := !validation && s.converged.Some?;
      s.(probe := Some(after.lastProbe), out := Some(validation),
         proven := if validation then Some(now) else s.proven,
         reopenings := if reopening then s.reopenings + 1 else s.reopenings,
         converged := if reopening then None else s.converged)
    else s
  }

  /** The range ran empty for the first time since the search started or was reopened. */
  function Settled(s: Signs, after: Tracker, now: int): Signs {
    if after.low > after.high && s.converged.None? then
      s.(converged := Some(now), proven := if s.proven.None? then Some(now) else s.proven)
    else s
  }

  function AfterVerdict(s: Signs, before: Tracker, after: Tracker, acked: bool, now: int): Signs {
    if Fell(before, after) then Forgotten(s)
    else if s.out == Some(true) then s.(out := None, strikes := if acked || s.strikes == 2 then 0 else s.strikes + 1)
    else Settled(s.(out := None, reopenings := if after.mtu > before.mtu then 0 else s.reopenings), after, now)
  }

  function Noted(s: Signs, w: World, e: Event): Signs {
    var after := Step(w, e).t;
    match e
    case ProbeAt(now) => AfterProbe(s, w.t, after, now)
    case VerdictACK(now) => if w.probed then AfterVerdict(s, w.t, after, true, now) else s
    case VerdictLost(now) => if w.probed then AfterVerdict(s, w.t, after, false, now) else s
    case BigACK(size, now) => s.(life := Some(now), large := if size > w.t.min then Some(now) else s.large)
    case Activity(now) => s.(life := Some(now))
    case BigLost(_, _, _) => if Fell(w.t, after) then Forgotten(s) else s
  }

  function History(w: World, events: seq<Event>): Signs {
    if events == [] then SILENCE
    else Noted(History(w, events[..|events| - 1]), Exec(w, events[..|events| - 1]), events[|events| - 1])
  }

  // ---------------------------------------------------------------- what the tracker remembers

  function Stamp(t: Option<int>): int { match t case Some(v) => v case None => 0 }

  ghost predicate Stamped(t: Option<int>) { t.Some? ==> t.value != 0 }

  /** The detector of data losses. */
  ghost predicate Detects(t: Tracker, s: Signs) {
    && t.lastLargeACK == Stamp(s.large) && t.lastAnyACK == Stamp(s.life)
    && Stamped(s.large) && Stamped(s.life)
  }

  /** The probe that is out and the last one sent. */
  ghost predicate Probes(w: World, s: Signs) {
    && (w.t.probeSent <==> s.out.Some?) && (w.t.validating <==> s.out == Some(true))
    && w.t.validationLossCount == s.strikes < 3
    && (w.probed ==> match s.probe case Some(size) => w.t.lastProbe == size case None => w.t.lastProbe <= w.t.mtu)
    && (w.probed && w.t.lastProbe > w.t.mtu ==> w.t.lastProbe <= w.t.high + 1)
  }

  /** The timetable of a tracker that has something to discover. */
  ghost predicate Schedules(t: Tracker, s: Signs) {
    && t.reprobeBackoffCount == Min(6, s.reopenings)
    && (t.low > t.high <==> s.converged.Some?)
    && t.lastProbeConverged == Stamp(s.converged) && t.lastValidation == Stamp(s.proven)
    && (s.converged.Some? ==> s.proven.Some?)
    && Stamped(s.converged) && Stamped(s.proven)
  }

  ghost predicate Tracks(w: World, s: Signs) {
    Detects(w.t, s) && Probes(w, s) && (Discoverable(w.t) ==> Schedules(w.t, s))
  }

  function TimeOf(e: Event): int {
    match e
    case ProbeAt(now) => now
    case VerdictACK(now) => now
    case VerdictLost(now) => now
    case BigACK(_, now) => now
    case Activity(now) => now
    case BigLost(_, now, _) => now
  }

  /** No event happens at the unset time. */
  ghost predicate Clocked(events: seq<Event>) { forall e <- events :: TimeOf(e) != 0 }

  lemma ProbeTracks(w: World, s: Signs, now: int)
    requires RangeOk(w) && Tracks(w, s) && now != 0
    ensures Tracks(Step(w, ProbeAt(now)), Noted(s, w, ProbeAt(now)))
  {
    var t := w.t;
    if Issues(t, now) {
      var u := if Searching(t) then t else Reopened(t);
      assert u.low <= u.high ==> u.low <= (u.low + u.high + 1) / 2 <= u.high;
    }
  }

  lemma AckTracks(w: World, s: Signs, now: int)
    requires RangeOk(w) && Tracks(w, s) && now != 0
    ensures Tracks(Step(w, VerdictACK(now)), Noted(s, w, VerdictACK(now)))
  {
  }

  lemma ValidationLostTracks(w: World, s: Signs, now: int)
    requires RangeOk(w) && Tracks(w, s) && now != 0 && w.t.validating
    ensures Tracks(Step(w, VerdictLost(now)), Noted(s, w, VerdictLost(now)))
  {
  }

  lemma SearchLostTracks(w: World, s: Signs, now: int)
    requires RangeOk(w) && Tracks(w, s) && now != 0 && !w.t.validating && w.probed
    ensures Tracks(Step(w, VerdictLost(now)), Noted(s, w, VerdictLost(now)))
  {
    assert w.t.lastProbe > w.t.mtu && w.t.low > w.t.high ==> w.t.lastProbe - 1 == w.t.high;
  }

  lemma LostTracks(w: World, s: Signs, now: int)
    requires RangeOk(w) && Tracks(w, s) && now != 0
    ensures Tracks(Step(w, VerdictLost(now)), Noted(s, w, VerdictLost(now)))
  {
    if w.t.validating {
      ValidationLostTracks(w, s, now);
    } else if w.probed {
      SearchLostTracks(w, s, now);
    }
  }

  lemma DataTracks(w: World, s: Signs, e: Event)
    requires RangeOk(w) && Tracks(w, s) && TimeOf(e) != 0 && (e.BigACK? || e.Activity? || e.BigLost?)
    ensures Tracks(Step(w, e), Noted(s, w, e))
  {
  }

  lemma EventTracks(w: World, s: Signs, e: Event)
    requires RangeOk(w) && Tracks(w, s) && TimeOf(e) != 0
    ensures Tracks(Step(w, e), Noted(s, w, e))
  {
    match e
    case ProbeAt(now) => ProbeTracks(w, s, now);
    case VerdictACK(now) => AckTracks(w, s, now);
    case VerdictLost(now) => LostTracks(w, s, now);
    case BigACK(_, _) => DataTracks(w, s, e);
    case Activity(_) => DataTracks(w, s, e);
    case BigLost(_, _, _) => DataTracks(w, s, e);
  }

  lemma {:induction false} RunTracks(min: int, max: int, period: int, events: seq<Event>)
    requires min <= max && Clocked(events)
    ensures Tracks(Exec(Init(min, max, period), events), History(Init(min, max, period), events))
    decreases |events|
  {
    if events != [] {
      var before, e := events[..|events| - 1], events[|events| - 1];
      assert forall d <- before :: d in events;
      RunTracks(min, max, period, before);
      MtuStaysInRange(min, max, period, before);
      assert e in events;
      EventTracks(Exec(Init(min, max, period), before), History(Init(min, max, period), before), e);
    }
  }

  // ---------------------------------------------------------------- theorems

  /** How long silence about large packets lasts before it speaks, and how recent a sign of life must
      be: ten round trips, at least one second and at most thirty. */
  function Patience(srtt: int): int { Max(1_000_000_000, Min(30_000_000_000, 10 * srtt)) }

  /** Over every run: the loss of a packet lowers the estimate if and only if the packet and the
      estimate lie above the base, a large packet was acknowledged since the last fall but longer ago
      than the timeout, and the peer gave a sign of life within the timeout. */
  lemma LossLowersExactly(min: int, max: int, period: int, events: seq<Event>, size: int, now: int, srtt: int)
    requires min <= max && Clocked(events)
    ensures var w, s := Exec(Init(min, max, period), events), History(Init(min, max, period), events);
            var after := Step(w, BigLost(size, now, srtt)).t;
            (after.mtu < w.t.mtu
             <==> && size > min && w.t.mtu > min
                  && s.large.Some? && now - s.large.value > Patience(srtt)
                  && s.life.Some? && now - s.life.value <= Patience(srtt))
            && (after.mtu < w.t.mtu ==> after.mtu == min)
            && (after.mtu >= w.t.mtu ==> after.mtu == w.t.mtu)
            && after.fallbacks == (if after.mtu < w.t.mtu then w.t.fallbacks + 1 else w.t.fallbacks)
  {
    RunTracks(min, max, period, events);
    MtuStaysInRange(min, max, period, events);
    LossLowers(Exec(Init(min, max, period), events), History(Init(min, max, period), events), size, now, srtt);
  }

  lemma LossLowers(w: World, s: Signs, size: int, now: int, srtt: int)
    requires RangeOk(w) && Tracks(w, s)
    ensures var after := Step(w, BigLost(size, now, srtt)).t;
            (after.mtu < w.t.mtu
             <==> && size > w.t.min && w.t.mtu > w.t.min
                  && s.large.Some? && now - s.large.value > Patience(srtt)
                  && s.life.Some? && now - s.life.value <= Patience(srtt))
            && (after.mtu < w.t.mtu ==> after.mtu == w.t.min)
            && (after.mtu >= w.t.mtu ==> after.mtu == w.t.mtu)
            && after.fallbacks == (if after.mtu < w.t.mtu then w.t.fallbacks + 1 else w.t.fallbacks)
  {
  }

  /** Over every run: a lost probe lowers the estimate if and only if the probe that is out re-proves
      the estimate, two such probes were lost before it since one was acknowledged, and the estimate
      lies above the base, and if it is the base, that is counted instead; and an acknowledged one raises it to the size of the last probe since the
      last fall, if that is larger, unless it re-proves the estimate. */
  lemma VerdictsMoveExactly(min: int, max: int, period: int, events: seq<Event>, now: int)
    requires min <= max && Clocked(events) && Exec(Init(min, max, period), events).probed
    ensures var w, s := Exec(Init(min, max, period), events), History(Init(min, max, period), events);
            && Step(w, VerdictLost(now)).t.mtu
               == (if s.out == Some(true) && s.strikes == 2 then min else w.t.mtu)
            && Step(w, VerdictLost(now)).t.baseUnusable
               == (if s.out == Some(true) && s.strikes == 2 && w.t.mtu == min then w.t.baseUnusable + 1 else w.t.baseUnusable)
            && Step(w, VerdictACK(now)).t.mtu
               == (if s.out == Some(true) || s.probe.None? then w.t.mtu else Max(w.t.mtu, s.probe.value))
  {
    RunTracks(min, max, period, events);
    MtuStaysInRange(min, max, period, events);
    VerdictsMove(Exec(Init(min, max, period), events), History(Init(min, max, period), events), now);
  }

  lemma VerdictsMove(w: World, s: Signs, now: int)
    requires RangeOk(w) && Tracks(w, s) && w.probed
    ensures Step(w, VerdictLost(now)).t.mtu == (if s.out == Some(true) && s.strikes == 2 then w.t.min else w.t.mtu)
    ensures Step(w, VerdictLost(now)).t.baseUnusable
            == (if s.out == Some(true) && s.strikes == 2 && w.t.mtu == w.t.min then w.t.baseUnusable + 1 else w.t.baseUnusable)
    ensures Step(w, VerdictACK(now)).t.mtu
            == (if s.out == Some(true) || s.probe.None? then w.t.mtu else Max(w.t.mtu, s.probe.value))
  {
  }

  /** Over every run: with no probe out, a probe is sent if and only if the search range is not empty,
      or the estimate was proven more than a minute ago, or the estimate is below the limit and the
      range ran empty longer ago than the period, doubled for each reopening since the estimate last
      rose, up to six times; and it re-proves the estimate exactly in the second case. */
  lemma ProbesExactly(min: int, max: int, period: int, events: seq<Event>, now: int)
    requires min < max && Clocked(events)
    requires History(Init(min, max, period), events).out.None?
    ensures var w, s := Exec(Init(min, max, period), events), History(Init(min, max, period), events);
            var after := Step(w, ProbeAt(now)).t;
            var stale := s.converged.Some? && s.proven.Some? && now > s.proven.value + 60_000_000_000;
            var reopens := && s.converged.Some? && w.t.mtu < max
                           && now > s.converged.value + period * Pow2(Min(6, s.reopenings));
            && (after.probeSent <==> s.converged.None? || stale || reopens)
            && (after.probeSent ==> if stale then after.lastProbe == w.t.mtu else w.t.mtu < after.lastProbe <= max)
  {
    RunTracks(min, max, period, events);
    MtuStaysInRange(min, max, period, events);
    PeriodStays(min, max, period, events);
    ProbesOn(Exec(Init(min, max, period), events), History(Init(min, max, period), events), period, now);
  }

  lemma {:induction false} PeriodStays(min: int, max: int, period: int, events: seq<Event>)
    ensures Exec(Init(min, max, period), events).t.reProbeAfterConverged == period
    decreases |events|
  {
    if events != [] {
      PeriodStays(min, max, period, events[..|events| - 1]);
      StepKeepsPeriod(Exec(Init(min, max, period), events[..|events| - 1]), events[|events| - 1]);
    }
  }

  lemma StepKeepsPeriod(w: World, e: Event)
    ensures Step(w, e).t.reProbeAfterConverged == w.t.reProbeAfterConverged
  {
  }

  lemma ProbesOn(w: World, s: Signs, period: int, now: int)
    requires RangeOk(w) && Tracks(w, s) && Discoverable(w.t) && s.out.None? && w.t.reProbeAfterConverged == period
    ensures var after := Step(w, ProbeAt(now)).t;
            var stale := s.converged.Some? && s.proven.Some? && now > s.proven.value + 60_000_000_000;
            var reopens := && s.converged.Some? && w.t.mtu < w.t.max
                           && now > s.converged.value + period * Pow2(Min(6, s.reopenings));
            && (after.probeSent <==> s.converged.None? || stale || reopens)
            && (after.probeSent ==> if stale then after.lastProbe == w.t.mtu else w.t.mtu < after.lastProbe <= w.t.max)
  {
    var t := w.t;
    if Issues(t, now) {
      var u := if Searching(t) then t else Reopened(t);
      assert u.low <= u.high ==> u.low <= (u.low + u.high + 1) / 2 <= u.high;
    }
  }
}
