/** What the sent-packet handler decides, told from the history of the run alone: which numbers
    ACKs claimed, when the timer was set, how often it expired since, which samples were taken. */
module LossDetections {
  import opened Common
  import opened AckWire
  import opened AckHandlers
  import opened HandlerRuns
  import Rtts

  // ---------------------------------------------------------------- history

  /** The largest number that an ACK claims: the one before the end of its last range. */
  function Claim(rs: seq<Range>): nat
    requires rs != []
  {
    Sub64(rs[|rs| - 1].end, 1)
  }

  /** For the ranges that the peer can encode, the claim is the largest named number. */
  lemma ClaimIsLargest(rs: seq<Range>)
    requires Encodable(rs)
    ensures Names(rs, Claim(rs)) && forall n :: Names(rs, n) ==> n <= Claim(rs)
  {
    var last := |rs| - 1;
    assert Holds(rs[last], Claim(rs));
    forall n | Names(rs, n) ensures n <= Claim(rs) {
      var i :| 0 <= i < |rs| && Holds(rs[i], n);
      assert i < last ==> rs[i].end + 2 <= rs[last].begin;
    }
  }

  /** What one event makes the handler do. */
  function Done(h: Handler, e: Event): Outcome {
    match e
    case Send(p) => Outcome(OnSent(h, p), [], [], None, None, None, false)
    case Ack(now, rs, delay) =>
      if rs == [] then Outcome(h, [], [], None, None, None, false) else ReceiveACK(h, now, rs, delay)
    case Expire(now) =>
      if Due(h, now) then OnTimeout(h, now) else Outcome(h, [], [], None, None, None, false)
  }

  /** The ACK was accepted and acknowledged something. */
  predicate Counts(h: Handler, e: Event) { e.Ack? && Done(h, e).acked != [] }

  /** The calls that set the timer. */
  predicate Sets(h: Handler, e: Event) { e.Send? || Counts(h, e) || (e.Expire? && Due(h, e.now)) }

  function TimeOf(e: Event): int {
    match e
    case Send(p) => p.sentTime
    case Ack(now, _, _) => now
    case Expire(now) => now
  }

  /** The packet with the given number. */
  function Find(ps: seq<Packet>, pn: nat): (r: Option<Packet>)
    ensures r.Some? ==> r.value in ps && r.value.pn == pn
    ensures r.None? ==> forall p :: p in ps ==> p.pn != pn
  {
    if ps == [] then None
    else
      assert ps == ps[..|ps| - 1] + [ps[|ps| - 1]];
      if ps[|ps| - 1].pn == pn then Some(ps[|ps| - 1]) else Find(ps[..|ps| - 1], pn)
  }

  /** The claims of the ACKs that counted, the time of the call that last set the timer, the
      expiries that sent a packet again since the last ACK that counted, and a sample for each ACK
      that acknowledged the packet it claims. */
  datatype Past = Past(claims: set<nat>, setAt: int, probes: nat, samples: seq<Rtts.Sample>)

  const NOTHING: Past := Past({}, 0, 0, [])

  function Sampled(acked: seq<Packet>, e: Event): seq<Rtts.Sample>
    requires e.Ack? && e.rs != []
  {
    match Find(acked, Claim(e.rs))
    case Some(p) => [Rtts.Sample(e.now - p.sentTime, e.delay, e.now)]
    case None => []
  }

  function Noted(t: Past, h: Handler, e: Event): Past {
    var o := Done(h, e);
    Past(if Counts(h, e) then t.claims + {Claim(e.rs)} else t.claims,
         if Sets(h, e) then TimeOf(e) else t.setAt,
         if Counts(h, e) then 0 else if o.resent.Some? then t.probes + 1 else t.probes,
         if Counts(h, e) then t.samples + Sampled(o.acked, e) else t.samples)
  }

  function History(w: World, events: seq<Event>): Past {
    if events == [] then NOTHING
    else Noted(History(w, events[..|events| - 1]), Exec(w, events[..|events| - 1]).h, events[|events| - 1])
  }

  lemma StepIsDone(w: World, e: Event)
    ensures Step(w, e).h == Done(w.h, e).h
    ensures Step(w, e).acked == w.acked + multiset(Done(w.h, e).acked)
    ensures Step(w, e).sent == if e.Send? then w.sent + multiset{e.p} else w.sent
  {
  }

  // ---------------------------------------------------------------- the largest acknowledged number

  /** The largest of a set of numbers, and 0 for the empty set. */
  ghost predicate IsTop(n: nat, claims: set<nat>) {
    (forall m :: m in claims ==> m <= n) && (if claims == {} then n == 0 else n in claims)
  }

  /** A number at or below a claim. */
  ghost predicate Below(pn: nat, claims: set<nat>) { exists n :: n in claims && pn <= n }

  lemma TopBounds(n: nat, claims: set<nat>, pn: nat)
    requires IsTop(n, claims) && claims != {}
    ensures Below(pn, claims) <==> pn <= n
  {
  }

  lemma TopRises(n: nat, claims: set<nat>, m: nat)
    requires IsTop(n, claims)
    ensures IsTop(Max(n, m), claims + {m})
  {
  }

  lemma CountingAck(h: Handler, e: Event)
    requires Counts(h, e)
    ensures e.rs != [] && Taken(Named(e.rs), h.sent) != []
    ensures Done(h, e) == LossPass(AckPass(h, e.now, e.rs, e.delay), e.now, Taken(Named(e.rs), h.sent))
    ensures Claim(e.rs) <= h.largestSent
  {
  }

  /** An ACK that does not count changes the loss statistics only. */
  lemma IdleAck(h: Handler, e: Event)
    requires e.Ack? && !Counts(h, e)
    ensures Done(h, e).h == h.(loss := Done(h, e).h.loss)
    ensures Done(h, e).acked == [] && Done(h, e).lost == [] && Done(h, e).resent == None
  {
  }

  // ---------------------------------------------------------------- passes

  /** When the first outstanding packet at or below the top is due. */
  function FirstDue(ps: seq<Packet>, top: nat, delay: int): Option<int> {
    if ps == [] then None
    else
      match FirstDue(ps[..|ps| - 1], top, delay)
      case Some(t) => Some(t)
      case None => if ps[|ps| - 1].pn <= top then Some(ps[|ps| - 1].sentTime + delay) else None
  }

  lemma FirstDueSnoc(ps: seq<Packet>, p: Packet, top: nat, delay: int)
    ensures FirstDue(ps + [p], top, delay)
            == match FirstDue(ps, top, delay)
               case Some(t) => Some(t)
               case None => if p.pn <= top then Some(p.sentTime + delay) else None
  {
    assert (ps + [p])[..|ps|] == ps;
  }

  lemma KeptOne(v: Sieve, ps: seq<Packet>)
    requires ps != []
    ensures var front, last := ps[..|ps| - 1], ps[|ps| - 1];
            Kept(v, ps) == if Hit(v, last) then Kept(v, front) else Kept(v, front) + [last]
  {
  }

  lemma TakenOne(v: Sieve, ps: seq<Packet>)
    requires ps != []
    ensures var front, last := ps[..|ps| - 1], ps[|ps| - 1];
            Taken(v, ps) == if Hit(v, last) then Taken(v, front) + [last] else Taken(v, front)
  {
  }

  /** The next loss is that of the first packet that stays. */
  lemma {:induction false} NextLossIsFirstDue(ps: seq<Packet>, v: Sieve, delay: int)
    requires v.Late?
    ensures NextLoss(ps, v, delay) == FirstDue(Kept(v, ps), v.largestAcked, delay)
    decreases |ps|
  {
    if ps != [] {
      var front, last := ps[..|ps| - 1], ps[|ps| - 1];
      NextLossIsFirstDue(front, v, delay);
      FirstDueSnoc(Kept(v, front), last, v.largestAcked, delay);
      KeptOne(v, ps);
    }
  }

  /** It is due for the first packet in sending order that is at or below the top. */
  lemma {:induction false} FirstDueIsFirst(ps: seq<Packet>, top: nat, delay: int)
    ensures match FirstDue(ps, top, delay)
            case None => forall i :: 0 <= i < |ps| ==> ps[i].pn > top
            case Some(t) => exists i :: 0 <= i < |ps| && FirstAt(ps, i, top) && t == ps[i].sentTime + delay
    decreases |ps|
  {
    if ps != [] {
      var front := ps[..|ps| - 1];
      FirstDueIsFirst(front, top, delay);
      if FirstDue(front, top, delay).Some? {
        var i :| 0 <= i < |front| && FirstAt(front, i, top) && FirstDue(front, top, delay).value == front[i].sentTime + delay;
        assert FirstAt(ps, i, top);
      } else if ps[|ps| - 1].pn <= top {
        assert forall j :: 0 <= j < |front| ==> ps[j] == front[j];
        assert FirstAt(ps, |ps| - 1, top);
      }
    }
  }

  ghost predicate FirstAt(ps: seq<Packet>, i: nat, top: nat) {
    i < |ps| && ps[i].pn <= top && forall j :: 0 <= j < i ==> ps[j].pn > top
  }

  /** What a loss pass leaves: the loss time of the first packet that will be late. */
  ghost predicate Watched(h: Handler, t: Past) {
    h.lossTime == if t.claims == {} then None else FirstDue(h.sent, h.largestAcked, LossDelay(h.rtt))
  }

  /** The timer, when something is outstanding and no loss time is set: the time of the call that
      last set it, plus a delay that backs off with every expiry that re-sent a packet since the
      last ACK that counted. */
  ghost predicate Timed(h: Handler, t: Past) {
    h.sent != [] && h.lossTime.None? ==>
      h.timer == Some(t.setAt + h.rtt.srtt + Max(4 * h.rtt.rttvar, 1) + 25_000_000 * Pow2(t.probes))
  }

  lemma TimerFits(g: Handler, now: int, t: Past)
    requires Counted(g.out, g.sent) && AllShaped(g.sent)
    requires t.setAt == now && t.probes == g.ptoCount
    ensures Timed(SetTimer(g, now), t)
    ensures var s := SetTimer(g, now); s == g.(timer := s.timer)
  {
    OutstandingIsVisible(g.sent);
  }

  /** What the history tells of the handler. */
  ghost predicate Told(h: Handler, t: Past) {
    IsTop(h.largestAcked, t.claims) && Watched(h, t) && Timed(h, t) && h.ptoCount == t.probes
  }

  // ---------------------------------------------------------------- one event

  lemma SendTells(h: Handler, t: Past, p: Packet)
    requires Sound(h) && Shaped(p) && Told(h, t) && (t.claims != {} ==> p.pn > h.largestAcked)
    ensures Told(OnSent(h, p), t.(setAt := p.sentTime))
  {
    TotalSnoc(Flight, h.sent, p);
    TotalSnoc(Probes, h.sent, p);
    TotalSnoc(Exempt, h.sent, p);
    var g := h.(sent := h.sent + [p], out := More(h.out, p),
                largestSent := if p.pn > h.largestSent then p.pn else h.largestSent);
    assert AllShaped(g.sent);
    TimerFits(g, p.sentTime, t.(setAt := p.sentTime));
    FirstDueSnoc(h.sent, p, h.largestAcked, LossDelay(h.rtt));
  }

  lemma DetectTells(a: Handler, now: int)
    requires Counted(a.out, a.sent) && AllShaped(a.sent) && Remembered(a.loss)
    ensures var d := DetectLost(a, now);
            && Counted(d.out, d.sent) && AllShaped(d.sent)
            && d.lossTime == FirstDue(d.sent, d.largestAcked, LossDelay(d.rtt))
            && d.largestAcked == a.largestAcked && d.ptoCount == a.ptoCount
  {
    DetectKeeps(a, now);
    NextLossIsFirstDue(a.sent, LateSieve(a, now), LossDelay(a.rtt));
  }

  lemma SetTells(g: Handler, now: int, t: Past)
    requires Counted(g.out, g.sent) && AllShaped(g.sent)
    requires IsTop(g.largestAcked, t.claims) && Watched(g, t) && t.setAt == now && t.probes == g.ptoCount
    ensures Told(SetTimer(g, now), t)
  {
    TimerFits(g, now, t);
  }

  /** The end of a call that ran a loss pass. */
  lemma PassTells(a: Handler, count: nat, now: int, t: Past)
    requires Counted(a.out, a.sent) && AllShaped(a.sent) && Remembered(a.loss)
    requires IsTop(a.largestAcked, t.claims) && t.claims != {} && t.setAt == now && t.probes == count
    ensures Told(SetTimer(DetectLost(a, now).(ptoCount := count), now), t)
  {
    DetectTells(a, now);
    SetTells(DetectLost(a, now).(ptoCount := count), now, t);
  }

  lemma AckTells(h: Handler, t: Past, e: Event)
    requires Sound(h) && Told(h, t) && Counts(h, e)
    ensures Told(Done(h, e).h, Noted(t, h, e))
  {
    CountingAck(h, e);
    TopRises(h.largestAcked, t.claims, Claim(e.rs));
    SweepKeepsCounts(h.out, h.sent, Named(e.rs));
    SweepKeepsShapes(h.sent, Named(e.rs));
    PassTells(AckPass(h, e.now, e.rs, e.delay), 0, e.now, Noted(t, h, e));
  }

  lemma {:induction false} NoneBelowStays(ps: seq<Packet>, v: Sieve, top: nat, delay: int)
    requires FirstDue(ps, top, delay) == None
    ensures FirstDue(Kept(v, ps), top, delay) == None
    decreases |ps|
  {
    if ps != [] {
      var front, last := ps[..|ps| - 1], ps[|ps| - 1];
      NoneBelowStays(front, v, top, delay);
      FirstDueSnoc(Kept(v, front), last, top, delay);
      KeptOne(v, ps);
    }
  }

  lemma LossExpiryTells(h: Handler, t: Past, e: Event)
    requires Sound(h) && Told(h, t) && e.Expire? && Due(h, e.now) && h.lossTime.Some?
    ensures Told(Done(h, e).h, Noted(t, h, e))
  {
    PassTells(h, h.ptoCount, e.now, t.(setAt := e.now));
    assert DetectLost(h, e.now).(ptoCount := h.ptoCount) == DetectLost(h, e.now);
  }

  lemma SurvivorsAreRetransmittable(ps: seq<Packet>)
    ensures FirstRetransmittable(Kept(Hopeless, ps)).Some? <==> Kept(Hopeless, ps) != []
  {
    PassMembers(Hopeless, ps);
    if Kept(Hopeless, ps) != [] {
      assert Kept(Hopeless, ps)[0] in Kept(Hopeless, ps);
    }
  }

  /** The count of expiries rises exactly when a packet is sent again. */
  lemma ProbeCounts(h: Handler, now: int)
    ensures var o, g := OnProbeTimeout(h, now), GiveUp(h);
            o.h == SetTimer(g.(ptoCount := g.ptoCount + if o.resent.Some? then 1 else 0), now)
  {
    SurvivorsAreRetransmittable(h.sent);
    ProbeCases(h, GiveUp(h), now);
  }

  lemma ProbeCases(h: Handler, g: Handler, now: int)
    requires g == GiveUp(h) && (FirstRetransmittable(g.sent).Some? <==> g.sent != [])
    ensures var o := OnProbeTimeout(h, now);
            o.h == SetTimer(g.(ptoCount := g.ptoCount + if o.resent.Some? then 1 else 0), now)
  {
    assert g.(ptoCount := g.ptoCount + 0) == g;
  }

  lemma ProbeExpiryTells(h: Handler, t: Past, e: Event)
    requires Sound(h) && Told(h, t) && e.Expire? && Due(h, e.now) && h.lossTime.None?
    ensures Told(Done(h, e).h, Noted(t, h, e))
  {
    ProbeTells(h, t, e.now);
  }

  lemma ProbeTells(h: Handler, t: Past, now: int)
    requires Sound(h) && Told(h, t) && h.lossTime.None?
    ensures var o := OnProbeTimeout(h, now);
            Told(o.h, t.(setAt := now, probes := t.probes + if o.resent.Some? then 1 else 0)) && o.acked == []
  {
    var more := if OnProbeTimeout(h, now).resent.Some? then 1 else 0;
    ProbeCounts(h, now);
    GiveUpKeeps(h);
    var g := GiveUp(h).(ptoCount := h.ptoCount + more);
    if t.claims != {} {
      NoneBelowStays(h.sent, Hopeless, h.largestAcked, LossDelay(h.rtt));
    }
    TimerFits(g, now, t.(setAt := now, probes := h.ptoCount + more));
  }

  lemma EventTells(h: Handler, t: Past, e: Event)
    requires Sound(h) && Told(h, t)
    requires e.Send? ==> Shaped(e.p) && (t.claims != {} ==> e.p.pn > h.largestAcked)
    ensures Told(Done(h, e).h, Noted(t, h, e))
  {
    match e
    case Send(p) => SendTells(h, t, p);
    case Ack(_, _, _) =>
      if Counts(h, e) {
        AckTells(h, t, e);
      } else {
        IdleAck(h, e);
      }
    case Expire(now) =>
      if Due(h, now) {
        if h.lossTime.Some? {
          LossExpiryTells(h, t, e);
        } else {
          ProbeExpiryTells(h, t, e);
        }
      }
  }

  // ---------------------------------------------------------------- whole runs

  /** No claim reaches past what was sent, and only an acknowledged packet makes a claim. */
  ghost predicate Behind(w: World, t: Past) {
    && w.h.largestAcked <= w.h.largestSent
    && (w.h.largestSent == 0 || exists q :: q in w.sent && q.pn == w.h.largestSent)
    && (t.claims != {} ==> w.sent != multiset{})
  }

  lemma NewNumberIsAbove(w: World, t: Past, p: Packet)
    requires Behind(w, t) && forall q :: q in w.sent ==> q.pn < p.pn
    ensures t.claims != {} ==> p.pn > w.h.largestAcked
  {
    if t.claims != {} {
      var q :| q in w.sent;
      assert q.pn < p.pn;
    }
  }

  lemma SentSomething(w: World, e: Event)
    requires Balanced(w) && Counts(w.h, e)
    ensures w.sent != multiset{}
  {
    CountingAck(w.h, e);
    PassMembers(Named(e.rs), w.h.sent);
    var p := Taken(Named(e.rs), w.h.sent)[0];
    assert p in Taken(Named(e.rs), w.h.sent);
    assert p in multiset(w.h.sent);
  }

  lemma AckStaysBehind(h: Handler, e: Event)
    requires Counts(h, e) && h.largestAcked <= h.largestSent
    ensures Done(h, e).h.largestAcked <= Done(h, e).h.largestSent == h.largestSent
  {
    CountingAck(h, e);
  }

  lemma ExpiryLeaves(h: Handler, e: Event)
    requires e.Expire?
    ensures Done(h, e).h.largestAcked == h.largestAcked && Done(h, e).h.largestSent == h.largestSent
  {
    if h.lossTime.None? {
      ProbeCounts(h, e.now);
    }
  }

  lemma SendStaysBehind(w: World, t: Past, e: Event)
    requires Behind(w, t) && e.Send? && forall q :: q in w.sent ==> q.pn < e.p.pn
    ensures Behind(Step(w, e), Noted(t, w.h, e))
  {
    assert e.p in Step(w, e).sent;
  }

  lemma StepStaysBehind(w: World, t: Past, e: Event)
    requires Behind(w, t) && Balanced(w)
    requires e.Send? ==> forall q :: q in w.sent ==> q.pn < e.p.pn
    ensures Behind(Step(w, e), Noted(t, w.h, e))
  {
    if e.Send? {
      SendStaysBehind(w, t, e);
    } else {
      StepIsDone(w, e);
      NotedClaims(t, w.h, e);
      if Counts(w.h, e) {
        SentSomething(w, e);
        AckStaysBehind(w.h, e);
      } else if e.Ack? {
        IdleAck(w.h, e);
      } else {
        ExpiryLeaves(w.h, e);
      }
    }
  }

  lemma {:induction false} RunsTell(rtt: Rtts.Rtt, events: seq<Event>)
    requires Proper(Init(rtt), events)
    ensures Told(Exec(Init(rtt), events).h, History(Init(rtt), events))
    ensures Behind(Exec(Init(rtt), events), History(Init(rtt), events))
    decreases |events|
  {
    if events != [] {
      var before, e := events[..|events| - 1], events[|events| - 1];
      RunsTell(rtt, before);
      RunsKeep(rtt, before);
      var w, t := Exec(Init(rtt), before), History(Init(rtt), before);
      StepIsDone(w, e);
      if e.Send? {
        NewNumberIsAbove(w, t, e.p);
      }
      EventTells(w.h, t, e);
      StepStaysBehind(w, t, e);
    }
  }

  // ---------------------------------------------------------------- the largest acknowledged number

  /** Every ACK of the run is one that the peer can encode. */
  ghost predicate Orderly(events: seq<Event>) {
    forall e <- events :: e.Ack? ==> Encodable(e.rs)
  }

  /** Event i is an ACK that was accepted and acknowledged something. */
  ghost predicate CountsAt(w: World, events: seq<Event>, i: nat) {
    i < |events| && Counts(Exec(w, events[..i]).h, events[i])
  }

  ghost predicate Makes(w: World, events: seq<Event>, i: nat, n: nat) {
    CountsAt(w, events, i) && Claim(events[i].rs) == n
  }

  ghost predicate Made(w: World, events: seq<Event>, n: nat) { exists i: nat :: Makes(w, events, i, n) }

  lemma {:induction false} ClaimsAreMade(w: World, events: seq<Event>, n: nat)
    ensures n in History(w, events).claims <==> Made(w, events, n)
    decreases |events|
  {
    if events == [] {
    } else {
      ClaimsAreMade(w, events[..|events| - 1], n);
      HistoryClaims(w, events, n);
      MadeEarlier(w, events, n);
      MakesLast(w, events, n);
    }
  }

  lemma HistoryClaims(w: World, events: seq<Event>, n: nat)
    requires events != []
    ensures var before, e := events[..|events| - 1], events[|events| - 1];
            n in History(w, events).claims
            <==> n in History(w, before).claims || (Counts(Exec(w, before).h, e) && Claim(e.rs) == n)
  {
    var before, e := events[..|events| - 1], events[|events| - 1];
    NotedClaims(History(w, before), Exec(w, before).h, e);
  }

  lemma MakesEarlier(w: World, events: seq<Event>, i: nat, n: nat)
    requires i < |events| - 1
    ensures Makes(w, events[..|events| - 1], i, n) <==> Makes(w, events, i, n)
  {
    assert events[..|events| - 1][..i] == events[..i];
  }

  lemma MakesLast(w: World, events: seq<Event>, n: nat)
    requires events != []
    ensures var before, e := events[..|events| - 1], events[|events| - 1];
            Makes(w, events, |events| - 1, n) <==> Counts(Exec(w, before).h, e) && Claim(e.rs) == n
  {
  }

  lemma MadeEarlier(w: World, events: seq<Event>, n: nat)
    requires events != []
    ensures Made(w, events, n) <==> Made(w, events[..|events| - 1], n) || Makes(w, events, |events| - 1, n)
  {
    if Made(w, events, n) {
      var i: nat :| Makes(w, events, i, n);
      if i < |events| - 1 {
        MakesEarlier(w, events, i, n);
      }
    }
    if Made(w, events[..|events| - 1], n) {
      var i: nat :| Makes(w, events[..|events| - 1], i, n);
      MakesEarlier(w, events, i, n);
    }
  }

  lemma NotedClaims(t: Past, h: Handler, e: Event)
    ensures forall n :: n in Noted(t, h, e).claims <==> n in t.claims || (Counts(h, e) && n == Claim(e.rs))
  {
  }

  /** After every run largestAcked is the largest number named by an ACK that was accepted and
      acknowledged something, and 0 if there was none. */
  lemma LargestAckedIsLargestNamed(rtt: Rtts.Rtt, events: seq<Event>)
    requires Proper(Init(rtt), events) && Orderly(events)
    ensures var n := Exec(Init(rtt), events).h.largestAcked;
            && (forall i: nat, m: nat :: CountsAt(Init(rtt), events, i) && Names(events[i].rs, m) ==> m <= n)
            && if exists i: nat :: CountsAt(Init(rtt), events, i)
               then exists i: nat :: CountsAt(Init(rtt), events, i) && Names(events[i].rs, n)
               else n == 0
  {
    RunsTell(rtt, events);
    var w := Init(rtt);
    var n := Exec(w, events).h.largestAcked;
    forall i: nat, m: nat | CountsAt(w, events, i) && Names(events[i].rs, m) ensures m <= n {
      NamedIsBelow(rtt, events, i, m);
    }
    if i: nat :| CountsAt(w, events, i) {
      assert Makes(w, events, i, Claim(events[i].rs));
      ClaimsAreMade(w, events, Claim(events[i].rs));
      ClaimsAreMade(w, events, n);
      var k: nat :| Makes(w, events, k, n);
      ClaimIsLargest(events[k].rs);
    } else {
      NoClaims(w, events);
    }
  }

  lemma NamedIsBelow(rtt: Rtts.Rtt, events: seq<Event>, i: nat, m: nat)
    requires Proper(Init(rtt), events) && Orderly(events)
    requires CountsAt(Init(rtt), events, i) && Names(events[i].rs, m)
    ensures m <= Exec(Init(rtt), events).h.largestAcked
  {
    RunsTell(rtt, events);
    ClaimIsLargest(events[i].rs);
    assert Makes(Init(rtt), events, i, Claim(events[i].rs));
    ClaimsAreMade(Init(rtt), events, Claim(events[i].rs));
  }

  lemma NoClaims(w: World, events: seq<Event>)
    requires forall i: nat :: !CountsAt(w, events, i)
    ensures History(w, events).claims == {}
  {
    forall n: nat ensures n !in History(w, events).claims {
      assert forall i: nat :: !Makes(w, events, i, n);
      ClaimsAreMade(w, events, n);
    }
  }

  lemma RefusedByNumber(h: Handler, e: Event)
    requires e.Ack? && e.rs != []
    ensures Done(h, e).failed <==> Claim(e.rs) > h.largestSent
    ensures Done(h, e).failed ==> Done(h, e).h == h
  {
  }

  /** Every number sent is at most the largest one that the handler remembers. */
  lemma {:induction false} LargestSentIsLargest(rtt: Rtts.Rtt, events: seq<Event>, q: Packet)
    requires Proper(Init(rtt), events) && q in Exec(Init(rtt), events).sent
    ensures q.pn <= Exec(Init(rtt), events).h.largestSent
    decreases |events|
  {
    var before, e := events[..|events| - 1], events[|events| - 1];
    var w := Exec(Init(rtt), before);
    StepIsDone(w, e);
    if e.Send? {
      if q in w.sent {
        LargestSentIsLargest(rtt, before, q);
      }
    } else {
      LargestSentIsLargest(rtt, before, q);
      LargestSentStays(w.h, e);
    }
  }

  lemma LargestSentStays(h: Handler, e: Event)
    requires !e.Send?
    ensures Done(h, e).h.largestSent == h.largestSent
  {
    if e.Expire? {
      ExpiryLeaves(h, e);
    } else if Counts(h, e) {
      CountingAck(h, e);
    } else {
      IdleAck(h, e);
    }
  }

  /** Over every run an ACK is refused, and then changes nothing, if and only if it claims a number
      above 0 and above every number sent. */
  lemma AckIsRefusedExactly(rtt: Rtts.Rtt, events: seq<Event>, e: Event)
    requires Proper(Init(rtt), events) && e.Ack? && e.rs != []
    ensures var w := Exec(Init(rtt), events);
            && (Done(w.h, e).failed <==> Claim(e.rs) > 0 && forall q :: q in w.sent ==> q.pn < Claim(e.rs))
            && (Done(w.h, e).failed ==> Done(w.h, e).h == w.h)
  {
    RunsTell(rtt, events);
    var w := Exec(Init(rtt), events);
    RefusedByNumber(w.h, e);
    forall q | q in w.sent ensures q.pn <= w.h.largestSent {
      LargestSentIsLargest(rtt, events, q);
    }
  }

  // ---------------------------------------------------------------- losses

  /** How long a packet may stay unacknowledged below an acknowledged one: 9/8 of the larger of the
      last and the smoothed round trip, and at least a millisecond. */
  function Patience(r: Rtts.Rtt): int { Max(Rtts.Quotient(9 * Max(r.latestRTT, r.srtt), 8), 1_000_000) }

  /** The loss time is the time when the first outstanding packet at or below a claim runs out of
      patience, and is not set when there is none. */
  ghost predicate DueFirst(h: Handler, claims: set<nat>) {
    match h.lossTime
    case None => forall i :: 0 <= i < |h.sent| ==> !Below(h.sent[i].pn, claims)
    case Some(t) =>
      exists i :: && 0 <= i < |h.sent| && Below(h.sent[i].pn, claims) && t == h.sent[i].sentTime + Patience(h.rtt)
                  && forall j :: 0 <= j < i ==> !Below(h.sent[j].pn, claims)
  }

  /** After every run the loss time is that of the first packet at or below a claim. */
  lemma LossTimeExactly(rtt: Rtts.Rtt, events: seq<Event>)
    requires Proper(Init(rtt), events)
    ensures DueFirst(Exec(Init(rtt), events).h, History(Init(rtt), events).claims)
  {
    RunsTell(rtt, events);
    FirstIsWatched(Exec(Init(rtt), events).h, History(Init(rtt), events));
  }

  lemma FirstIsWatched(h: Handler, t: Past)
    requires IsTop(h.largestAcked, t.claims) && Watched(h, t)
    ensures DueFirst(h, t.claims)
  {
    if t.claims != {} {
      FirstDueIsFirst(h.sent, h.largestAcked, Patience(h.rtt));
      forall i | 0 <= i < |h.sent| ensures Below(h.sent[i].pn, t.claims) <==> h.sent[i].pn <= h.largestAcked {
        TopBounds(h.largestAcked, t.claims, h.sent[i].pn);
      }
    }
  }

  /** The verdict of a loss pass on what was outstanding before it. */
  ghost predicate Judged(before: seq<Packet>, o: Outcome, claims: set<nat>, now: int) {
    && (forall p :: p in o.lost <==> p in before && Below(p.pn, claims) && now - p.sentTime >= Patience(o.h.rtt))
    && (forall p :: p in o.h.sent <==> p in before && !(Below(p.pn, claims) && now - p.sentTime >= Patience(o.h.rtt)))
  }

  lemma PassJudges(h: Handler, now: int, claims: set<nat>)
    requires IsTop(h.largestAcked, claims) && claims != {}
    ensures forall p :: p in Taken(LateSieve(h, now), h.sent)
                        <==> p in h.sent && Below(p.pn, claims) && now - p.sentTime >= Patience(h.rtt)
    ensures forall p :: p in Kept(LateSieve(h, now), h.sent)
                        <==> p in h.sent && !(Below(p.pn, claims) && now - p.sentTime >= Patience(h.rtt))
  {
    PassMembers(LateSieve(h, now), h.sent);
    forall p | p in h.sent ensures Below(p.pn, claims) <==> p.pn <= h.largestAcked {
      TopBounds(h.largestAcked, claims, p.pn);
    }
  }

  /** An ACK that counts declares lost exactly the packets that it does not name, that lie at or
      below a claim, its own included, and that were sent at least a loss delay ago. */
  lemma AckDeclaresExactly(rtt: Rtts.Rtt, events: seq<Event>, e: Event)
    requires Proper(Init(rtt), events) && Counts(Exec(Init(rtt), events).h, e)
    ensures var h := Exec(Init(rtt), events).h;
            Judged(Kept(Named(e.rs), h.sent), Done(h, e), History(Init(rtt), events).claims + {Claim(e.rs)}, e.now)
  {
    RunsTell(rtt, events);
    var h, claims := Exec(Init(rtt), events).h, History(Init(rtt), events).claims;
    AckJudges(h, e, claims);
  }

  lemma AckJudges(h: Handler, e: Event, claims: set<nat>)
    requires IsTop(h.largestAcked, claims) && Counts(h, e)
    ensures Judged(Kept(Named(e.rs), h.sent), Done(h, e), claims + {Claim(e.rs)}, e.now)
  {
    CountingAck(h, e);
    TopRises(h.largestAcked, claims, Claim(e.rs));
    PassJudges(AckPass(h, e.now, e.rs, e.delay), e.now, claims + {Claim(e.rs)});
  }

  /** An expiry of the loss time declares lost exactly the packets that lie at or below a claim and
      were sent at least a loss delay ago. */
  lemma ExpiryDeclaresExactly(rtt: Rtts.Rtt, events: seq<Event>, now: int)
    requires Proper(Init(rtt), events) && Exec(Init(rtt), events).h.lossTime.Some?
    ensures var h := Exec(Init(rtt), events).h;
            Judged(h.sent, OnTimeout(h, now), History(Init(rtt), events).claims, now)
  {
    RunsTell(rtt, events);
    ExpiryJudges(Exec(Init(rtt), events).h, now, History(Init(rtt), events).claims);
  }

  lemma ExpiryJudges(h: Handler, now: int, claims: set<nat>)
    requires IsTop(h.largestAcked, claims) && claims != {} && h.lossTime.Some?
    ensures Judged(h.sent, OnTimeout(h, now), claims, now)
  {
    PassJudges(h, now, claims);
  }

  /** What was acknowledged lies at or below a claim. */
  lemma {:induction false} AcknowledgedIsBelow(rtt: Rtts.Rtt, events: seq<Event>, q: Packet)
    requires Orderly(events) && q in Exec(Init(rtt), events).acked
    ensures Below(q.pn, History(Init(rtt), events).claims)
    decreases |events|
  {
    var before, e := events[..|events| - 1], events[|events| - 1];
    assert forall d <- before :: d in events;
    var w := Exec(Init(rtt), before);
    StepIsDone(w, e);
    if q in w.acked {
      AcknowledgedIsBelow(rtt, before, q);
    } else {
      AckedIsNamed(w.h, e, q);
    }
  }

  lemma AckedIsNamed(h: Handler, e: Event, q: Packet)
    requires q in multiset(Done(h, e).acked) && (e.Ack? ==> Encodable(e.rs))
    ensures Counts(h, e) && q.pn <= Claim(e.rs)
  {
    if e.Expire? {
      TimeoutDraws(h, e.now);
    } else {
      AckDraws(h, e.now, e.rs, e.delay);
      ClaimIsLargest(e.rs);
    }
  }

  /** Right after an ACK that counts, no outstanding packet numbered at or below an acknowledged one
      is a loss delay old; and after every run, a loss time is set when such a packet is out. */
  lemma NothingLateAfterAck(rtt: Rtts.Rtt, events: seq<Event>, e: Event, p: Packet, q: Packet)
    requires Proper(Init(rtt), events + [e]) && Orderly(events + [e])
    requires p in Exec(Init(rtt), events + [e]).h.sent && q in Exec(Init(rtt), events + [e]).acked && p.pn <= q.pn
    ensures var h := Exec(Init(rtt), events + [e]).h;
            && h.lossTime.Some?
            && (Counts(Exec(Init(rtt), events).h, e) ==> e.now - p.sentTime < Patience(h.rtt))
  {
    var all := events + [e];
    assert all[..|events|] == events;
    AcknowledgedIsBelow(rtt, all, q);
    LossTimeExactly(rtt, all);
    StepIsDone(Exec(Init(rtt), events), e);
    if Counts(Exec(Init(rtt), events).h, e) {
      AckDeclaresExactly(rtt, events, e);
    }
  }

  // ---------------------------------------------------------------- the timer

  /** After every run the timer backs off exactly as the history says. */
  lemma TimerExactly(rtt: Rtts.Rtt, events: seq<Event>)
    requires Proper(Init(rtt), events)
    ensures Timed(Exec(Init(rtt), events).h, History(Init(rtt), events))
    ensures Exec(Init(rtt), events).h.timer.Some? <==> Exec(Init(rtt), events).h.sent != []
  {
    RunsTell(rtt, events);
    RunsKeep(rtt, events);
  }

  // ---------------------------------------------------------------- round-trip samples

  ghost predicate Sorted(ps: seq<Packet>) {
    forall i, j :: 0 <= i < j < |ps| ==> ps[i].pn < ps[j].pn
  }

  lemma {:induction false} PassSorts(v: Sieve, ps: seq<Packet>)
    requires Sorted(ps)
    ensures Sorted(Taken(v, ps)) && Sorted(Kept(v, ps))
    decreases |ps|
  {
    if ps != [] {
      var front, last := ps[..|ps| - 1], ps[|ps| - 1];
      PassSorts(v, front);
      PassMembers(v, front);
      TakenOne(v, ps);
      KeptOne(v, ps);
      assert forall p <- front :: p.pn < last.pn;
      SortedSnoc(Taken(v, front), last);
      SortedSnoc(Kept(v, front), last);
    }
  }

  lemma SortedSnoc(ps: seq<Packet>, p: Packet)
    requires Sorted(ps) && forall q <- ps :: q.pn < p.pn
    ensures Sorted(ps + [p])
  {
  }

  lemma AckSorts(h: Handler, e: Event)
    requires Sorted(h.sent) && Counts(h, e)
    ensures Sorted(Done(h, e).h.sent) && Sorted(Taken(Named(e.rs), h.sent))
  {
    CountingAck(h, e);
    PassSorts(Named(e.rs), h.sent);
    var a := AckPass(h, e.now, e.rs, e.delay);
    PassSorts(LateSieve(a, e.now), a.sent);
  }

  lemma EventSorts(h: Handler, e: Event)
    requires Sorted(h.sent) && (e.Send? ==> forall q <- h.sent :: q.pn < e.p.pn)
    ensures Sorted(Done(h, e).h.sent)
  {
    match e
    case Send(_) =>
    case Ack(_, _, _) =>
      if Counts(h, e) {
        AckSorts(h, e);
      } else {
        IdleAck(h, e);
      }
    case Expire(now) =>
      TimeoutSweeps(h, now);
      PassSorts(TimeoutSieve(h, now), h.sent);
  }

  /** The last packet of a sorted list has a number that none exceeds exactly when it is in the list. */
  lemma FindIsLast(ps: seq<Packet>, claim: nat)
    requires ps != [] && Sorted(ps) && forall p <- ps :: p.pn <= claim
    ensures Find(ps, claim) == if ps[|ps| - 1].pn == claim then Some(ps[|ps| - 1]) else None
  {
    var r := Find(ps, claim);
    if r.Some? {
      var i :| 0 <= i < |ps| && ps[i] == r.value;
      assert i < |ps| - 1 ==> ps[i].pn < ps[|ps| - 1].pn;
    }
  }

  lemma AckSamples(h: Handler, e: Event)
    requires Sorted(h.sent) && Counts(h, e) && Encodable(e.rs)
    ensures Credited(h.rtt, Done(h, e).h.rtt, Sampled(Done(h, e).acked, e))
  {
    CountingAck(h, e);
    AckSorts(h, e);
    var acked := Taken(Named(e.rs), h.sent);
    AckMeasures(h, e, acked, Done(h, e));
    forall p <- acked ensures p.pn <= Claim(e.rs) {
      AckedIsNamed(h, e, p);
    }
    SampleIsMeasured(h.rtt, acked, e);
  }

  /** The estimator after at most one sample. */
  ghost predicate Credited(r: Rtts.Rtt, after: Rtts.Rtt, samples: seq<Rtts.Sample>) {
    if samples == [] then after == r
    else |samples| == 1 && after == Rtts.Updated(r, samples[0].measured, samples[0].ackDelay, samples[0].now)
  }

  lemma SampleIsMeasured(r: Rtts.Rtt, acked: seq<Packet>, e: Event)
    requires e.Ack? && e.rs != [] && acked != [] && Sorted(acked) && forall p <- acked :: p.pn <= Claim(e.rs)
    ensures Credited(r, Measured(r, acked, Claim(e.rs), e.now, e.delay), Sampled(acked, e))
  {
    FindIsLast(acked, Claim(e.rs));
  }

  lemma AckMeasures(h: Handler, e: Event, acked: seq<Packet>, o: Outcome)
    requires e.Ack? && e.rs != [] && acked == Taken(Named(e.rs), h.sent) && acked != []
    requires o == LossPass(AckPass(h, e.now, e.rs, e.delay), e.now, acked)
    ensures o.acked == acked && o.h.rtt == Measured(h.rtt, acked, Claim(e.rs), e.now, e.delay)
  {
  }

  lemma FoldOne(r: Rtts.Rtt, samples: seq<Rtts.Sample>, s: Rtts.Sample)
    ensures Rtts.Fold(r, samples + [s]) == Rtts.Updated(Rtts.Fold(r, samples), s.measured, s.ackDelay, s.now)
  {
    assert (samples + [s])[..|samples|] == samples;
  }

  /** What is outstanding stays in the order of sending. */
  lemma {:induction false} SentStaysSorted(rtt: Rtts.Rtt, events: seq<Event>)
    requires Proper(Init(rtt), events)
    ensures Sorted(Exec(Init(rtt), events).h.sent)
    decreases |events|
  {
    if events != [] {
      var before, e := events[..|events| - 1], events[|events| - 1];
      SentStaysSorted(rtt, before);
      RunsKeep(rtt, before);
      var w := Exec(Init(rtt), before);
      StepIsDone(w, e);
      if e.Send? {
        assert forall q <- w.h.sent :: q in multiset(w.h.sent);
      }
      EventSorts(w.h, e);
    }
  }

  /** After every run of ACKs that the peer can encode, the estimator has been given one sample for
      each ACK that acknowledged the packet with the largest number it names, and nothing else. */
  lemma {:induction false} RttIsFold(rtt: Rtts.Rtt, events: seq<Event>)
    requires Proper(Init(rtt), events) && Orderly(events)
    ensures Exec(Init(rtt), events).h.rtt == Rtts.Fold(rtt, History(Init(rtt), events).samples)
    decreases |events|
  {
    if events != [] {
      var before, e := events[..|events| - 1], events[|events| - 1];
      assert forall d <- before :: d in events;
      RttIsFold(rtt, before);
      SentStaysSorted(rtt, before);
      StepIsDone(Exec(Init(rtt), before), e);
      EventSamples(rtt, Exec(Init(rtt), before).h, History(Init(rtt), before), e);
    }
  }

  lemma EventSamples(rtt: Rtts.Rtt, h: Handler, t: Past, e: Event)
    requires Sorted(h.sent) && h.rtt == Rtts.Fold(rtt, t.samples) && (e.Ack? ==> Encodable(e.rs))
    ensures Done(h, e).h.rtt == Rtts.Fold(rtt, Noted(t, h, e).samples)
  {
    if Counts(h, e) {
      AckSamples(h, e);
      var samples := Sampled(Done(h, e).acked, e);
      if samples != [] {
        assert samples == [samples[0]];
        FoldOne(rtt, t.samples, samples[0]);
      } else {
        assert t.samples + samples == t.samples;
      }
    } else if e.Ack? {
      IdleAck(h, e);
    } else if e.Expire? && h.lossTime.None? {
      ProbeCounts(h, e.now);
    }
  }

  // ---------------------------------------------------------------- the packet sent again

  lemma {:induction false} FirstIsHead(ps: seq<Packet>)
    requires ps != [] && forall p <- ps :: p.retransmittable
    ensures FirstRetransmittable(ps) == Some(ps[0])
    decreases |ps|
  {
    if |ps| == 1 {
      assert ps[0] in ps;
      assert FirstRetransmittable(ps[..0]) == None;
    } else {
      assert forall p <- ps[..|ps| - 1] :: p in ps;
      FirstIsHead(ps[..|ps| - 1]);
    }
  }

  lemma HeadIsLeast(ps: seq<Packet>, p: Packet)
    requires Sorted(ps) && p in ps
    ensures ps[0].pn <= p.pn
  {
    var i :| 0 <= i < |ps| && ps[i] == p;
    assert i > 0 ==> ps[0].pn < ps[i].pn;
  }

  /** What a probe timeout does with what is outstanding: it gives up exactly the packets that
      nothing re-sends, and re-sends the one with the least number of the others. */
  ghost predicate Probed(sent: seq<Packet>, lost: seq<Packet>, resent: Option<Packet>) {
    && (forall p :: p in lost <==> p in sent && !p.retransmittable)
    && match resent
       case None => forall p :: p in sent ==> !p.retransmittable
       case Some(r) => r in sent && r.retransmittable && forall p :: p in sent && p.retransmittable ==> r.pn <= p.pn
  }

  lemma ProbeResendsOldest(rtt: Rtts.Rtt, events: seq<Event>, now: int)
    requires Proper(Init(rtt), events) && Exec(Init(rtt), events).h.lossTime.None?
    ensures var h := Exec(Init(rtt), events).h;
            Probed(h.sent, OnTimeout(h, now).lost, OnTimeout(h, now).resent)
  {
    RunsKeep(rtt, events);
    SentStaysSorted(rtt, events);
    OldestGoes(Exec(Init(rtt), events).h, now);
  }

  lemma OldestGoes(h: Handler, now: int)
    requires Sound(h) && Sorted(h.sent) && h.lossTime.None?
    ensures Probed(h.sent, OnTimeout(h, now).lost, OnTimeout(h, now).resent)
  {
    var o := OnTimeout(h, now);
    ProbeChooses(h, now);
    HeadIsOldest(h.sent);
  }

  lemma ProbeChooses(h: Handler, now: int)
    requires Sound(h) && h.lossTime.None?
    ensures var o := OnTimeout(h, now);
            && o.lost == Taken(Hopeless, h.sent)
            && o.resent == FirstRetransmittable(Kept(Hopeless, h.sent))
  {
    var g := GiveUp(h);
    GiveUpKeeps(h);
    PassMembers(Hopeless, h.sent);
    if g.sent == [] {
      assert FirstRetransmittable(g.sent) == None;
    } else {
      NoExempt(g.sent);
      OutstandingIsVisible(g.sent);
    }
  }

  lemma HeadIsOldest(ps: seq<Packet>)
    requires Sorted(ps)
    ensures Probed(ps, Taken(Hopeless, ps), FirstRetransmittable(Kept(Hopeless, ps)))
  {
    PassMembers(Hopeless, ps);
    PassSorts(Hopeless, ps);
    var rest := Kept(Hopeless, ps);
    if rest != [] {
      FirstIsHead(rest);
      assert rest[0] in rest;
      forall p | p in rest ensures rest[0].pn <= p.pn {
        HeadIsLeast(rest, p);
      }
    }
  }

  // ---------------------------------------------------------------- what congestion control is told

  /** The bytes of the packets that need a window. */
  function WindowBytes(ps: seq<Packet>): int {
    if ps == [] then 0
    else
      var last := ps[|ps| - 1];
      WindowBytes(ps[..|ps| - 1]) + (if last.exempt then 0 else last.size)
  }

  lemma {:induction false} FlightIsWindowBytes(ps: seq<Packet>)
    ensures Total(Flight, ps) == WindowBytes(ps)
    ensures Total(Controlled, ps) > 0 <==> exists p :: p in ps && !p.exempt
    decreases |ps|
  {
    if ps != [] {
      assert ps == ps[..|ps| - 1] + [ps[|ps| - 1]];
      FlightIsWindowBytes(ps[..|ps| - 1]);
    }
  }

  lemma Reports(h: Handler, e: Event, o: Outcome)
    requires o == Done(h, e)
    ensures o.ackedBytes == (if o.acked == [] then None else Some(Total(Flight, o.acked)))
    ensures o.lostBytes == LostBytes(o.lost)
  {
    if Counts(h, e) {
      CountingAck(h, e);
    } else if e.Ack? {
      IdleAck(h, e);
    } else if e.Expire? && Due(h, e.now) {
      TimeoutBlames(h, e.now);
      TimeoutSweeps(h, e.now);
    }
  }

  /** Every call reports what it took out: the acknowledged packets, if any, and the lost ones, if one
      of them needs a window, each with the bytes that need one. So the loss of MTU probes and of other
      exempt packets alone is no congestion. */
  lemma ReportsExactly(h: Handler, e: Event)
    ensures var o := Done(h, e);
            && o.ackedBytes == (if o.acked == [] then None else Some(WindowBytes(o.acked)))
            && o.lostBytes == (if exists p :: p in o.lost && !p.exempt then Some(WindowBytes(o.lost)) else None)
  {
    var o := Done(h, e);
    Reports(h, e, o);
    FlightIsWindowBytes(o.acked);
    FlightIsWindowBytes(o.lost);
  }

  /** Over every run the bytes in flight are those of the outstanding packets that need a window. */
  lemma FlightExactly(rtt: Rtts.Rtt, events: seq<Event>)
    requires Proper(Init(rtt), events)
    ensures Exec(Init(rtt), events).h.out.flight == WindowBytes(Exec(Init(rtt), events).h.sent)
  {
    RunsKeep(rtt, events);
    FlightIsWindowBytes(Exec(Init(rtt), events).h.sent);
  }

  // ---------------------------------------------------------------- loss statistics

  /** A packet given up that counts as evidence of loss, and whether an ACK named it since. */
  datatype Fate = Fate(pn: nat, refuted: bool)

  function Refute(fates: seq<Fate>, rs: seq<Range>): seq<Fate> {
    if fates == [] then []
    else
      var last := fates[|fates| - 1];
      Refute(fates[..|fates| - 1], rs) + [last.(refuted := last.refuted || ScanAll(last.pn, rs))]
  }

  function Evident(ps: seq<Packet>): seq<Fate> {
    if ps == [] then []
    else Evident(ps[..|ps| - 1]) + (if ps[|ps| - 1].evidence then [Fate(ps[|ps| - 1].pn, false)] else [])
  }

  /** The numbers not yet refuted. */
  function Open(fates: seq<Fate>): (r: seq<nat>)
    ensures |r| <= |fates|
  {
    if fates == [] then []
    else Open(fates[..|fates| - 1]) + (if fates[|fates| - 1].refuted then [] else [fates[|fates| - 1].pn])
  }

  datatype Blame = Blame(fates: seq<Fate>, reports: nat)

  function Blaming(b: Blame, h: Handler, e: Event): Blame {
    var o := Done(h, e);
    Blame((if e.Ack? && !o.failed then Refute(b.fates, e.rs) else b.fates) + Evident(o.lost),
          if o.lostBytes.Some? then b.reports + 1 else b.reports)
  }

  function Losses(w: World, events: seq<Event>): Blame {
    if events == [] then Blame([], 0)
    else Blaming(Losses(w, events[..|events| - 1]), Exec(w, events[..|events| - 1]).h, events[|events| - 1])
  }

  /** The statistics in terms of the history, exactly as long as the memory suffices. */
  ghost predicate Blames(l: LossStats, b: Blame) {
    && l.packets == |b.fates| && l.events == b.reports && |l.declared| <= 256
    && (|b.fates| <= 256 ==> l.declared == Open(b.fates) && l.spurious == |b.fates| - |Open(b.fates)|)
  }

  lemma {:induction false} RefuteOpens(fates: seq<Fate>, rs: seq<Range>)
    ensures |Refute(fates, rs)| == |fates| && Open(Refute(fates, rs)) == Unrefuted(Open(fates), rs)
    decreases |fates|
  {
    if fates != [] {
      var front, last := fates[..|fates| - 1], fates[|fates| - 1];
      RefuteOpens(front, rs);
      OpenLast(fates);
      OpenLast(Refute(fates, rs));
      assert Refute(fates, rs)[..|front|] == Refute(front, rs);
      if !last.refuted {
        UnrefutedSnoc(Open(front), last.pn, rs);
      }
    }
  }

  lemma OpenLast(fates: seq<Fate>)
    requires fates != []
    ensures var front, last := fates[..|fates| - 1], fates[|fates| - 1];
            Open(fates) == if last.refuted then Open(front) else Open(front) + [last.pn]
  {
  }

  lemma OpenSnoc(fates: seq<Fate>, f: Fate)
    ensures Open(fates + [f]) == if f.refuted then Open(fates) else Open(fates) + [f.pn]
  {
    assert (fates + [f])[..|fates|] == fates;
  }

  lemma UnrefutedSnoc(declared: seq<nat>, pn: nat, rs: seq<Range>)
    ensures Unrefuted(declared + [pn], rs) == Unrefuted(declared, rs) + (if ScanAll(pn, rs) then [] else [pn])
  {
    assert (declared + [pn])[..|declared|] == declared;
  }

  lemma {:induction false} EvidentCounts(fates: seq<Fate>, ps: seq<Packet>)
    ensures |Evident(ps)| == Total(Evidence, ps)
    ensures |fates| + |Evident(ps)| <= 256 ==>
              && Open(fates + Evident(ps)) == RememberAll(Open(fates), ps)
              && |fates + Evident(ps)| - |Open(fates + Evident(ps))| == |fates| - |Open(fates)|
    decreases |ps|
  {
    if ps == [] {
      assert fates + Evident(ps) == fates;
    } else {
      var front, last := ps[..|ps| - 1], ps[|ps| - 1];
      EvidentCounts(fates, front);
      if last.evidence {
        OpenSnoc(fates + Evident(front), Fate(last.pn, false));
        assert fates + Evident(ps) == fates + Evident(front) + [Fate(last.pn, false)];
      } else {
        assert Evident(ps) == Evident(front);
      }
    }
  }

  lemma AcceptanceBlames(l: LossStats, b: Blame, rs: seq<Range>)
    requires Blames(l, b)
    ensures Blames(NoteSpurious(l, rs), b.(fates := Refute(b.fates, rs)))
  {
    RefuteOpens(b.fates, rs);
  }

  lemma PassBlames(l: LossStats, b: Blame, ps: seq<Packet>)
    requires Blames(l, b)
    ensures Blames(Blamed(l, ps), Blame(b.fates + Evident(ps), if LostBytes(ps).Some? then b.reports + 1 else b.reports))
  {
    EvidentCounts(b.fates, ps);
    RememberedStays(l.declared, ps);
  }

  lemma EventBlames(h: Handler, b: Blame, e: Event)
    requires Blames(h.loss, b) && (e.Ack? ==> e.rs != [])
    ensures Blames(Done(h, e).h.loss, Blaming(b, h, e))
  {
    match e
    case Send(_) => assert b.fates + [] == b.fates;
    case Ack(_, _, _) => AckBlames(h, b, e);
    case Expire(now) =>
      if Due(h, now) {
        TimeoutBlames(h, now);
        PassBlames(h.loss, b, OnTimeout(h, now).lost);
      } else {
        assert b.fates + [] == b.fates;
      }
  }

  lemma TimeoutBlames(h: Handler, now: int)
    ensures var o := OnTimeout(h, now); o.h.loss == Blamed(h.loss, o.lost) && o.lostBytes == LostBytes(o.lost)
  {
    if h.lossTime.None? {
      ProbeCounts(h, now);
    }
  }

  lemma AckBlames(h: Handler, b: Blame, e: Event)
    requires Blames(h.loss, b) && e.Ack? && e.rs != []
    ensures Blames(Done(h, e).h.loss, Blaming(b, h, e))
  {
    AcceptanceBlames(h.loss, b, e.rs);
    if Counts(h, e) {
      CountingAck(h, e);
      var a := AckPass(h, e.now, e.rs, e.delay);
      PassBlames(a.loss, b.(fates := Refute(b.fates, e.rs)), Taken(LateSieve(a, e.now), a.sent));
    } else {
      assert b.fates + [] == b.fates && Refute(b.fates, e.rs) + [] == Refute(b.fates, e.rs);
    }
  }

  /** Over every run, packets counts the evidence losses and events the reports to congestion
      control; and as long as no more than 256 packets were lost, spurious counts those of them that
      an accepted ACK named afterwards, and declaredLost lists the others in order. It never lists more
      than 256. */
  lemma {:induction false} LossStatsExact(rtt: Rtts.Rtt, events: seq<Event>)
    requires forall e <- events :: e.Ack? ==> e.rs != []
    ensures Blames(Exec(Init(rtt), events).h.loss, Losses(Init(rtt), events))
    decreases |events|
  {
    if events != [] {
      var before, e := events[..|events| - 1], events[|events| - 1];
      assert forall d <- before :: d in events;
      LossStatsExact(rtt, before);
      StepIsDone(Exec(Init(rtt), before), e);
      EventBlames(Exec(Init(rtt), before).h, Losses(Init(rtt), before), e);
    }
  }
}
