/** What the sent-packet handler keeps over every run of sends, ACKs and timer expiries. */
module HandlerRuns {
  import opened Common
  import opened AckWire
  import opened AckHandlers
  import Rtts

  // ---------------------------------------------------------------- invariants

  /** The three counters are exactly what they count. */
  ghost predicate Counted(out: Counters, sent: seq<Packet>) {
    out.flight == Total(Flight, sent) && out.probes == Total(Probes, sent) && out.exempt == Total(Exempt, sent)
  }

  /** Only retransmittable packets need a window, and what needs one has a size: the shapes that
      trsf/conn.go builds. */
  predicate Shaped(p: Packet) {
    && (!p.exempt ==> p.size > 0)
    && (p.retransmittable ==> !p.exempt)
  }

  ghost predicate AllShaped(ps: seq<Packet>) {
    forall p :: p in ps ==> Shaped(p)
  }

  /** A loss time belongs to a packet that is still outstanding. */
  ghost predicate Awaited(lossTime: Option<int>, sent: seq<Packet>, largestAcked: nat, delay: int) {
    lossTime.Some? ==> exists p :: p in sent && p.pn <= largestAcked && lossTime.value == p.sentTime + delay
  }

  ghost predicate Remembered(l: LossStats) {
    l.spurious + |l.declared| <= l.packets && |l.declared| <= MAX_DECLARED_LOST
  }

  /** What every step of a call keeps; the timer is set last. */
  ghost predicate Steady(h: Handler) {
    && Counted(h.out, h.sent) && AllShaped(h.sent) && Remembered(h.loss)
    && Awaited(h.lossTime, h.sent, h.largestAcked, LossDelay(h.rtt))
  }

  /** The timer is armed exactly when something is outstanding, and is the loss time if there is one. */
  ghost predicate Armed(h: Handler) {
    && (h.timer.Some? <==> h.sent != [])
    && (h.lossTime.Some? ==> h.timer == h.lossTime)
  }

  ghost predicate Sound(h: Handler) { Steady(h) && Armed(h) }

  // ---------------------------------------------------------------- passes

  lemma SweepKeepsCounts(out: Counters, sent: seq<Packet>, v: Sieve)
    requires Counted(out, sent)
    ensures Counted(Less(out, Taken(v, sent)), Kept(v, sent))
  {
    PassDivides(v, sent, Flight);
    PassDivides(v, sent, Probes);
    PassDivides(v, sent, Exempt);
  }

  lemma SweepKeepsShapes(sent: seq<Packet>, v: Sieve)
    requires AllShaped(sent)
    ensures AllShaped(Kept(v, sent))
  {
  }

  lemma {:induction false} OutstandingIsVisible(ps: seq<Packet>)
    requires AllShaped(ps)
    ensures Total(Flight, ps) >= 0
    ensures ps == [] <==> Total(Flight, ps) == 0 && Total(Exempt, ps) == 0
  {
    if ps != [] {
      assert ps[|ps| - 1] in ps;
      OutstandingIsVisible(ps[..|ps| - 1]);
    }
  }

  lemma TimerArms(h: Handler, now: int)
    requires Steady(h)
    ensures Sound(SetTimer(h, now))
  {
    OutstandingIsVisible(h.sent);
  }

  lemma {:induction false} NextLossIsAwaited(ps: seq<Packet>, v: Sieve, delay: int)
    requires v.Late?
    ensures Awaited(NextLoss(ps, v, delay), Kept(v, ps), v.largestAcked, delay)
  {
    if ps != [] {
      var front, last := ps[..|ps| - 1], ps[|ps| - 1];
      NextLossIsAwaited(front, v, delay);
      if NextLoss(front, v, delay).Some? {
        var p :| p in Kept(v, front) && p.pn <= v.largestAcked && NextLoss(front, v, delay).value == p.sentTime + delay;
        assert p in Kept(v, ps);
      } else if NextLoss(ps, v, delay).Some? {
        assert last in Kept(v, ps);
      }
    }
  }

  lemma {:induction false} RememberedStays(declared: seq<nat>, ps: seq<Packet>)
    requires |declared| <= MAX_DECLARED_LOST
    ensures |RememberAll(declared, ps)| <= MAX_DECLARED_LOST
    ensures |RememberAll(declared, ps)| <= |declared| + Total(Evidence, ps)
  {
    if ps != [] {
      RememberedStays(declared, ps[..|ps| - 1]);
    }
  }

  lemma BlameKeeps(l: LossStats, ps: seq<Packet>)
    requires Remembered(l)
    ensures Remembered(Blamed(l, ps))
  {
    RememberedStays(l.declared, ps);
  }

  lemma DetectKeeps(h: Handler, now: int)
    requires Counted(h.out, h.sent) && AllShaped(h.sent) && Remembered(h.loss)
    ensures Steady(DetectLost(h, now))
  {
    LateKeeps(h, now, LossDelay(h.rtt));
  }

  lemma LateKeeps(h: Handler, now: int, delay: int)
    requires Counted(h.out, h.sent) && AllShaped(h.sent) && Remembered(h.loss)
    ensures var d := DetectLate(h, now, delay);
            && Counted(d.out, d.sent) && AllShaped(d.sent) && Remembered(d.loss)
            && Awaited(d.lossTime, d.sent, d.largestAcked, delay) && d.rtt == h.rtt
  {
    var v := Late(h.largestAcked, now - delay);
    SweepKeepsCounts(h.out, h.sent, v);
    SweepKeepsShapes(h.sent, v);
    BlameKeeps(h.loss, Taken(v, h.sent));
    NextLossIsAwaited(h.sent, v, delay);
  }

  // ---------------------------------------------------------------- calls

  lemma SendKeeps(h: Handler, p: Packet)
    requires Sound(h) && Shaped(p)
    ensures Sound(OnSent(h, p))
  {
    TotalSnoc(Flight, h.sent, p);
    TotalSnoc(Probes, h.sent, p);
    TotalSnoc(Exempt, h.sent, p);
    var g := h.(sent := h.sent + [p], out := More(h.out, p),
                largestSent := if p.pn > h.largestSent then p.pn else h.largestSent);
    assert forall q :: q in h.sent ==> q in g.sent;
    TimerArms(g, p.sentTime);
  }

  lemma AckKeeps(h: Handler, now: int, rs: seq<Range>, delay: int)
    requires Sound(h) && rs != []
    ensures Sound(ReceiveACK(h, now, rs, delay).h)
  {
    var acked := Taken(Named(rs), h.sent);
    if Sub64(rs[|rs| - 1].end, 1) <= h.largestSent && acked != [] {
      SweepKeepsCounts(h.out, h.sent, Named(rs));
      SweepKeepsShapes(h.sent, Named(rs));
      LossPassKeeps(AckPass(h, now, rs, delay), now, acked);
    }
  }

  lemma LossPassKeeps(a: Handler, now: int, acked: seq<Packet>)
    requires Counted(a.out, a.sent) && AllShaped(a.sent) && Remembered(a.loss)
    ensures Sound(LossPass(a, now, acked).h)
  {
    DetectKeeps(a, now);
    TimerArms(DetectLost(a, now).(ptoCount := 0), now);
  }

  lemma TimeoutKeeps(h: Handler, now: int)
    requires Sound(h)
    ensures Sound(OnTimeout(h, now).h)
  {
    if h.lossTime.Some? {
      DetectKeeps(h, now);
      TimerArms(DetectLost(h, now), now);
    } else {
      GiveUpKeeps(h);
      var g := GiveUp(h);
      TimerArms(g, now);
      TimerArms(g.(ptoCount := g.ptoCount + 1), now);
    }
  }

  lemma GiveUpKeeps(h: Handler)
    requires Steady(h) && h.lossTime.None?
    ensures Steady(GiveUp(h)) && GiveUp(h).lossTime.None?
  {
    SweepKeepsCounts(h.out, h.sent, Hopeless);
    SweepKeepsShapes(h.sent, Hopeless);
    BlameKeeps(h.loss, Taken(Hopeless, h.sent));
  }

  // ---------------------------------------------------------------- progress

  /** An expired loss time retires at least the packet it was set for. */
  lemma LossExpiryRetires(h: Handler, now: int)
    requires Sound(h) && h.lossTime.Some? && now > h.timer.value
    ensures OnTimeout(h, now).lost != [] && !OnTimeout(h, now).failed
  {
    var p :| p in h.sent && p.pn <= h.largestAcked && h.lossTime.value == p.sentTime + LossDelay(h.rtt);
    PassMembers(LateSieve(h, now), h.sent);
    assert p in Taken(LateSieve(h, now), h.sent);
  }

  /** An expired probe timer retires what nothing re-sends, or else re-sends the oldest packet, and
      never finds an empty flight. */
  lemma ProbeExpiryProgresses(h: Handler, now: int)
    requires Sound(h) && h.lossTime.None? && h.timer.Some?
    ensures var o := OnTimeout(h, now);
            && !o.failed && (o.lost != [] || o.resent.Some?)
            && (o.resent.Some? ==> o.resent.value in o.h.sent && o.resent.value.retransmittable)
            && (o.resent.None? ==> o.h.sent == [])
  {
    var g := GiveUp(h);
    GiveUpKeeps(h);
    PassMembers(Hopeless, h.sent);
    OutstandingIsVisible(g.sent);
    NothingTaken(Hopeless, h.sent);
    if g.out.flight == 0 {
      if g.sent != [] {
        assert g.sent[0] in h.sent && g.sent[0].retransmittable;
        NoExempt(g.sent);
      }
    } else {
      assert g.sent[0] in g.sent && g.sent[0].retransmittable;
    }
  }

  lemma {:induction false} NoExempt(ps: seq<Packet>)
    requires forall p :: p in ps ==> !p.exempt
    ensures Total(Exempt, ps) == 0
  {
    if ps != [] {
      assert ps[|ps| - 1] in ps;
      NoExempt(ps[..|ps| - 1]);
    }
  }

  /** The filter of an ACK with sorted ranges: exactly the packets it names leave, the others stay
      in place, and its consistency check cannot fail. */
  lemma AckRemovesExactlyTheNamed(ps: seq<Packet>, rs: seq<Range>)
    requires Ascending(rs)
    ensures forall p :: p in Taken(Named(rs), ps) <==> p in ps && Names(rs, p.pn)
    ensures forall p :: p in Kept(Named(rs), ps) <==> p in ps && !Names(rs, p.pn)
    ensures multiset(ps) == multiset(Taken(Named(rs), ps)) + multiset(Kept(Named(rs), ps))
    ensures |Kept(Named(rs), ps)| + |Taken(Named(rs), ps)| == |ps|
  {
    PassMembers(Named(rs), ps);
    PassKeepsAll(Named(rs), ps);
    PassSizes(Named(rs), ps);
    forall p | p in ps ensures Hit(Named(rs), p) <==> Names(rs, p.pn) {
      ScanIsMembership(p.pn, rs);
    }
  }

  /** An ACK as the peer can encode it, if accepted, acknowledges exactly the outstanding packets
      that it names. */
  lemma AckRetiresExactlyTheNamed(h: Handler, now: int, rs: seq<Range>, delay: int)
    requires Encodable(rs)
    ensures var o := ReceiveACK(h, now, rs, delay);
            !o.failed ==> forall p :: p in o.acked <==> p in h.sent && Names(rs, p.pn)
  {
    assert Ascending(rs);
    AckRemovesExactlyTheNamed(h.sent, rs);
  }

  // ---------------------------------------------------------------- whole runs

  /** The handler with the packets ever sent, the callbacks ever run, and the bytes ever reported
      to congestion control. */
  datatype World = World(
    h: Handler, sent: multiset<Packet>, acked: multiset<Packet>, lost: multiset<Packet>, resent: multiset<Packet>,
    bytesSent: int, bytesAcked: int, bytesLost: int)

  datatype Event =
    | Send(p: Packet)
    | Ack(now: int, rs: seq<Range>, delay: int)
    | Expire(now: int)

  function Init(rtt: Rtts.Rtt): World {
    World(New(rtt), multiset{}, multiset{}, multiset{}, multiset{}, 0, 0, 0)
  }

  /** The run loop calls OnTimeout only once the timer has passed. */
  predicate Due(h: Handler, now: int) { h.timer.Some? && now > h.timer.value }

  function Reported(bytes: Option<int>): int { match bytes case Some(n) => n case None => 0 }

  function Once(p: Option<Packet>): multiset<Packet> { match p case Some(q) => multiset{q} case None => multiset{} }

  function Recorded(w: World, o: Outcome): World {
    World(o.h, w.sent, w.acked + multiset(o.acked), w.lost + multiset(o.lost), w.resent + Once(o.resent),
          w.bytesSent, w.bytesAcked + Reported(o.ackedBytes), w.bytesLost + Reported(o.lostBytes))
  }

  /** One call; an ACK frame always names a range. */
  function Step(w: World, e: Event): World {
    match e
    case Send(p) => w.(h := OnSent(w.h, p), sent := w.sent + multiset{p}, bytesSent := w.bytesSent + Weight(Flight, p))
    case Ack(now, rs, delay) => if rs == [] then w else Recorded(w, ReceiveACK(w.h, now, rs, delay))
    case Expire(now) => if Due(w.h, now) then Recorded(w, OnTimeout(w.h, now)) else w
  }

  function Exec(w: World, events: seq<Event>): World {
    if events == [] then w else Step(Exec(w, events[..|events| - 1]), events[|events| - 1])
  }

  /** Packets of the shapes that the connection builds, numbered in the order of sending. */
  ghost predicate Proper(w: World, events: seq<Event>)
    decreases |events|
  {
    events != [] ==>
      && Proper(w, events[..|events| - 1])
      && var e := events[|events| - 1];
         e.Send? ==> Shaped(e.p) && forall q :: q in Exec(w, events[..|events| - 1]).sent ==> q.pn < e.p.pn
  }

  ghost predicate Balanced(w: World) {
    && w.sent == multiset(w.h.sent) + w.acked + w.lost
    && w.bytesSent == w.h.out.flight + w.bytesAcked + w.bytesLost
    && (forall p :: p in w.sent ==> w.sent[p] == 1)
    && (forall p :: p in w.resent ==> p.retransmittable)
  }

  lemma LossReports(ps: seq<Packet>)
    ensures Reported(LostBytes(ps)) == Total(Flight, ps)
  {
  }

  /** A pass moves packets to the verdicts, and the bytes it reports are those it takes from the
      flight. */
  lemma AckBalances(h: Handler, now: int, rs: seq<Range>, delay: int)
    requires rs != []
    ensures var o := ReceiveACK(h, now, rs, delay);
            && multiset(h.sent) == multiset(o.h.sent) + multiset(o.acked) + multiset(o.lost)
            && h.out.flight == o.h.out.flight + Reported(o.ackedBytes) + Reported(o.lostBytes)
            && o.resent == None
  {
    if Sub64(rs[|rs| - 1].end, 1) <= h.largestSent && Taken(Named(rs), h.sent) != [] {
      PassKeepsAll(Named(rs), h.sent);
      LossPassBalances(AckPass(h, now, rs, delay), now, Taken(Named(rs), h.sent));
    }
  }

  lemma LossPassBalances(a: Handler, now: int, acked: seq<Packet>)
    ensures var o := LossPass(a, now, acked);
            && multiset(a.sent) == multiset(o.h.sent) + multiset(o.lost)
            && a.out.flight == o.h.out.flight + Reported(o.lostBytes)
            && o.acked == acked && o.ackedBytes == Some(Total(Flight, acked)) && o.resent == None
  {
    PassKeepsAll(LateSieve(a, now), a.sent);
    LossReports(Taken(LateSieve(a, now), a.sent));
  }

  lemma TimeoutBalances(h: Handler, now: int)
    ensures var o := OnTimeout(h, now);
            && multiset(h.sent) == multiset(o.h.sent) + multiset(o.lost)
            && h.out.flight == o.h.out.flight + Reported(o.lostBytes)
            && o.acked == [] && o.ackedBytes == None
            && (o.resent.Some? ==> o.resent.value.retransmittable)
  {
    var v := TimeoutSieve(h, now);
    TimeoutSweeps(h, now);
    PassKeepsAll(v, h.sent);
  }

  ghost function TimeoutSieve(h: Handler, now: int): Sieve {
    if h.lossTime.Some? then LateSieve(h, now) else Hopeless
  }

  lemma TimeoutSweeps(h: Handler, now: int)
    ensures var o := OnTimeout(h, now);
            && o.h.sent == Kept(TimeoutSieve(h, now), h.sent) && o.lost == Taken(TimeoutSieve(h, now), h.sent)
            && h.out.flight == o.h.out.flight + Reported(o.lostBytes)
            && o.acked == [] && o.ackedBytes == None
            && (o.resent.Some? ==> o.resent.value.retransmittable)
  {
    if h.lossTime.Some? {
      LossReports(Taken(LateSieve(h, now), h.sent));
    } else {
      ProbeTimeoutSweeps(h, now);
      ProbeTimeoutReports(h, now);
    }
  }

  lemma ProbeTimeoutSweeps(h: Handler, now: int)
    ensures var o := OnProbeTimeout(h, now);
            && o.h.sent == Kept(Hopeless, h.sent) && o.lost == Taken(Hopeless, h.sent)
            && o.acked == [] && o.ackedBytes == None
            && (o.resent.Some? ==> o.resent.value.retransmittable)
  {
  }

  lemma ProbeTimeoutReports(h: Handler, now: int)
    ensures var o := OnProbeTimeout(h, now); h.out.flight == o.h.out.flight + Reported(o.lostBytes)
  {
    LossReports(Taken(Hopeless, h.sent));
    assert GiveUp(h).out.flight == h.out.flight - Total(Flight, Taken(Hopeless, h.sent));
  }

  lemma SendBalances(w: World, p: Packet)
    requires Balanced(w) && forall q :: q in w.sent ==> q.pn < p.pn
    ensures Balanced(Step(w, Send(p)))
  {
  }

  lemma RecordBalances(w: World, o: Outcome)
    requires Balanced(w)
    requires multiset(w.h.sent) == multiset(o.h.sent) + multiset(o.acked) + multiset(o.lost)
    requires w.h.out.flight == o.h.out.flight + Reported(o.ackedBytes) + Reported(o.lostBytes)
    requires o.resent.Some? ==> o.resent.value.retransmittable
    ensures Balanced(Recorded(w, o))
  {
  }

  lemma StepKeeps(w: World, e: Event)
    requires Sound(w.h) && Balanced(w)
    requires e.Send? ==> Shaped(e.p) && forall q :: q in w.sent ==> q.pn < e.p.pn
    ensures Sound(Step(w, e).h) && Balanced(Step(w, e))
  {
    match e
    case Send(p) =>
      SendKeeps(w.h, p);
      SendBalances(w, p);
    case Ack(now, rs, delay) =>
      if rs != [] {
        AckKeeps(w.h, now, rs, delay);
        AckBalances(w.h, now, rs, delay);
        RecordBalances(w, ReceiveACK(w.h, now, rs, delay));
      }
    case Expire(now) =>
      if Due(w.h, now) {
        TimeoutKeeps(w.h, now);
        TimeoutBalances(w.h, now);
        RecordBalances(w, OnTimeout(w.h, now));
      }
  }

  lemma {:induction false} RunsKeep(rtt: Rtts.Rtt, events: seq<Event>)
    requires Proper(Init(rtt), events)
    ensures Sound(Exec(Init(rtt), events).h) && Balanced(Exec(Init(rtt), events))
    decreases |events|
  {
    if events != [] {
      RunsKeep(rtt, events[..|events| - 1]);
      StepKeeps(Exec(Init(rtt), events[..|events| - 1]), events[|events| - 1]);
    }
  }

  /** After every run: each counter is what it counts, the timer is armed exactly when something is
      outstanding, and spurious losses and remembered ones never exceed the losses declared. */
  lemma CountersStayExact(rtt: Rtts.Rtt, events: seq<Event>)
    requires Proper(Init(rtt), events)
    ensures var h := Exec(Init(rtt), events).h;
            && h.out == Counters(Total(Flight, h.sent), Total(Probes, h.sent), Total(Exempt, h.sent))
            && (h.timer.Some? <==> h.sent != [])
            && h.loss.spurious + |h.loss.declared| <= h.loss.packets
  {
    RunsKeep(rtt, events);
  }

  /** Conservation: congestion control is told of every byte exactly once, as acknowledged or as
      lost, or the byte is still in flight. */
  lemma BytesAreConserved(rtt: Rtts.Rtt, events: seq<Event>)
    requires Proper(Init(rtt), events)
    ensures var w := Exec(Init(rtt), events);
            w.bytesSent == w.bytesAcked + w.bytesLost + Total(Flight, w.h.sent)
  {
    RunsKeep(rtt, events);
  }

  /** A packet that nothing re-sends gets one verdict: exactly one of OnACK and OnLost has run once
      when it is no longer outstanding, and neither has while it is. */
  lemma OneVerdictEach(rtt: Rtts.Rtt, events: seq<Event>, p: Packet)
    requires Proper(Init(rtt), events) && p in Exec(Init(rtt), events).sent && !p.retransmittable
    ensures var w := Exec(Init(rtt), events);
            w.acked[p] + w.lost[p] + w.resent[p] == if p in w.h.sent then 0 else 1
  {
    RunsKeep(rtt, events);
    var w := Exec(Init(rtt), events);
    assert p in w.h.sent <==> p in multiset(w.h.sent);
    assert w.sent[p] == 1;
  }

  /** No expiry is idle: one that a loss time armed retires a packet, any other retires a packet or
      re-sends one, and the internal error for an empty flight never occurs. */
  lemma EveryExpiryProgresses(rtt: Rtts.Rtt, events: seq<Event>, now: int)
    requires Proper(Init(rtt), events) && Due(Exec(Init(rtt), events).h, now)
    ensures var h := Exec(Init(rtt), events).h;
            var o := OnTimeout(h, now);
            && !o.failed
            && (h.lossTime.Some? ==> o.lost != [])
            && (h.lossTime.None? ==> o.lost != [] || o.resent.Some?)
  {
    RunsKeep(rtt, events);
    var h := Exec(Init(rtt), events).h;
    if h.lossTime.Some? {
      LossExpiryRetires(h, now);
    } else {
      ProbeExpiryProgresses(h, now);
    }
  }

  /** What a call of the handler took out or re-sent was outstanding before. */
  ghost predicate Drawn(sent: seq<Packet>, o: Outcome) {
    && (forall p :: p in o.acked || p in o.lost || p in o.h.sent ==> p in sent)
    && (o.resent.Some? ==> o.resent.value in sent)
  }

  lemma AckDraws(h: Handler, now: int, rs: seq<Range>, delay: int)
    requires rs != []
    ensures var o := ReceiveACK(h, now, rs, delay);
            Drawn(h.sent, o) && forall p :: p in o.acked ==> Names(rs, p.pn)
  {
    var o := ReceiveACK(h, now, rs, delay);
    AckBalances(h, now, rs, delay);
    PassMembers(Named(rs), h.sent);
    forall p | p in o.acked || p in o.lost || p in o.h.sent ensures p in h.sent {
      assert p in multiset(o.h.sent) + multiset(o.acked) + multiset(o.lost);
      assert p in multiset(h.sent);
    }
    forall p | p in o.acked ensures Names(rs, p.pn) {
      assert Hit(Named(rs), p);
      ScanIsMembership(p.pn, rs);
    }
  }

  lemma TimeoutDraws(h: Handler, now: int)
    ensures Drawn(h.sent, OnTimeout(h, now)) && OnTimeout(h, now).acked == []
  {
    TimeoutSweeps(h, now);
    PassMembers(TimeoutSieve(h, now), h.sent);
  }
}
