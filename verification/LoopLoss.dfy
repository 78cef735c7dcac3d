/** A run of the whole loop that completes a stream without some of its bytes: probe timeouts send one
    range again and again, and triggerPacket divides it at two budgets. */
module LoopLosses {
  import opened Common
  import opened TriggerQueues
  import opened SendStreams
  import opened OrderingQueues
  import opened AckHandlers
  import opened Compositions
  import AckWire
  import HandlerRuns
  import NoOrphans
  import Orphans
  import Continuations
  import TwoBudgets
  import Reliability
  import Rtts
  import Varints
  import C = Connections
  import P = StreamPairs

  // ---------------------------------------------------------------- the handler

  /** These packets are outstanding, all of them in flight and retransmittable, and no loss is awaited. */
  ghost predicate Waiting(h: Handler, ps: seq<Packet>) {
    && h.sent == ps && h.lossTime == None && h.out.flight >= 0 && h.largestSent + 1 >= |ps|
    && (ps != [] ==> h.out.flight > 0 && h.timer.Some?)
    && forall p :: p in ps ==> p.retransmittable
  }

  lemma {:induction false} NothingHopeless(ps: seq<Packet>)
    requires forall p :: p in ps ==> p.retransmittable
    ensures AckHandlers.Taken(Hopeless, ps) == [] && Kept(Hopeless, ps) == ps
  {
    if ps != [] {
      assert ps == ps[..|ps| - 1] + [ps[|ps| - 1]];
      NothingHopeless(ps[..|ps| - 1]);
    }
  }

  lemma {:induction false} FirstIsFirst(ps: seq<Packet>)
    requires ps != [] && forall p :: p in ps ==> p.retransmittable
    ensures FirstRetransmittable(ps) == Some(ps[0])
  {
    assert ps == ps[..|ps| - 1] + [ps[|ps| - 1]];
    if |ps| > 1 {
      FirstIsFirst(ps[..|ps| - 1]);
    } else {
      assert FirstRetransmittable(ps[..0]) == None;
    }
  }

  /** A probe timeout sends the first packet's range again and takes nothing out. */
  lemma ProbeResends(h: Handler, ps: seq<Packet>, now: int)
    requires Waiting(h, ps) && ps != []
    ensures var o := OnTimeout(h, now);
            o.acked == [] && o.lost == [] && o.resent == Some(ps[0]) && Waiting(o.h, ps)
  {
    var g := GiveUp(h);
    NothingHopeless(ps);
    FirstIsFirst(ps);
    NothingGivenUp(h, ps);
    IsProbeTimeout(h, now);
    ProbeOutcome(h, g, now);
    TimerWaits(g.(ptoCount := g.ptoCount + 1), ps, now);
  }

  lemma IsProbeTimeout(h: Handler, now: int)
    requires h.lossTime == None
    ensures OnTimeout(h, now) == OnProbeTimeout(h, now)
  {
  }

  lemma ProbeOutcome(h: Handler, g: Handler, now: int)
    requires g == GiveUp(h) && g.out.flight != 0 && g.sent != []
    ensures var o := OnProbeTimeout(h, now);
            && o.acked == [] && o.lost == AckHandlers.Taken(Hopeless, h.sent) && o.resent == FirstRetransmittable(g.sent)
            && o.h == SetTimer(g.(ptoCount := g.ptoCount + 1), now)
  {
  }

  lemma TimerWaits(h: Handler, ps: seq<Packet>, now: int)
    requires h.sent == ps && ps != [] && h.lossTime == None && h.out.flight > 0 && h.largestSent + 1 >= |ps|
    requires forall p :: p in ps ==> p.retransmittable
    ensures Waiting(SetTimer(h, now), ps)
  {
  }

  lemma NothingGivenUp(h: Handler, ps: seq<Packet>)
    requires Waiting(h, ps)
    ensures var g := GiveUp(h); g.sent == ps && g.out == h.out && g.lossTime == None && g.largestSent == h.largestSent
  {
    NothingHopeless(ps);
    NothingLess(h.out);
    assert Swept(h, Hopeless) == h;
  }

  lemma NothingLess(out: Counters)
    ensures Less(out, []) == out
  {
  }

  lemma SendWaits(h: Handler, ps: seq<Packet>, p: Packet)
    requires Waiting(h, ps) && p.retransmittable && !p.exempt && p.size > 0 && p.pn == |ps|
    ensures Waiting(OnSent(h, p), ps + [p])
  {
  }

  // ---------------------------------------------------------------- where the run is

  /** Between passes, with one half in state s, nothing queued, and these packets outstanding. */
  ghost predicate Resting(c: C.Conn, id: nat, s: Sender, ps: seq<Packet>) {
    && c.place.Top? && c.q.cancels == [] && c.q.updates == [] && c.f.trigger == []
    && c.f.streams == map[First(id) := s] && Waiting(c.h, ps) && c.nextPn == |ps| && c.cwnd > 0
  }

  /** The packets carry these ranges, in this order. */
  ghost predicate Carry(ps: seq<Packet>, id: nat, xs: seq<SentRange>) {
    |ps| == |xs| && forall i :: 0 <= i < |ps| ==> ps[i].pn == i && ps[i].link == Data(First(id), xs[i])
  }

  /** The peer has got nothing. */
  ghost predicate Unheard(w: Net, id: nat) {
    && First(id) in w.stories && w.received == {}
    && w.stories[First(id)].ends.rcv == NewReceiver(C.INITIAL_FLOW_WINDOW) && w.stories[First(id)].ends.routed
  }

  ghost predicate At(w: Net, id: nat, s: Sender, ps: seq<Packet>, xs: seq<SentRange>) {
    Inv(w) && Resting(w.c, id, s, ps) && Carry(ps, id, xs) && Unheard(w, id) && forall p :: p in ps ==> p in w.log
  }

  // ---------------------------------------------------------------- steps that the peer does not notice

  ghost predicate SameReceivers(m: map<Half, Story>, m': map<Half, Story>) {
    forall half :: half in m ==>
      half in m' && m'[half].ends.rcv == m[half].ends.rcv && m'[half].ends.routed == m[half].ends.routed
  }

  predicate AtSender(e: P.Event) { e.AppendData? || e.Emit? || e.Lose? || e.Acknowledge? || e.Unlist? }

  lemma SenderStepsStayHome(p: P.Pair, e: P.Event)
    requires AtSender(e)
    ensures P.Step(p, e).rcv == p.rcv && P.Step(p, e).routed == p.routed
  {
  }

  lemma TellStaysHome(m: map<Half, Story>, half: Half, e: P.Event)
    requires AtSender(e)
    ensures SameReceivers(m, Tell(m, half, e))
  {
    if half in m {
      SenderStepsStayHome(m[half].ends, e);
    }
  }

  lemma {:induction false} VerdictsStayHome(m: map<Half, Story>, ps: seq<Packet>)
    ensures SameReceivers(m, TellAllAcked(m, ps)) && SameReceivers(m, TellAllLost(m, ps))
    decreases |ps|
  {
    if ps != [] {
      if ps[0].link.Data? {
        TellStaysHome(m, ps[0].link.half, P.Acknowledge(ps[0].link.range));
        TellStaysHome(m, ps[0].link.half, P.Lose(ps[0].link.range));
      }
      VerdictsStayHome(TellAcked(m, ps[0]), ps[1..]);
      VerdictsStayHome(TellLost(m, ps[0]), ps[1..]);
    }
  }

  lemma OutcomeStaysHome(m: map<Half, Story>, o: Outcome)
    ensures SameReceivers(m, TellOutcome(m, o))
  {
    VerdictsStayHome(m, o.acked);
    VerdictsStayHome(TellAllAcked(m, o.acked), o.lost);
    if o.resent.Some? && o.resent.value.link.Data? {
      TellStaysHome(TellAllLost(TellAllAcked(m, o.acked), o.lost), o.resent.value.link.half, P.Lose(o.resent.value.link.range));
    }
  }

  lemma PassStaysHome(c: C.Conn, m: map<Half, Story>, e: C.Event)
    requires e.PopStream? || e.Choose? || e.RecordSend? || e.AppendData?
    ensures SameReceivers(m, Telling(c, m, e))
  {
    match e
    case PopStream => PopStaysHome(c, m);
    case Choose(_, _, _) => ChoiceStaysHome(c, m, e);
    case AppendData(half, chunks, eof) => TellStaysHome(m, half, P.AppendData(chunks, eof));
    case RecordSend(_) =>
  }

  lemma PopStaysHome(c: C.Conn, m: map<Half, Story>)
    ensures SameReceivers(m, Telling(c, m, C.PopStream))
  {
    if Finishes(c) {
      TellStaysHome(m, First(c.f.trigger[0].id), P.Unlist);
    }
  }

  lemma ChoiceStaysHome(c: C.Conn, m: map<Half, Story>, e: C.Event)
    requires e.Choose?
    ensures SameReceivers(m, Telling(c, m, e))
  {
    if Triggers(c) {
      TriggersBuilds(c, m, e.now, e.window, e.mtu);
      TellStaysHome(m, c.place.stream.value, P.Emit(e.mtu - FIXED_OVERHEAD));
    } else {
      QuietTellsNothing(c, m, e);
    }
  }

  lemma WakeStaysHome(c: C.Conn, m: map<Half, Story>, now: int)
    ensures SameReceivers(m, Telling(c, m, C.Wake(now)))
  {
    OutcomeStaysHome(m, OnTimeout(c.h, now));
  }

  lemma AckStaysHome(c: C.Conn, m: map<Half, Story>, now: int, rs: seq<AckWire.Range>, delay: int)
    ensures SameReceivers(m, Telling(c, m, C.AckFrame(now, rs, delay)))
  {
    if rs != [] {
      OutcomeStaysHome(m, ReceiveACK(c.h, now, rs, delay));
    }
  }

  // ---------------------------------------------------------------- one pass

  lemma {:induction false} ExecConcat(w: Net, a: seq<Event>, b: seq<Event>)
    ensures Exec(w, a + b) == Exec(Exec(w, a), b)
    decreases |b|
  {
    if b == [] {
      assert a + b == a;
    } else {
      assert (a + b)[..|a + b| - 1] == a + b[..|b| - 1];
      ExecConcat(w, a, b[..|b| - 1]);
    }
  }

  lemma Prepend(w: Net, e: Event, rest: seq<Event>)
    ensures Exec(w, [e] + rest) == Exec(Step(w, e), rest)
  {
    ExecConcat(w, [e], rest);
    assert [e][..0] == [];
  }

  /** Steps of the loop that leave the peer alone. */
  ghost predicate LoopsOn(w: Net, w': Net, c: C.Conn) {
    && w'.c == c && w'.received == w.received && Inv(w') && SameReceivers(w.stories, w'.stories)
    && (forall p :: p in w.log || p in c.h.sent ==> p in w'.log)
  }

  lemma LoopStep(w: Net, e: C.Event)
    requires Inv(w) && (e.Wake? || e.PopStream? || e.Choose? || e.RecordSend? || e.AppendData?)
    ensures LoopsOn(w, Step(w, Loop(e)), C.Step(w.c, e))
  {
    StepKeeps(w, Loop(e));
    if e.Wake? {
      WakeStaysHome(w.c, w.stories, e.now);
    } else {
      PassStaysHome(w.c, w.stories, e);
    }
  }

  lemma LoopsOnTwice(w: Net, w1: Net, w2: Net)
    requires LoopsOn(w, w1, w1.c) && LoopsOn(w1, w2, w2.c) && forall p :: p in w2.c.h.sent ==> p in w2.log
    ensures LoopsOn(w, w2, w2.c)
  {
  }

  /** The loop is awake with the half on the trigger. */
  ghost predicate Awoken(c: C.Conn, id: nat, s: Sender, ps: seq<Packet>) {
    && c.place.Awake? && c.q.cancels == [] && c.q.updates == [] && c.f.trigger == [First(id)]
    && c.f.streams == map[First(id) := s] && !s.Completed() && (c.CanSend() || c.place.pto)
    && Waiting(c.h, ps) && c.nextPn == |ps| && c.cwnd > 0
  }

  lemma SendSteps(w: Net, mtu: int) returns (events: seq<Event>)
    requires Inv(w)
    ensures LoopsOn(w, Exec(w, events), C.Step(C.Step(C.Step(w.c, C.PopStream), C.Choose(0, 0, mtu)), C.RecordSend(0)))
  {
    var e2, e3, e4 := C.PopStream, C.Choose(0, 0, mtu), C.RecordSend(0);
    var w2 := Step(w, Loop(e2));
    LoopStep(w, e2);
    var w3 := Step(w2, Loop(e3));
    LoopStep(w2, e3);
    LoopStep(w3, e4);
    Prepend(w3, Loop(e4), []);
    Prepend(w2, Loop(e3), [Loop(e4)] + []);
    Prepend(w, Loop(e2), [Loop(e3)] + ([Loop(e4)] + []));
    events := [Loop(e2)] + ([Loop(e3)] + ([Loop(e4)] + []));
  }

  /** Once awake, the half is popped and its range built and recorded. */
  lemma SendPass(w: Net, id: nat, s: Sender, ps: seq<Packet>, mtu: int, s': Sender, x: SentRange) returns (events: seq<Event>)
    requires Inv(w) && Awoken(w.c, id, s, ps)
    requires Trigger(s, mtu - FIXED_OVERHEAD) == Triggered(s', Some(x), false)
    ensures var w' := Exec(w, events);
            LoopsOn(w, w', w'.c) && Resting(w'.c, id, s', ps + [C.DataPacket(|ps|, 0, First(id), x)])
  {
    events := SendSteps(w, mtu);
    TriggeredPass(w.c, id, s, ps, mtu, s', x);
  }

  /** What is popped, built and recorded once the half is on the trigger. */
  lemma TriggeredPass(c: C.Conn, id: nat, s: Sender, ps: seq<Packet>, mtu: int, s': Sender, x: SentRange)
    requires Awoken(c, id, s, ps) && Trigger(s, mtu - FIXED_OVERHEAD) == Triggered(s', Some(x), false)
    ensures var c' := C.Step(C.Step(C.Step(c, C.PopStream), C.Choose(0, 0, mtu)), C.RecordSend(0));
            Resting(c', id, s', ps + [C.DataPacket(|ps|, 0, First(id), x)])
  {
    PopsHalf(c, id, s);
    var c1 := C.Step(c, C.PopStream);
    BuildsRange(c1, id, s, mtu, s', x);
    SendsRange(C.Step(c1, C.Choose(0, 0, mtu)), id, s', ps, x);
  }

  lemma PopsHalf(c: C.Conn, id: nat, s: Sender)
    requires c.place.Awake? && c.q.cancels == [] && c.q.updates == [] && c.f.trigger == [First(id)]
    requires c.f.streams == map[First(id) := s] && !s.Completed()
    ensures C.Step(c, C.PopStream) ==
            c.(f := c.f.(trigger := []), place := C.Holding(Some(First(id)), None, None, c.place.pto))
  {
  }

  lemma BuildsRange(c: C.Conn, id: nat, s: Sender, mtu: int, s': Sender, x: SentRange)
    requires c.place.Holding? && c.place.stream == Some(First(id)) && c.place.cancel == None && c.place.update == None
    requires (c.CanSend() || c.place.pto) && c.f.trigger == [] && c.f.streams == map[First(id) := s]
    requires Trigger(s, mtu - FIXED_OVERHEAD) == Triggered(s', Some(x), false)
    ensures C.Step(c, C.Choose(0, 0, mtu)) == c.(f := c.f.(streams := map[First(id) := s']), place := C.Built(First(id), x))
  {
    assert c.f.streams[First(id) := s'] == map[First(id) := s'];
  }

  lemma SendsRange(c: C.Conn, id: nat, s: Sender, ps: seq<Packet>, x: SentRange)
    requires c.place == C.Built(First(id), x) && c.q.cancels == [] && c.q.updates == [] && c.f.trigger == []
    requires c.f.streams == map[First(id) := s] && Waiting(c.h, ps) && c.nextPn == |ps| && c.cwnd > 0
    ensures Resting(C.Step(c, C.RecordSend(0)), id, s, ps + [C.DataPacket(|ps|, 0, First(id), x)])
  {
    SendWaits(c.h, ps, C.DataPacket(|ps|, 0, First(id), x));
  }

  /** A probe timeout puts the first packet's range on the queue and the half on the trigger. */
  lemma ProbeAwakes(c: C.Conn, o: Outcome, id: nat, s: Sender, ps: seq<Packet>, r: SentRange)
    requires Resting(c, id, s, ps) && ps != [] && ps[0].link == Data(First(id), r) && !s.Completed()
    requires o.acked == [] && o.lost == [] && o.resent == Some(ps[0]) && Waiting(o.h, ps)
    ensures Awoken(C.Received(c, o).(place := C.Awake(true)), id, Lost(s, r), ps)
  {
    assert [] + [First(id)] == [First(id)];
    assert c.f.streams[First(id) := Lost(s, r)] == map[First(id) := Lost(s, r)];
  }

  ghost predicate Fired(c: C.Conn, o: Outcome, c': C.Conn) { c' == C.Received(c, o).(place := C.Awake(o.resent.Some?)) }

  lemma WakeLoops(w: Net, w1: Net, now: int)
    requires Inv(w) && w.c.place.Top? && w1 == Step(w, Loop(C.Wake(now)))
    ensures LoopsOn(w, w1, w1.c) && (HandlerRuns.Due(w.c.h, now) ==> Fired(w.c, OnTimeout(w.c.h, now), w1.c))
  {
    LoopStep(w, C.Wake(now));
  }

  lemma Carries(ps: seq<Packet>, id: nat, xs: seq<SentRange>, x: SentRange)
    requires Carry(ps, id, xs)
    ensures Carry(ps + [C.DataPacket(|ps|, 0, First(id), x)], id, xs + [x])
  {
  }

  /** A pass that the peer does not notice leads to the next place of the run. */
  lemma MovesOn(w: Net, w': Net, id: nat, s: Sender, ps: seq<Packet>, xs: seq<SentRange>, s': Sender, x: SentRange)
    requires At(w, id, s, ps, xs)
    requires LoopsOn(w, w', w'.c) && Resting(w'.c, id, s', ps + [C.DataPacket(|ps|, 0, First(id), x)])
    ensures At(w', id, s', ps + [C.DataPacket(|ps|, 0, First(id), x)], xs + [x])
  {
    Carries(ps, id, xs, x);
  }

  /** A pass after a probe timeout. */
  lemma ProbePass(w: Net, id: nat, s: Sender, ps: seq<Packet>, xs: seq<SentRange>, mtu: int, s': Sender, x: SentRange)
      returns (events: seq<Event>, w': Net)
    requires At(w, id, s, ps, xs) && ps != [] && !s.Completed()
    requires Trigger(Lost(s, xs[0]), mtu - FIXED_OVERHEAD) == Triggered(s', Some(x), false)
    ensures w' == Exec(w, events) && At(w', id, s', ps + [C.DataPacket(|ps|, 0, First(id), x)], xs + [x])
  {
    var wake, w1 := ProbeWakesLoop(w, id, s, ps, xs[0]);
    var rest;
    rest, w' := ProbeSends(w, w1, id, s, ps, xs, mtu, s', x);
    Prepend(w, wake, rest);
    events := [wake] + rest;
  }

  lemma ProbeWakesLoop(w: Net, id: nat, s: Sender, ps: seq<Packet>, r: SentRange) returns (wake: Event, w1: Net)
    requires Inv(w) && Resting(w.c, id, s, ps) && ps != [] && ps[0].link == Data(First(id), r) && !s.Completed()
    ensures w1 == Step(w, wake) && LoopsOn(w, w1, w1.c) && Awoken(w1.c, id, Lost(s, r), ps)
  {
    var o;
    wake, w1, o := ProbeFires(w, id, s, ps);
    ProbeAwakes(w.c, o, id, s, ps, r);
  }

  lemma ProbeFires(w: Net, id: nat, s: Sender, ps: seq<Packet>) returns (wake: Event, w1: Net, o: Outcome)
    requires Inv(w) && Resting(w.c, id, s, ps) && ps != []
    ensures w1 == Step(w, wake) && LoopsOn(w, w1, w1.c) && Fired(w.c, o, w1.c)
    ensures o.acked == [] && o.lost == [] && o.resent == Some(ps[0]) && Waiting(o.h, ps)
  {
    var now := w.c.h.timer.value + 1;
    wake := Loop(C.Wake(now));
    w1, o := Step(w, wake), OnTimeout(w.c.h, now);
    WakeLoops(w, w1, now);
    ProbeResends(w.c.h, ps, now);
  }

  lemma ProbeSends(w: Net, w1: Net, id: nat, s: Sender, ps: seq<Packet>, xs: seq<SentRange>, mtu: int, s': Sender, x: SentRange)
      returns (events: seq<Event>, w': Net)
    requires At(w, id, s, ps, xs) && ps != [] && LoopsOn(w, w1, w1.c) && Awoken(w1.c, id, Lost(s, xs[0]), ps)
    requires Trigger(Lost(s, xs[0]), mtu - FIXED_OVERHEAD) == Triggered(s', Some(x), false)
    ensures w' == Exec(w1, events) && At(w', id, s', ps + [C.DataPacket(|ps|, 0, First(id), x)], xs + [x])
  {
    events := SendPass(w1, id, Lost(s, xs[0]), ps, mtu, s', x);
    w' := Exec(w1, events);
    LoopsOnTwice(w, w1, w');
    MovesOn(w, w', id, s, ps, xs, s', x);
  }

  // ---------------------------------------------------------------- the first packet

  lemma Opens(server: bool, rtt: Rtts.Rtt, cwnd: int, id: nat)
    requires cwnd > 0 && server != (id % 2 == 1)
    ensures var w := Step(Init(server, rtt, cwnd), Loop(C.Open(id, false)));
            At(w, id, NewSender(id, C.INITIAL_FLOW_WINDOW, false), [], [])
  {
    var w0 := Init(server, rtt, cwnd);
    StepKeeps(w0, Loop(C.Open(id, false)));
    assert map[][First(id) := NewSender(id, C.INITIAL_FLOW_WINDOW, false)] == map[First(id) := NewSender(id, C.INITIAL_FLOW_WINDOW, false)];
  }

  /** The application writes the data with the EOF, and the first pass sends it in one range. */
  lemma FirstPass(w: Net, id: nat, data: seq<byte>, mtu: int, s': Sender, x: SentRange)
      returns (events: seq<Event>, w': Net)
    requires At(w, id, NewSender(id, C.INITIAL_FLOW_WINDOW, false), [], []) && data != [] && w.c.h.out.flight == 0
    requires Trigger(Append(NewSender(id, C.INITIAL_FLOW_WINDOW, false), [data], true), mtu - FIXED_OVERHEAD) == Triggered(s', Some(x), false)
    ensures w' == Exec(w, events) && At(w', id, s', [C.DataPacket(0, 0, First(id), x)], [x])
  {
    var s := NewSender(id, C.INITIAL_FLOW_WINDOW, false);
    var write, wake := FirstWakes(w, id, data);
    var w1 := Step(w, write);
    var w2 := Step(w1, wake);
    var rest := SendPass(w2, id, Append(s, [data], true), [], mtu, s', x);
    Prepend(w1, wake, rest);
    Prepend(w, write, [wake] + rest);
    events, w' := [write] + ([wake] + rest), Exec(w2, rest);
    LoopsOnTwice(w1, w2, w');
    LoopsOnTwice(w, w1, w');
    MovesOn(w, w', id, s, [], [], s', x);
    assert [] + [C.DataPacket(0, 0, First(id), x)] == [C.DataPacket(0, 0, First(id), x)] && [] + [x] == [x];
  }

  lemma FirstWakes(w: Net, id: nat, data: seq<byte>) returns (write: Event, wake: Event)
    requires Inv(w) && Resting(w.c, id, NewSender(id, C.INITIAL_FLOW_WINDOW, false), []) && data != [] && w.c.h.out.flight == 0
    ensures var w1 := Step(w, write);
            var w2 := Step(w1, wake);
            && LoopsOn(w, w1, w1.c) && LoopsOn(w1, w2, w2.c)
            && Awoken(w2.c, id, Append(NewSender(id, C.INITIAL_FLOW_WINDOW, false), [data], true), [])
  {
    var s := NewSender(id, C.INITIAL_FLOW_WINDOW, false);
    write := Loop(C.AppendData(First(id), [data], true));
    LoopStep(w, write.e);
    var w1 := Step(w, write);
    FirstWrites(w.c, id, data);
    wake := Loop(C.Wake(Orphans.Early(w1.c.h)));
    LoopStep(w1, wake.e);
    Orphans.EarlyWake(w1.c);
  }

  lemma FirstWrites(c: C.Conn, id: nat, data: seq<byte>)
    requires Resting(c, id, NewSender(id, C.INITIAL_FLOW_WINDOW, false), []) && data != []
    ensures var s := Append(NewSender(id, C.INITIAL_FLOW_WINDOW, false), [data], true);
            C.Step(c, C.AppendData(First(id), [data], true)) == c.(f := c.f.(streams := map[First(id) := s], trigger := [First(id)]))
  {
    assert [] + [First(id)] == [First(id)];
  }

  // ---------------------------------------------------------------- arrivals and the acknowledgment

  /** A packet that arrives is offered to the receiver. */
  lemma ArrivesAt(w: Net, id: nat, p: Packet, x: SentRange)
    requires Inv(w) && p in w.log && p.link == Data(First(id), x)
    requires First(id) in w.stories && w.stories[First(id)].ends.routed
    ensures var w' := Step(w, Arrive(p));
            && Inv(w') && w'.c == w.c && w'.log == w.log && w'.received == w.received + {p.pn} && First(id) in w'.stories
            && w'.stories[First(id)].ends.routed
            && w'.stories[First(id)].ends.rcv == Process(w.stories[First(id)].ends.rcv, P.Frame(x))
  {
    StepKeeps(w, Arrive(p));
    assert WasEmitted(w.stories, p.link);
  }

  ghost predicate Routed(w: Net, id: nat) {
    Inv(w) && First(id) in w.stories && w.stories[First(id)].ends.routed
  }

  lemma TwoArrive(w: Net, id: nat, p1: Packet, p2: Packet, x1: SentRange, x2: SentRange) returns (events: seq<Event>)
    requires Routed(w, id) && p1 in w.log && p2 in w.log
    requires p1.link == Data(First(id), x1) && p2.link == Data(First(id), x2)
    ensures var w' := Exec(w, events);
            && Routed(w', id) && w'.c == w.c && w'.log == w.log && w'.received == w.received + {p1.pn} + {p2.pn}
            && w'.stories[First(id)].ends.rcv ==
               Process(Process(w.stories[First(id)].ends.rcv, P.Frame(x1)), P.Frame(x2))
  {
    ArrivesAt(w, id, p1, x1);
    var w1 := Step(w, Arrive(p1));
    ArrivesAt(w1, id, p2, x2);
    Prepend(w1, Arrive(p2), []);
    Prepend(w, Arrive(p1), [Arrive(p2)] + []);
    events := [Arrive(p1)] + ([Arrive(p2)] + []);
  }

  /** Of the ends and the crossing pieces, in this order, the receiver keeps the ends. */
  lemma OnlyTheEndsStay(window: nat, data: seq<byte>, n: nat, m: nat)
    requires 0 < n < m < |data|
    ensures var r := Process(Process(NewReceiver(window), P.Frame(TwoBudgets.Piece(1, data, 0, n))),
                             P.Frame(TwoBudgets.Piece(4, data, m, |data|)));
            && Process(r, P.Frame(TwoBudgets.Piece(2, data, n, |data|))) == r
            && Process(r, P.Frame(TwoBudgets.Piece(3, data, 0, m))) == r
            && forall x :: n <= x < m ==> !P.Covered(r.oq.queue, r.oq.nextOffset, x)
  {
    var a, b := P.Frame(TwoBudgets.Piece(1, data, 0, n)), P.Frame(TwoBudgets.Piece(4, data, m, |data|));
    var q1 := AfterPush(Queue([], 0, false), a);
    assert q1.queue == [a] by { assert [] + [a] + [] == [a]; }
    assert FirstAtOrAbove([a], m) == 1;
    assert AfterPush(q1, b).queue == [a, b] by { assert [a][..1] + [b] + [a][1..] == [a, b]; }
    assert FirstAtOrAbove([a, b], n) == 1;
  }

  /** A range that an acknowledged packet of the half carries is no longer tracked. */
  lemma {:induction false} AckedLeave(f: C.Flow, ps: seq<Packet>, half: Half)
    requires half in f.streams
    ensures var g := C.AckAll(f, ps);
            && half in g.streams && g.streams[half].eofSent == f.streams[half].eofSent
            && forall x :: x in g.streams[half].sentRanges ==>
                 x in f.streams[half].sentRanges && forall p :: p in ps ==> p.link != Data(half, x)
    decreases |ps|
  {
    if ps != [] {
      var f' := C.AckOne(f, ps[0]);
      if ps[0].link.Data? && ps[0].link.half == half {
        WithoutMembers(f.streams[half].sentRanges, ps[0].link.range);
      }
      AckedLeave(f', ps[1..], half);
      assert ps == [ps[0]] + ps[1..];
    }
  }

  lemma {:induction false} LostStay(f: C.Flow, ps: seq<Packet>, half: Half)
    requires half in f.streams
    ensures var g := C.LoseAll(f, ps);
            && half in g.streams && g.streams[half].eofSent == f.streams[half].eofSent
            && g.streams[half].sentRanges == f.streams[half].sentRanges
    decreases |ps|
  {
    if ps != [] {
      LostStay(C.LoseOne(f, ps[0]), ps[1..], half);
    }
  }

  /** An ACK for all packets but the first completes the half if they carry all its tracked ranges. */
  lemma AckCompletes(c: C.Conn, id: nat, s: Sender, ps: seq<Packet>, xs: seq<SentRange>)
    requires Resting(c, id, s, ps) && Carry(ps, id, xs) && |ps| == 5 && s.eofSent
    requires forall x :: x in s.sentRanges ==> x in xs[1..]
    ensures var c' := C.Step(c, C.AckFrame(0, [AckWire.Range(1, 5)], 0));
            First(id) in c'.f.streams && c'.f.streams[First(id)].Completed()
  {
    var half, rs := First(id), [AckWire.Range(1, 5)];
    var o := ReceiveACK(c.h, 0, rs, 0);
    AcksTheRest(c.h, ps);
    NothingTracked(c.f, o.acked, id, s, ps, xs);
    LostStay(C.AckAll(c.f, o.acked), o.lost, half);
    AckReceived(c, rs);
  }

  lemma AckReceived(c: C.Conn, rs: seq<AckWire.Range>)
    requires c.place.Top? && rs != [] && ReceiveACK(c.h, 0, rs, 0).resent == None
    ensures var o := ReceiveACK(c.h, 0, rs, 0);
            C.Step(c, C.AckFrame(0, rs, 0)).f == C.LoseAll(C.AckAll(c.f, o.acked), o.lost)
  {
  }

  lemma NothingTracked(f: C.Flow, acked: seq<Packet>, id: nat, s: Sender, ps: seq<Packet>, xs: seq<SentRange>)
    requires f.streams == map[First(id) := s] && Carry(ps, id, xs) && |ps| == 5
    requires (forall x :: x in s.sentRanges ==> x in xs[1..]) && forall i :: 1 <= i < 5 ==> ps[i] in acked
    ensures var g := C.AckAll(f, acked);
            First(id) in g.streams && g.streams[First(id)].sentRanges == [] && g.streams[First(id)].eofSent == s.eofSent
  {
    AckedLeave(f, acked, First(id));
    var left := C.AckAll(f, acked).streams[First(id)].sentRanges;
    forall x ensures x !in left {
      if x in s.sentRanges {
        var i :| 0 <= i < 4 && xs[1..][i] == x;
        assert ps[i + 1].link == Data(First(id), x) && ps[i + 1] in acked;
      }
    }
    if left != [] {
      SomeMember(left);
    }
  }

  lemma SomeMember(xs: seq<SentRange>)
    requires xs != []
    ensures exists x :: x in xs
  {
    assert xs[0] in xs;
  }

  lemma AcksTheRest(h: Handler, ps: seq<Packet>)
    requires Waiting(h, ps) && |ps| == 5 && forall i :: 0 <= i < 5 ==> ps[i].pn == i
    ensures var o := ReceiveACK(h, 0, [AckWire.Range(1, 5)], 0);
            o.resent == None && forall i :: 1 <= i < 5 ==> ps[i] in o.acked
  {
    var rs := [AckWire.Range(1, 5)];
    PassMembers(Named(rs), ps);
    forall i | 1 <= i < 5 ensures ps[i] in AckHandlers.Taken(Named(rs), ps) {
      assert Scan(i, rs) && Hit(Named(rs), ps[i]);
    }
    assert AckHandlers.Taken(Named(rs), ps) != [];
  }

  // ---------------------------------------------------------------- the run

  /** One call of triggerPacket: the budget, the new state and the range handed over. */
  datatype Call = Call(budget: int, s: Sender, x: SentRange)

  ghost predicate Hands(s: Sender, call: Call) { Trigger(s, call.budget) == Triggered(call.s, Some(call.x), false) }

  /** Calls that follow one another, each after range r was queued again. */
  ghost predicate Chain(s: Sender, r: SentRange, calls: seq<Call>)
    decreases |calls|
  {
    calls != [] ==> !s.Completed() && Hands(Lost(s, r), calls[0]) && Chain(calls[0].s, r, calls[1..])
  }

  function Final(s: Sender, calls: seq<Call>): Sender { if calls == [] then s else calls[|calls| - 1].s }

  function Outs(calls: seq<Call>): seq<SentRange> { seq(|calls|, i requires 0 <= i < |calls| => calls[i].x) }

  /** A probe timeout for every call. */
  lemma {:induction false} ProbePasses(w: Net, id: nat, s: Sender, ps: seq<Packet>, xs: seq<SentRange>, calls: seq<Call>)
      returns (events: seq<Event>, w': Net, ps': seq<Packet>)
    requires At(w, id, s, ps, xs) && ps != [] && Chain(s, xs[0], calls)
    ensures w' == Exec(w, events) && At(w', id, Final(s, calls), ps', xs + Outs(calls))
    decreases |calls|
  {
    if calls == [] {
      events, w', ps' := [], w, ps;
      assert xs + Outs(calls) == xs;
    } else {
      var call, rest := calls[0], calls[1..];
      var one, w1 := ProbePass(w, id, s, ps, xs, call.budget + FIXED_OVERHEAD, call.s, call.x);
      var more;
      more, w', ps' := ProbePasses(w1, id, call.s, ps + [C.DataPacket(|ps|, 0, First(id), call.x)], xs + [call.x], rest);
      ExecConcat(w, one, more);
      events := one + more;
      OutsNext(xs, calls);
      assert Final(call.s, rest) == Final(s, calls);
    }
  }

  lemma OutsNext(xs: seq<SentRange>, calls: seq<Call>)
    requires calls != []
    ensures xs + [calls[0].x] + Outs(calls[1..]) == xs + Outs(calls)
  {
  }

  /** The two tails that the divisions leave fit the raised budget. */
  predicate TailsFit(id: nat, len: nat, n: int, m: int, raised: int) {
    && 0 <= n <= len && HeaderSize(id, n, len - n) + len - n <= raised
    && 0 <= m <= len && HeaderSize(id, m, len - m) + len - m <= raised
  }

  /** triggerPacket, call by call: the head of the first division, its tail, the head of the second
      division, and its tail. */
  function FourCalls(id: nat, window: nat, data: seq<byte>, base: int, raised: int, n: nat, m: nat): seq<Call>
    requires n <= |data| && m <= |data|
  {
    var r, h1, t1 := TwoBudgets.Original(data), TwoBudgets.Piece(1, data, 0, n), TwoBudgets.Piece(2, data, n, |data|);
    var h2, t2 := TwoBudgets.Piece(3, data, 0, m), TwoBudgets.Piece(4, data, m, |data|);
    [Call(base, TwoBudgets.AllSent(id, data, window, [h1, t1], [t1], 3), h1),
     Call(raised, TwoBudgets.AllSent(id, data, window, [h1, t1], [r], 3), t1),
     Call(raised, TwoBudgets.AllSent(id, data, window, [h1, t1, h2, t2], [t2], 5), h2),
     Call(raised, TwoBudgets.AllSent(id, data, window, [h1, t1, h2, t2], [r], 5), t2)]
  }

  lemma CallsFollow(id: nat, window: nat, data: seq<byte>, big: nat, base: int, raised: int, n: nat, m: nat)
    requires TwoBudgets.Divide(id, data, big, base, raised)
    requires n == TwoBudgets.Cut(id, data, base) && m == TwoBudgets.Cut(id, data, raised) && TailsFit(id, |data|, n, m, raised)
    ensures var r := TwoBudgets.Original(data);
            Chain(TwoBudgets.AllSent(id, data, window, [r], [], 1), r, FourCalls(id, window, data, base, raised, n, m))
  {
    var r, calls := TwoBudgets.Original(data), FourCalls(id, window, data, base, raised, n, m);
    FirstDivision(id, window, data, base, n);
    WholeCall(id, window, data, calls[0].s.sentRanges, calls[1].x, r, 3, raised);
    SecondDivision(id, window, data, raised, n, m);
    WholeCall(id, window, data, calls[2].s.sentRanges, calls[3].x, r, 5, raised);
    assert calls[1..] == [calls[1], calls[2], calls[3]] && calls[1..][1..] == [calls[2], calls[3]];
    assert calls[1..][1..][1..] == [calls[3]] && [calls[3]][1..] == [];
    assert Chain(calls[3].s, r, []) && Chain(calls[2].s, r, [calls[3]]) && Chain(calls[1].s, r, [calls[2], calls[3]]);
  }

  lemma FirstDivision(id: nat, window: nat, data: seq<byte>, base: int, n: nat)
    requires n == TwoBudgets.Cut(id, data, base) && 1 < n < |data|
    ensures var r, h1, t1 := TwoBudgets.Original(data), TwoBudgets.Piece(1, data, 0, n), TwoBudgets.Piece(2, data, n, |data|);
            Hands(Lost(TwoBudgets.AllSent(id, data, window, [r], [], 1), r),
                  Call(base, TwoBudgets.AllSent(id, data, window, [h1, t1], [t1], 3), h1))
  {
    TwoBudgets.FirstCut(id, window, data, base, n);
    assert [] + [TwoBudgets.Original(data)] == [TwoBudgets.Original(data)];
  }

  lemma SecondDivision(id: nat, window: nat, data: seq<byte>, raised: int, n: nat, m: nat)
    requires m == TwoBudgets.Cut(id, data, raised) && 1 < n < m < |data|
    ensures var r, h1, t1 := TwoBudgets.Original(data), TwoBudgets.Piece(1, data, 0, n), TwoBudgets.Piece(2, data, n, |data|);
            var h2, t2 := TwoBudgets.Piece(3, data, 0, m), TwoBudgets.Piece(4, data, m, |data|);
            Hands(Lost(TwoBudgets.AllSent(id, data, window, [h1, t1], [r], 3), r),
                  Call(raised, TwoBudgets.AllSent(id, data, window, [h1, t1, h2, t2], [t2], 5), h2))
  {
    var r, h1, t1 := TwoBudgets.Original(data), TwoBudgets.Piece(1, data, 0, n), TwoBudgets.Piece(2, data, n, |data|);
    var h2, t2 := TwoBudgets.Piece(3, data, 0, m), TwoBudgets.Piece(4, data, m, |data|);
    TwoBudgets.SecondCut(id, window, data, raised, m, [h1, t1], [], 3);
    assert [r] + [] == [r] && [] + [t2] == [t2] && [h1, t1] + [h2, t2] == [h1, t1, h2, t2];
  }

  lemma FirstCall(id: nat, window: nat, data: seq<byte>, big: nat)
    requires data != [] && window >= |data| && HeaderSize(id, 0, big) + |data| <= big
    ensures var r := TwoBudgets.Original(data);
            Hands(Append(NewSender(id, window, false), [data], true), Call(big, TwoBudgets.AllSent(id, data, window, [r], [], 1), r))
  {
    var s := NewSender(id, window, false);
    Continuations.AppendsOne(s, data, true);
    Continuations.EmitsBuffer(Append(s, [data], true), data, big);
    assert [] + [TwoBudgets.Original(data)] == [TwoBudgets.Original(data)];
  }

  /** A queued piece that fits leaves whole, and the range behind it stays queued. */
  lemma WholeCall(id: nat, window: nat, data: seq<byte>, ranges: seq<SentRange>, piece: SentRange, r: SentRange, uid: nat, budget: int)
    requires piece != r && HeaderSize(id, piece.offset, |piece.data|) + |piece.data| <= budget
    ensures Hands(Lost(TwoBudgets.AllSent(id, data, window, ranges, [piece], uid), r),
                  Call(budget, TwoBudgets.AllSent(id, data, window, ranges, [r], uid), piece))
  {
    assert Pushed([piece], r) == [piece, r] && [piece, r][1..] == [r];
  }

  /** What the five packets carry. */
  function Five(data: seq<byte>, n: nat, m: nat): seq<SentRange>
    requires n <= |data| && m <= |data|
  {
    [TwoBudgets.Original(data), TwoBudgets.Piece(1, data, 0, n), TwoBudgets.Piece(2, data, n, |data|),
     TwoBudgets.Piece(3, data, 0, m), TwoBudgets.Piece(4, data, m, |data|)]
  }

  /** A run of five passes: the data leave in one range, and four probe timeouts bring the pieces. */
  lemma FivePasses(w: Net, id: nat, data: seq<byte>, big: nat, base: int, raised: int, n: nat, m: nat)
      returns (events: seq<Event>, w': Net, s: Sender, ps: seq<Packet>)
    requires At(w, id, NewSender(id, C.INITIAL_FLOW_WINDOW, false), [], []) && w.c.h.out.flight == 0
    requires TwoBudgets.Divide(id, data, big, base, raised) && C.INITIAL_FLOW_WINDOW >= |data|
    requires n == TwoBudgets.Cut(id, data, base) && m == TwoBudgets.Cut(id, data, raised) && TailsFit(id, |data|, n, m, raised)
    ensures w' == Exec(w, events) && At(w', id, s, ps, Five(data, n, m)) && s.eofSent && s.sentRanges == Five(data, n, m)[1..]
  {
    var r := TwoBudgets.Original(data);
    var s1 := TwoBudgets.AllSent(id, data, C.INITIAL_FLOW_WINDOW, [r], [], 1);
    var calls := FourCalls(id, C.INITIAL_FLOW_WINDOW, data, base, raised, n, m);
    FirstCall(id, C.INITIAL_FLOW_WINDOW, data, big);
    CallsFollow(id, C.INITIAL_FLOW_WINDOW, data, big, base, raised, n, m);
    CallsEnd(id, C.INITIAL_FLOW_WINDOW, data, base, raised, n, m, s1);
    s := Final(s1, calls);
    events, w', ps := PassesFollow(w, id, data, big, s1, r, calls, s, Five(data, n, m));
  }

  lemma CallsEnd(id: nat, window: nat, data: seq<byte>, base: int, raised: int, n: nat, m: nat, s1: Sender)
    requires n <= |data| && m <= |data|
    ensures var calls := FourCalls(id, window, data, base, raised, n, m);
            && Final(s1, calls).eofSent && Final(s1, calls).sentRanges == Five(data, n, m)[1..]
            && [TwoBudgets.Original(data)] + Outs(calls) == Five(data, n, m)
  {
  }

  lemma PassesFollow(w: Net, id: nat, data: seq<byte>, big: int, s1: Sender, r: SentRange, calls: seq<Call>,
                     s: Sender, xs: seq<SentRange>)
      returns (events: seq<Event>, w': Net, ps: seq<Packet>)
    requires At(w, id, NewSender(id, C.INITIAL_FLOW_WINDOW, false), [], []) && w.c.h.out.flight == 0 && data != []
    requires Hands(Append(NewSender(id, C.INITIAL_FLOW_WINDOW, false), [data], true), Call(big, s1, r))
    requires Chain(s1, r, calls) && s == Final(s1, calls) && xs == [r] + Outs(calls)
    ensures w' == Exec(w, events) && At(w', id, s, ps, xs)
  {
    var first, w1 := FirstPass(w, id, data, big + FIXED_OVERHEAD, s1, r);
    var probes;
    probes, w', ps := ProbePasses(w1, id, s1, [C.DataPacket(0, 0, First(id), r)], [r], calls);
    ExecConcat(w, first, probes);
    events := first + probes;
  }

  /** All but the first packet arrive, the ends before what crosses them, and are acknowledged. */
  lemma EndsArriveFirst(w: Net, id: nat, s: Sender, ps: seq<Packet>, xs: seq<SentRange>, data: seq<byte>, n: nat, m: nat)
      returns (events: seq<Event>)
    requires 0 < n < m < |data| && xs == Five(data, n, m)
    requires At(w, id, s, ps, xs) && s.eofSent && s.sentRanges == xs[1..]
    ensures var w' := Exec(w, events);
            && First(id) in w'.stories && First(id) in w'.c.f.streams && w'.c.f.streams[First(id)].Completed()
            && w'.stories[First(id)].ends.routed && forall x :: n <= x < m ==> !Reliability.Has(w'.stories[First(id)].ends, x)
  {
    var ends := TwoArrive(w, id, ps[1], ps[4], xs[1], xs[4]);
    var w1 := Exec(w, ends);
    var rest := TwoArrive(w1, id, ps[2], ps[3], xs[2], xs[3]);
    var w2 := Exec(w1, rest);
    ExecConcat(w, ends, rest);
    OnlyTheEndsStay(C.INITIAL_FLOW_WINDOW, data, n, m);
    var ack := C.AckFrame(0, [AckWire.Range(1, 5)], 0);
    AckCompletes(w2.c, id, s, ps, xs);
    AckIsFromPeer(w2);
    AckStaysHome(w2.c, w2.stories, 0, [AckWire.Range(1, 5)], 0);
    Prepend(w2, Loop(ack), []);
    ExecConcat(w, ends + rest, [Loop(ack)] + []);
    events := ends + rest + ([Loop(ack)] + []);
  }

  lemma AckIsFromPeer(w: Net)
    requires w.received == {} + {1} + {4} + {2} + {3}
    ensures FromPeer(w, C.AckFrame(0, [AckWire.Range(1, 5)], 0))
  {
  }

  /** The whole loop loses bytes: for every stream of data and every three budgets of which the first
      holds them all and the other two divide them, with both tails fitting the larger of the two,
      there is a run of the loop, its network and its peer in which the loop finds the half
      completed, the peer still has its entry, and the bytes between the two cuts are missing. The
      data are sent once and re-sent by probe timeouts. */
  lemma LoopLosesBytes(server: bool, rtt: Rtts.Rtt, cwnd: int, id: nat, data: seq<byte>, big: nat, base: int, raised: int)
      returns (events: seq<Event>)
    requires cwnd > 0 && server != (id % 2 == 1)
    requires TwoBudgets.Divide(id, data, big, base, raised) && C.INITIAL_FLOW_WINDOW >= |data|
    requires TailsFit(id, |data|, TwoBudgets.Cut(id, data, base), TwoBudgets.Cut(id, data, raised), raised)
    ensures var w := Exec(Init(server, rtt, cwnd), events);
            && First(id) in w.stories && First(id) in w.c.f.streams && w.c.f.streams[First(id)].Completed()
            && w.stories[First(id)].ends.routed
            && forall x :: TwoBudgets.Cut(id, data, base) <= x < TwoBudgets.Cut(id, data, raised) ==>
                 !Reliability.Has(w.stories[First(id)].ends, x)
  {
    var n, m := TwoBudgets.Cut(id, data, base), TwoBudgets.Cut(id, data, raised);
    var w0, open := Init(server, rtt, cwnd), Loop(C.Open(id, false));
    Opens(server, rtt, cwnd, id);
    var w1 := Step(w0, open);
    var passes, w2, s, ps := FivePasses(w1, id, data, big, base, raised, n, m);
    var arrivals := EndsArriveFirst(w2, id, s, ps, Five(data, n, m), data, n, m);
    ExecConcat(w1, passes, arrivals);
    Prepend(w0, open, passes + arrivals);
    events := [open] + (passes + arrivals);
  }
}
