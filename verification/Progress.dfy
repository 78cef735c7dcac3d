/** Whether a stream can go on: over all continuations, another byte can be sent exactly when the
    sender is in its connection's table or has window left. */
module Progresses {
  import opened Common
  import opened TriggerQueues
  import opened SendStreams
  import opened OrderingQueues
  import opened StreamPairs
  import opened PrefixSafety
  import opened FlowControl
  import opened Continuations

  // ---------------------------------------------------------------- a sender that hears nothing

  /** No window, and no window update reaches the sender any more. */
  ghost predicate Starved(p: Pair) { !p.listed && p.snd.Sendable() <= 0 }

  /** Without window triggerPacket moves neither the offset nor the window. */
  lemma FreshStandsStill(s: Sender, maxPayload: int)
    requires s.Sendable() <= 0
    ensures var t := Fresh(s, maxPayload).s; t.offset == s.offset && t.Sendable() == s.Sendable()
  {
  }

  lemma TriggerStandsStill(s: Sender, maxPayload: int)
    requires s.Sendable() <= 0
    ensures var t := Trigger(s, maxPayload).s; t.offset == s.offset && t.Sendable() == s.Sendable()
  {
    if s.retransmit == [] {
      FreshStandsStill(s, maxPayload);
    } else {
      var popped := s.(retransmit := s.retransmit[1..]);
      FreshStandsStill(popped.(retransmit := Pushed(popped.retransmit, s.retransmit[0])), maxPayload);
    }
  }

  lemma StarvedStep(p: Pair, e: Event)
    requires Starved(p)
    ensures Starved(Step(p, e)) && Step(p, e).snd.offset == p.snd.offset
  {
    match e
    case Emit(maxPayload) => TriggerStandsStill(p.snd, maxPayload);
    case AppendData(_, _) =>
    case Lose(_) =>
    case Deliver(_) =>
    case Acknowledge(_) =>
    case ReadUpTo(_) =>
    case _ => QuietStarves(p, e);
  }

  lemma QuietStarves(p: Pair, e: Event)
    requires Starved(p) && Quiet(e)
    ensures Starved(Step(p, e)) && Step(p, e).snd.offset == p.snd.offset
  {
    QuietFrame(p, e);
    UnlistedIsDeaf(p, e);
  }

  lemma UnlistedIsDeaf(p: Pair, e: Event)
    requires !p.listed && Quiet(e)
    ensures !Step(p, e).listed && Step(p, e).snd.window == p.snd.window
  {
  }

  /** Whatever the network, the peer and the application do, a starved stream sends no new byte. */
  lemma {:induction false} StarvedForever(p: Pair, es: seq<Event>)
    requires Starved(p)
    ensures Starved(Exec(p, es)) && Exec(p, es).snd.offset == p.snd.offset
    decreases |es|
  {
    if es != [] {
      StarvedForever(p, es[..|es| - 1]);
      StarvedStep(Exec(p, es[..|es| - 1]), es[|es| - 1]);
    }
  }

  // ---------------------------------------------------------------- a sender that can be helped

  /** The buffer holds bytes that may still be sent. */
  ghost predicate HasMore(s: Sender) { Flatten(s.inputBuffer) != [] && !s.cancelRequested && !s.eofSent }

  lemma WindowSendsMore(s: Sender)
    requires HasMore(s) && s.retransmit == [] && s.Sendable() > 0
    ensures Trigger(s, 29).s.offset > s.offset
  {
    var room := 29 - HeaderSize(s.id, s.offset, 29);
    assert FreshData(s, room) != [];
  }

  ghost predicate KeepsEntry(es: seq<Event>) { forall e :: e in es ==> !e.Unlist? }

  /** With window left, the queued retransmissions go out and then new bytes. */
  lemma WindowIsUsed(p: Pair) returns (es: seq<Event>)
    requires Safe(p) && HasMore(p.snd) && p.snd.Sendable() > 0
    ensures Exec(p, es).snd.offset > p.snd.offset && KeepsEntry(es)
  {
    AmpleFits(p);
    var flush := Flush(p, Ample(p.snd));
    es := flush + [Emit(29)];
    ExecConcat(p, flush, [Emit(29)]);
    ExecOne(Exec(p, flush), Emit(29));
    WindowSendsMore(Exec(p, flush).snd);
  }

  /** An update that raises the limit arrives. */
  lemma UpdateIsUsed(p: Pair, w: nat) returns (es: seq<Event>)
    requires Safe(p) && HasMore(p.snd) && p.listed && w in p.updatesMade && w > p.snd.sentSize
    ensures Exec(p, es).snd.offset > p.snd.offset && KeepsEntry(es)
  {
    StepKeepsSafe(p, DeliverUpdate(w));
    var rest := WindowIsUsed(Step(p, DeliverUpdate(w)));
    es := [DeliverUpdate(w)] + rest;
    Prepend(p, DeliverUpdate(w), rest);
  }

  lemma AdvanceIsPossible(p: Pair) returns (es: seq<Event>)
    requires Safe(p) && FlowOk(p) && HasMore(p.snd) && MayAdvance(p)
    requires !p.rcv.oq.eofReached && p.rcv.recvWindow > p.snd.sentSize
    ensures Exec(p, es).snd.offset > p.snd.offset && KeepsEntry(es)
  {
    if p.snd.Sendable() > 0 {
      es := WindowIsUsed(p);
    } else if p.updateQueued {
      StepKeepsSafe(p, SendUpdate);
      var rest := UpdateIsUsed(Step(p, SendUpdate), p.rcv.recvWindow);
      es := [SendUpdate] + rest;
      Prepend(p, SendUpdate, rest);
    } else {
      var w :| w in p.updatesOut && w > p.snd.window;
      es := UpdateIsUsed(p, w);
    }
  }

  /** Progress, exactly. After any run that left a live stream with everything sent read and more to
      send, some continuation sends another byte if and only if the sender is in its connection's
      table or needs no further limit for it. */
  lemma ProgressIsPossibleExactly(id: nat, window: nat, open: bool, events: seq<Event>)
    requires window > 0
    requires var p := Exec(Init(id, window, open), events);
             !p.rcv.oq.eofReached && |p.read| == p.snd.offset && HasMore(p.snd)
    ensures var p := Exec(Init(id, window, open), events);
            (exists es :: Exec(p, es).snd.offset > p.snd.offset) <==> p.listed || p.snd.Sendable() > 0
  {
    var p := Exec(Init(id, window, open), events);
    RunIsSafe(id, window, open, events);
    RunKeepsFlow(id, window, open, events);
    FlowNeverDeadlocks(id, window, open, events);
    if p.listed || p.snd.Sendable() > 0 {
      var es := AdvanceIsPossible(p);
      assert Exec(p, es).snd.offset > p.snd.offset;
    } else {
      forall es ensures Exec(p, es).snd.offset == p.snd.offset {
        StarvedForever(p, es);
      }
    }
  }

  // ---------------------------------------------------------------- a run that starves

  /** Everything sent was delivered, acknowledged and read, no window update was sent yet, and the
      buffer holds more than the window admits. */
  ghost predicate Idle(p: Pair) {
    && Safe(p) && p.routed && p.snd.sentRanges == [] && p.snd.retransmit == []
    && !p.snd.eofSent && !p.snd.cancelRequested && !p.snd.pendingOpen
    && p.rcv.oq == Queue([], p.snd.offset, false)
    && p.rcv.ackedWindow == p.rcv.initialWindow == p.snd.window
    && p.updatesOut == multiset{} && p.rcv.initialWindow !in p.updatesMade
    && 0 <= p.snd.Sendable() < |Flatten(p.snd.inputBuffer)|
  }

  /** The next packet fills the budget or what is left of the window. */
  lemma NextPacket(p: Pair, budget: int) returns (x: SentRange)
    requires Idle(p) && p.snd.Sendable() > 0 && budget >= 30
    ensures x.offset == p.snd.offset && x.data != [] && !x.eof && |x.data| <= p.snd.Sendable()
    ensures var t := Trigger(p.snd, budget);
            && t.out == Some(x)
            && t.s == Tracked(p.snd.(inputBuffer := t.s.inputBuffer), x.data, false)
            && |Flatten(t.s.inputBuffer)| == |Flatten(p.snd.inputBuffer)| - |x.data|
  {
    var s := p.snd;
    var room := budget - HeaderSize(s.id, s.offset, budget);
    var n := Min(room, s.Sendable());
    RestDropsBytes(s.inputBuffer, n);
    assert FreshData(s, room) == Flatten(s.inputBuffer)[..n];
    x := SentRange(s.nextUid, s.offset, Flatten(s.inputBuffer)[..n], false);
  }

  lemma ReadsNext(oq: Queue, d: RecvData, n: nat)
    requires oq.queue == [] && !oq.eofReached && d.offset == oq.nextOffset && d.data != [] && !d.eof && n == |d.data|
    ensures AfterPush(oq, d) == oq.(queue := [d]) && PushResult(oq, d) == Inserted
    ensures ReadBytes(AfterPush(oq, d), n) == d.data && AfterRead(AfterPush(oq, d), n) == Queue([], d.End(), false)
  {
    assert [] + [d] + [] == [d] && [d][1..] == [] && [] + d.data == d.data;
    assert Take([], [d], oq.nextOffset, n, false) == Take(d.data, [], d.End(), 0, false);
  }

  lemma Sends(p: Pair, budget: int) returns (x: SentRange)
    requires Idle(p) && p.snd.Sendable() > 0 && budget >= 30
    ensures x.offset == p.snd.offset && x.data != [] && !x.eof && |x.data| <= p.snd.Sendable()
    ensures var p', s' := Emitting(p, budget), Trigger(p.snd, budget).s;
            && p' == p.(snd := s', made := p'.made, emitted := p.emitted + {x}) && x in p'.emitted
            && s' == Tracked(p.snd.(inputBuffer := s'.inputBuffer), x.data, false)
            && s'.sentRanges == [x] && |Flatten(s'.inputBuffer)| == |Flatten(p.snd.inputBuffer)| - |x.data|
  {
    x := NextPacket(p, budget);
    assert [] + [x] == [x] && p.divided + {} == p.divided;
  }

  lemma Arrives(p: Pair, x: SentRange)
    requires p.routed && x in p.emitted && p.snd.sentRanges == [x]
    requires p.rcv.oq == Queue([], x.offset, false) && x.data != [] && !x.eof
    ensures var p' := Step(Step(p, Deliver(x)), Acknowledge(x));
            && p' == p.(snd := p.snd.(sentRanges := []), rcv := p.rcv.(oq := Queue([Frame(x)], x.offset, false)),
                        delivered := p'.delivered, accepted := p'.accepted)
  {
    ReadsNext(p.rcv.oq, Frame(x), |x.data|);
    assert Without([x], x) == [] by { assert [x][1..] == []; }
    assert x in Delivering(p, x).delivered;
  }

  lemma IsRead(p: Pair, x: SentRange)
    requires p.rcv.oq == Queue([Frame(x)], x.offset, false) && x.data != [] && !x.eof
    ensures var p' := Step(p, ReadUpTo(|x.data|));
            && p' == p.(rcv := p.rcv.(oq := Queue([], x.End(), false), recvWindow := p.rcv.recvWindow + |x.data|),
                        read := p'.read, updateQueued := p'.updateQueued)
            && (p.rcv.recvWindow + |x.data| - p.rcv.ackedWindow >= p.rcv.initialWindow / 2 ==> p'.updateQueued)
  {
    var empty := Queue([], x.offset, false);
    ReadsNext(empty, Frame(x), |x.data|);
    assert AfterPush(empty, Frame(x)) == p.rcv.oq;
  }

  /** It arrives, is acknowledged and read. */
  lemma Pump(p: Pair, budget: int) returns (es: seq<Event>)
    requires Idle(p) && p.snd.Sendable() > 0 && budget >= 30
    ensures var q := Exec(p, es);
            && Idle(q) && q.snd.Sendable() < p.snd.Sendable() && q.listed == p.listed
            && q.rcv.initialWindow == p.rcv.initialWindow && q.snd.signalEOF == p.snd.signalEOF
            && (q.snd.Sendable() == 0 ==> q.updateQueued)
    ensures KeepsEntry(es)
  {
    var x := Sends(p, budget);
    assert Step(p, Emit(budget)) == Emitting(p, budget);
    var e1, e2, e3, e4 := Emit(budget), Deliver(x), Acknowledge(x), ReadUpTo(|x.data|);
    FourSteps(p, e1, e2, e3, e4);
    es := [e1] + ([e2] + ([e3] + [e4]));
    PumpRuns(p, x, Step(p, e1), Exec(p, es));
  }

  lemma PumpRuns(p: Pair, x: SentRange, p1: Pair, q: Pair)
    requires Idle(p) && p.snd.Sendable() > 0 && Safe(q)
    requires x.offset == p.snd.offset && x.data != [] && !x.eof && |x.data| <= p.snd.Sendable()
    requires p1 == p.(snd := p1.snd, made := p1.made, emitted := p.emitted + {x}) && x in p1.emitted
    requires p1.snd == Tracked(p.snd.(inputBuffer := p1.snd.inputBuffer), x.data, false)
    requires p1.snd.sentRanges == [x] && |Flatten(p1.snd.inputBuffer)| == |Flatten(p.snd.inputBuffer)| - |x.data|
    requires q == Step(Step(Step(p1, Deliver(x)), Acknowledge(x)), ReadUpTo(|x.data|))
    ensures Idle(q) && q.snd.Sendable() < p.snd.Sendable() && q.listed == p.listed
    ensures q.rcv.initialWindow == p.rcv.initialWindow && q.snd.signalEOF == p.snd.signalEOF
    ensures q.snd.Sendable() == 0 ==> q.updateQueued
  {
    Arrives(p1, x);
    IsRead(Step(Step(p1, Deliver(x)), Acknowledge(x)), x);
    PumpStaysIdle(p, x, p1.snd, q);
  }

  lemma FourSteps(p: Pair, e1: Event, e2: Event, e3: Event, e4: Event)
    ensures Exec(p, [e1] + ([e2] + ([e3] + [e4]))) == Step(Step(Step(Step(p, e1), e2), e3), e4)
    ensures Safe(p) ==> Safe(Step(Step(Step(Step(p, e1), e2), e3), e4))
  {
    var p1 := Step(p, e1);
    var p2 := Step(p1, e2);
    var p3 := Step(p2, e3);
    ExecOne(p3, e4);
    Prepend(p2, e3, [e4]);
    Prepend(p1, e2, [e3] + [e4]);
    Prepend(p, e1, [e2] + ([e3] + [e4]));
    if Safe(p) {
      StepKeepsSafe(p, e1);
      StepKeepsSafe(p1, e2);
      StepKeepsSafe(p2, e3);
      StepKeepsSafe(p3, e4);
    }
  }

  lemma PumpStaysIdle(p: Pair, x: SentRange, s: Sender, q: Pair)
    requires Idle(p) && p.snd.Sendable() > 0 && Safe(q)
    requires x.offset == p.snd.offset && x.data != [] && !x.eof && |x.data| <= p.snd.Sendable()
    requires s == Tracked(p.snd.(inputBuffer := s.inputBuffer), x.data, false)
    requires |Flatten(s.inputBuffer)| == |Flatten(p.snd.inputBuffer)| - |x.data|
    requires q.snd == s.(sentRanges := []) && q.routed && q.updatesOut == p.updatesOut && q.updatesMade == p.updatesMade
    requires q.rcv == p.rcv.(oq := Queue([], x.End(), false), recvWindow := p.rcv.recvWindow + |x.data|)
    requires p.rcv.recvWindow + |x.data| - p.rcv.ackedWindow >= p.rcv.initialWindow / 2 ==> q.updateQueued
    ensures Idle(q) && q.snd.Sendable() < p.snd.Sendable() && q.snd.signalEOF == p.snd.signalEOF
    ensures q.snd.Sendable() == 0 ==> q.updateQueued
  {
  }

  lemma {:induction false} PumpDry(p: Pair, budget: int) returns (es: seq<Event>)
    requires Idle(p) && budget >= 30 && (p.snd.Sendable() == 0 ==> p.updateQueued)
    ensures var q := Exec(p, es);
            && Idle(q) && q.snd.Sendable() == 0 && q.updateQueued && q.listed == p.listed
            && q.rcv.initialWindow == p.rcv.initialWindow && q.snd.signalEOF == p.snd.signalEOF
    ensures KeepsEntry(es)
    decreases p.snd.Sendable()
  {
    if p.snd.Sendable() == 0 {
      es := [];
    } else {
      var one := Pump(p, budget);
      var rest := PumpDry(Exec(p, one), budget);
      ExecConcat(p, one, rest);
      es := one + rest;
    }
  }

  /** Nothing is on its way that could help, although everything is read and there is more to send. */
  ghost predicate Deadlocked(p: Pair) {
    && !p.rcv.oq.eofReached && |p.read| == p.snd.offset && HasMore(p.snd) && Starved(p)
    && p.snd.sentRanges == [] && !p.updateQueued && p.updatesOut == multiset{}
  }

  /** The window update arrives, is acknowledged and changes nothing. */
  lemma UpdateIsWasted(p: Pair) returns (es: seq<Event>)
    requires Idle(p) && !p.listed && p.snd.Sendable() == 0 && p.updateQueued
    ensures Deadlocked(Exec(p, es)) && KeepsEntry(es)
  {
    var w := p.rcv.recvWindow;
    var e1, e2, e3 := SendUpdate, DeliverUpdate(w), AcknowledgeUpdate(w);
    var p1 := Step(p, e1);
    var p2 := Step(p1, e2);
    UpdateRoundTrip(p, w);
    ExecOne(p2, e3);
    Prepend(p1, e2, [e3]);
    Prepend(p, e1, [e2] + [e3]);
    es := [e1] + ([e2] + [e3]);
  }

  lemma UpdateRoundTrip(p: Pair, w: nat)
    requires p.updateQueued && !p.rcv.oq.eofReached && !p.listed && p.updatesOut == multiset{} && w == p.rcv.recvWindow
    ensures var q := Step(Step(Step(p, SendUpdate), DeliverUpdate(w)), AcknowledgeUpdate(w));
            && q.snd == p.snd && q.listed == p.listed && q.rcv.oq == p.rcv.oq && q.read == p.read
            && !q.updateQueued && q.updatesOut == multiset{}
  {
    var p1 := Step(p, SendUpdate);
    assert p1.updatesOut == multiset{w} && w in p1.updatesMade;
    var p2 := Step(p1, DeliverUpdate(w));
    assert p2 == p1.(updatesArrived := p1.updatesArrived + {w});
  }

  /** A sender that left its table deadlocks: for every window and every budget that fits a header
      and two bytes, a stream with more to send than the window admits uses its window up, is read,
      and has its window update acknowledged without getting it. */
  lemma UnlistedDeadlocks(p: Pair, budget: int) returns (es: seq<Event>)
    requires Idle(p) && !p.listed && p.snd.Sendable() > 0 && budget >= 30
    ensures Deadlocked(Exec(p, es)) && KeepsEntry(es)
  {
    var dry := PumpDry(p, budget);
    var rest := UpdateIsWasted(Exec(p, dry));
    ExecConcat(p, dry, rest);
    es := dry + rest;
  }
}
