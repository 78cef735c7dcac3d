/** Continuing a run of a stream pair: how runs join, what every run keeps beyond safety, and how
    any stream whose EOF is out can be brought to its end. */
module Continuations {
  import opened Common
  import opened TriggerQueues
  import opened SendStreams
  import opened OrderingQueues
  import opened StreamPairs
  import opened PrefixSafety
  import opened Reliability

  // ---------------------------------------------------------------- continuing a run

  lemma {:induction false} ExecConcat(p: Pair, a: seq<Event>, b: seq<Event>)
    ensures Exec(p, a + b) == Exec(Exec(p, a), b)
    decreases |b|
  {
    if b == [] {
      assert a + b == a;
    } else {
      assert (a + b)[..|a + b| - 1] == a + b[..|b| - 1];
      ExecConcat(p, a, b[..|b| - 1]);
    }
  }

  lemma {:induction false} EveryEmitConcat(p: Pair, a: seq<Event>, b: seq<Event>, ok: (Pair, int) -> bool)
    ensures EveryEmit(p, a + b, ok) <==> EveryEmit(p, a, ok) && EveryEmit(Exec(p, a), b, ok)
    decreases |b|
  {
    if b == [] {
      assert a + b == a;
    } else {
      assert (a + b)[..|a + b| - 1] == a + b[..|b| - 1];
      EveryEmitConcat(p, a, b[..|b| - 1], ok);
      ExecConcat(p, a, b[..|b| - 1]);
    }
  }

  lemma ExecOne(p: Pair, e: Event)
    ensures Exec(p, [e]) == Step(p, e)
  {
    assert [e][..0] == [];
  }

  lemma EveryEmitOne(p: Pair, e: Event, ok: (Pair, int) -> bool)
    ensures EveryEmit(p, [e], ok) <==> (e.Emit? ==> ok(p, e.maxPayload))
  {
    assert [e][..0] == [];
  }

  ghost predicate Undivided(p: Pair, maxPayload: int) { !Divides(p.snd, maxPayload) }

  /** The run divides nothing. */
  ghost predicate Divisionless(p: Pair, events: seq<Event>) { EveryEmit(p, events, Undivided) }

  /** The payload budgets of a run, in order. */
  function Budgets(events: seq<Event>): seq<int> {
    if events == [] then []
    else
      var e := events[|events| - 1];
      Budgets(events[..|events| - 1]) + (if e.Emit? then [e.maxPayload] else [])
  }

  function Repeated(n: nat, budget: int): seq<int> { seq(n, _ => budget) }

  lemma {:induction false} BudgetsConcat(a: seq<Event>, b: seq<Event>)
    ensures Budgets(a + b) == Budgets(a) + Budgets(b)
    decreases |b|
  {
    if b == [] {
      assert a + b == a;
    } else {
      assert (a + b)[..|a + b| - 1] == a + b[..|b| - 1];
      BudgetsConcat(a, b[..|b| - 1]);
    }
  }

  /** One more event at the front. */
  lemma Prepend(p: Pair, e: Event, rest: seq<Event>)
    ensures Exec(p, [e] + rest) == Exec(Step(p, e), rest)
    ensures Divisionless(p, [e] + rest) <==> (e.Emit? ==> !Divides(p.snd, e.maxPayload)) && Divisionless(Step(p, e), rest)
    ensures Budgets([e] + rest) == (if e.Emit? then [e.maxPayload] else []) + Budgets(rest)
  {
    PrependRuns(p, e, rest);
    PrependDivides(p, e, rest);
    PrependBudgets(e, rest);
  }

  lemma PrependRuns(p: Pair, e: Event, rest: seq<Event>)
    ensures Exec(p, [e] + rest) == Exec(Step(p, e), rest)
  {
    ExecConcat(p, [e], rest);
    ExecOne(p, e);
  }

  lemma PrependDivides(p: Pair, e: Event, rest: seq<Event>)
    ensures Divisionless(p, [e] + rest) <==> (e.Emit? ==> !Divides(p.snd, e.maxPayload)) && Divisionless(Step(p, e), rest)
  {
    EveryEmitConcat(p, [e], rest, Undivided);
    ExecOne(p, e);
    EveryEmitOne(p, e, Undivided);
  }

  lemma PrependBudgets(e: Event, rest: seq<Event>)
    ensures Budgets([e] + rest) == (if e.Emit? then [e.maxPayload] else []) + Budgets(rest)
  {
    BudgetsConcat([e], rest);
    assert [e][..0] == [];
  }

  lemma Join(p: Pair, a: seq<Event>, b: seq<Event>)
    ensures Exec(p, a + b) == Exec(Exec(p, a), b)
    ensures Divisionless(p, a + b) <==> Divisionless(p, a) && Divisionless(Exec(p, a), b)
    ensures Budgets(a + b) == Budgets(a) + Budgets(b)
  {
    ExecConcat(p, a, b);
    EveryEmitConcat(p, a, b, Undivided);
    BudgetsConcat(a, b);
  }

  // ---------------------------------------------------------------- what every run keeps

  /** The range can reach the receiver without another division. */
  ghost predicate Deliverable(p: Pair, u: SentRange) { u in p.emitted || u in p.snd.retransmit }

  /** The receiver has a byte of the range. */
  ghost predicate Touched(p: Pair, f: SentRange) { exists x :: f.Has(x) && Has(p, x) }

  ghost predicate StoredApart(p: Pair) {
    forall a, b :: a in p.accepted && b in p.accepted && a != b ==> !Shares(a, b)
  }

  ghost predicate Trackable(p: Pair) { forall f :: f in p.snd.sentRanges ==> Deliverable(p, f) }

  /** While the entry is there, a delivered range left a trace, and an empty EOF range is tracked
      until the receiver has the EOF. */
  ghost predicate Traced(p: Pair) {
    && (forall f :: f in p.delivered && f.data != [] ==> Touched(p, f))
    && (forall f :: f in p.delivered && f.data == [] && f.eof ==> HasEof(p))
    && (forall f :: f in p.made && f.data == [] && f.eof ==> f in p.snd.sentRanges || HasEof(p))
  }

  ghost predicate Regular(p: Pair) {
    Safe(p) && Provenance(p) && StoredApart(p) && Trackable(p) && (p.routed ==> Traced(p))
  }

  /** A range with bytes is stored exactly when the receiver has none of them. */
  lemma StoresExactly(p: Pair, f: SentRange)
    requires Safe(p) && f in p.made && f.data != []
    ensures Stores(p.rcv, f) <==> !Touched(p, f)
  {
    if !Stores(p.rcv, f) {
      var x := RefusedTouches(p, f);
    } else {
      forall x | f.Has(x) ensures !Has(p, x) {
        StoredWasFree(p, f, x);
      }
    }
  }

  lemma StoredWasFree(p: Pair, f: SentRange, x: int)
    requires Safe(p) && Stores(p.rcv, f) && f.Has(x)
    ensures !Has(p, x)
  {
    var oq := p.rcv.oq;
    var q := oq.queue;
    var i := FirstAtOrAbove(q, f.offset);
    forall k | 0 <= k < |q| ensures !q[k].Has(x) {
      if k + 1 < i {
        assert Before(q[k], q[i - 1]);
      } else if i < k {
        assert Before(q[i], q[k]);
      }
    }
  }

  lemma DeliverKeepsRegular(p: Pair, f: SentRange)
    requires Regular(p) && f in p.emitted
    ensures Regular(Delivering(p, f))
  {
    var p' := Delivering(p, f);
    DeliverKeeps(p, f);
    DeliverKeepsProvenance(p, f);
    DeliverOnlyAdds(p, f);
    DeliverKeepsApart(p, f);
    if p.routed {
      DeliverKeepsTraced(p, f);
    }
  }

  lemma DeliverKeepsTraced(p: Pair, f: SentRange)
    requires Safe(p) && Traced(p) && p.routed && f in p.emitted
    ensures Traced(Delivering(p, f))
  {
    var p' := Delivering(p, f);
    DeliverOnlyAdds(p, f);
    DeliveryLeavesTrace(p, f);
    forall g | g in p'.delivered && g.data != [] ensures Touched(p', g) {
      if g != f {
        var x :| g.Has(x) && Has(p, x);
        assert Has(p', x);
      }
    }
  }

  lemma DeliverKeepsApart(p: Pair, f: SentRange)
    requires Safe(p) && Provenance(p) && StoredApart(p) && f in p.emitted
    ensures StoredApart(Delivering(p, f))
  {
    if p.routed && Stores(p.rcv, f) {
      forall g | g in p.accepted ensures !Shares(f, g) && !Shares(g, f) {
        if Shares(f, g) || Shares(g, f) {
          var x := Max(f.offset, g.offset);
          assert f.Has(x) && g.Has(x);
          assert Has(p, x);
          StoresExactly(p, f);
        }
      }
    }
  }

  lemma DeliveryLeavesTrace(p: Pair, f: SentRange)
    requires Safe(p) && p.routed && f in p.emitted
    ensures f.data != [] ==> Touched(Delivering(p, f), f)
    ensures f.data == [] && f.eof ==> HasEof(Delivering(p, f))
  {
    var p' := Delivering(p, f);
    if Stores(p.rcv, f) {
      PushCovers(p.rcv.oq, Frame(f), f.offset);
      if f.data != [] {
        assert f.Has(f.offset) && Has(p', f.offset);
      }
    } else if f.data != [] {
      var x := RefusedTouches(p, f);
      assert Has(p', x);
    } else if f.eof {
      RefusedEof(p, f);
    }
  }

  /** The receiver and its history are the same, and the sender still holds what it held. */
  lemma SameReceiverRegular(p: Pair, p': Pair)
    requires Regular(p) && Safe(p')
    requires (forall x :: Has(p', x) <==> Has(p, x)) && (HasEof(p') <==> HasEof(p))
    requires p'.accepted == p.accepted && p'.delivered == p.delivered && (p'.routed ==> p.routed)
    requires Trackable(p')
    requires forall f :: f in p'.made && f.data == [] && f.eof && f !in p'.snd.sentRanges ==>
               f in p.made && f !in p.snd.sentRanges
    ensures Regular(p')
  {
    forall f | f in p.delivered && f.data != [] && Touched(p, f) ensures Touched(p', f) {
      var x :| f.Has(x) && Has(p, x);
      assert Has(p', x);
    }
  }

  lemma AckKeepsRegular(p: Pair, f: SentRange)
    requires Regular(p) && f in p.delivered
    ensures Regular(p.(snd := Acked(p.snd, f)))
  {
    var p' := p.(snd := Acked(p.snd, f));
    AckKeeps(p, f);
    SameReceiver(p, p');
    WithoutMembers(p.snd.sentRanges, f);
    assert forall x :: Has(p', x) <==> Has(p, x);
    forall g | p.routed && g in p.delivered && g.data != [] ensures Touched(p', g) {
      var x :| g.Has(x) && Has(p, x);
      assert Has(p', x);
    }
  }

  /** What triggerPacket keeps deliverable, and what it leaves untracked. */
  ghost predicate Tracks(p: Pair, p': Pair) {
    && Trackable(p')
    && (forall f :: f in p'.made && f.data == [] && f.eof && f !in p'.snd.sentRanges ==> f in p.made && f !in p.snd.sentRanges)
  }

  lemma FreshTracks(p: Pair, p': Pair, maxPayload: int)
    requires Trackable(p)
    requires var t := Fresh(p.snd, maxPayload);
             && p'.snd == t.s && p'.made == p.made + Out(t)
             && p'.emitted == p.emitted + Out(t)
    ensures Tracks(p, p')
  {
  }

  lemma NewTracks(p: Pair, maxPayload: int)
    requires Trackable(p) && p.snd.retransmit == []
    ensures Tracks(p, Emitting(p, maxPayload))
  {
    assert p.emitted + {} == p.emitted;
    FreshTracks(p, Emitting(p, maxPayload), maxPayload);
  }

  lemma StuckTracks(p: Pair, maxPayload: int)
    requires Trackable(p) && Stuck(p.snd, maxPayload)
    ensures Tracks(p, Emitting(p, maxPayload))
  {
    StuckEmitsFresh(p, maxPayload);
    FreshTracks(p.(snd := Rotated(p.snd)), Emitting(p, maxPayload), maxPayload);
  }

  lemma EmitTracks(p: Pair, maxPayload: int)
    requires Safe(p) && Trackable(p)
    ensures Tracks(p, Emitting(p, maxPayload))
  {
    var p' := Emitting(p, maxPayload);
    if p.snd.retransmit == [] {
      NewTracks(p, maxPayload);
    } else if Stuck(p.snd, maxPayload) {
      StuckTracks(p, maxPayload);
    } else if Divides(p.snd, maxPayload) {
      SplitTracks(p, maxPayload);
    } else {
      assert p.made + {p.snd.retransmit[0]} == p.made;
    }
  }

  /** The two fragments of the range at the head of the queue. */
  function CutHead(s: Sender, maxPayload: int): SentRange
    requires Divides(s, maxPayload)
  {
    SplitHead(s, s.retransmit[0], CutAt(s, maxPayload))
  }

  function CutTail(s: Sender, maxPayload: int): SentRange
    requires Divides(s, maxPayload)
  {
    SplitTail(s, s.retransmit[0], CutAt(s, maxPayload))
  }

  lemma SplitTracks(p: Pair, maxPayload: int)
    requires Safe(p) && Divides(p.snd, maxPayload)
    ensures var p', src := Emitting(p, maxPayload), p.snd.retransmit[0];
            var head, tail := CutHead(p.snd, maxPayload), CutTail(p.snd, maxPayload);
            && (forall f :: f in p'.snd.sentRanges <==> (f in p.snd.sentRanges && f != src) || f == head || f == tail)
            && p'.made == p.made + {head, tail} && p'.emitted == p.emitted + {head}
            && (forall f :: f in p'.snd.retransmit <==> f in p.snd.retransmit[1..] || f == tail)
            && Halves(src, head, tail) && tail.eof == src.eof && src in p.made
  {
    ReplacedMembers(p.snd.sentRanges, p.snd.retransmit[0], [CutHead(p.snd, maxPayload), CutTail(p.snd, maxPayload)]);
  }

  lemma EmitKeepsRegular(p: Pair, maxPayload: int)
    requires Regular(p)
    ensures Regular(Emitting(p, maxPayload))
  {
    EmitIsSafe(p, maxPayload);
    EmitTracks(p, maxPayload);
    EmitGrows(p, maxPayload);
    var p' := Emitting(p, maxPayload);
    assert forall x :: Has(p', x) <==> Has(p, x);
    SameReceiverRegular(p, p');
  }

  lemma StepKeepsRegular(p: Pair, e: Event)
    requires Regular(p)
    ensures Regular(Step(p, e))
  {
    match e
    case Emit(maxPayload) => EmitKeepsRegular(p, maxPayload);
    case Deliver(x) => if x in p.emitted { DeliverKeepsRegular(p, x); }
    case Acknowledge(x) => if x in p.delivered { AckKeepsRegular(p, x); }
    case ReadUpTo(n) =>
      ReadKeeps(p, n);
      ReadKeepsHas(p, n);
      SameReceiverRegular(p, Reading(p, n));
    case AppendData(chunks, eof) => AppendKeepsRegular(p, chunks, eof);
    case Lose(x) => if x in p.emitted { LoseKeepsRegular(p, x); }
    case _ => QuietKeepsRegular(p, e);
  }

  lemma AppendKeepsRegular(p: Pair, chunks: seq<seq<byte>>, eof: bool)
    requires Regular(p)
    ensures Regular(Step(p, AppendData(chunks, eof)))
  {
    AppendKeeps(p, chunks, eof);
    SameReceiverRegular(p, Step(p, AppendData(chunks, eof)));
  }

  lemma LoseKeepsRegular(p: Pair, x: SentRange)
    requires Regular(p) && x in p.emitted
    ensures Regular(p.(snd := Lost(p.snd, x)))
  {
    var p' := p.(snd := Lost(p.snd, x));
    QuietKeeps(p, p');
    SameReceiverRegular(p, p');
  }

  lemma QuietKeepsRegular(p: Pair, e: Event)
    requires Regular(p) && Quiet(e)
    ensures Regular(Step(p, e))
  {
    QuietStepKeeps(p, e);
    QuietFrame(p, e);
    RoutedOnlyEnds(p, e);
    SameReceiverRegular(p, Step(p, e));
  }

  lemma {:induction false} RunIsRegular(id: nat, window: nat, open: bool, events: seq<Event>)
    ensures Regular(Exec(Init(id, window, open), events))
  {
    if events != [] {
      RunIsRegular(id, window, open, events[..|events| - 1]);
      StepKeepsRegular(Exec(Init(id, window, open), events[..|events| - 1]), events[|events| - 1]);
    }
  }

  lemma {:induction false} RunStaysSafe(p: Pair, es: seq<Event>)
    requires Safe(p)
    ensures Safe(Exec(p, es))
    decreases |es|
  {
    if es != [] {
      RunStaysSafe(p, es[..|es| - 1]);
      StepKeepsSafe(Exec(p, es[..|es| - 1]), es[|es| - 1]);
    }
  }

  // ---------------------------------------------------------------- bringing a stream to its end

  /** Every queued retransmission fits the budget as it is. */
  ghost predicate QueueFits(s: Sender, budget: int) {
    forall x :: x in s.retransmit ==> HeaderSize(s.id, x.offset, |x.data|) + |x.data| <= budget
  }

  ghost function Flushed(p: Pair): Pair {
    p.(snd := p.snd.(retransmit := []), emitted := p.emitted + (set x | x in p.snd.retransmit))
  }

  lemma FlushOne(p: Pair, budget: int)
    requires Safe(p) && p.snd.retransmit != [] && QueueFits(p.snd, budget)
    ensures var p', src := Step(p, Emit(budget)), p.snd.retransmit[0];
            && p' == p.(snd := p.snd.(retransmit := p.snd.retransmit[1..]), emitted := p.emitted + {src})
            && !Divides(p.snd, budget)
  {
    var src := p.snd.retransmit[0];
    assert p.made + {src} == p.made && p.divided + {} == p.divided;
  }

  lemma FlushedNext(p: Pair, p': Pair)
    requires p.snd.retransmit != []
    requires p' == p.(snd := p.snd.(retransmit := p.snd.retransmit[1..]), emitted := p.emitted + {p.snd.retransmit[0]})
    ensures Flushed(p') == Flushed(p)
  {
    assert p'.emitted + (set x | x in p'.snd.retransmit) == p.emitted + (set x | x in p.snd.retransmit);
  }

  /** A large budget empties the retransmit queue without a division. */
  lemma {:induction false} Flush(p: Pair, budget: int) returns (es: seq<Event>)
    requires Safe(p) && QueueFits(p.snd, budget)
    ensures Exec(p, es) == Flushed(p) && Divisionless(p, es) && forall e :: e in es ==> e.Emit?
    ensures Budgets(es) == Repeated(|p.snd.retransmit|, budget)
    decreases |p.snd.retransmit|
  {
    if p.snd.retransmit == [] {
      es := [];
      assert p.emitted + (set x | x in p.snd.retransmit) == p.emitted;
    } else {
      FlushOne(p, budget);
      StepKeepsSafe(p, Emit(budget));
      var p' := Step(p, Emit(budget));
      var rest := Flush(p', budget);
      es := [Emit(budget)] + rest;
      Prepend(p, Emit(budget), rest);
      FlushedNext(p, p');
    }
  }

  /** A delivery that cannot bring byte x. */
  lemma DeliverMisses(p: Pair, f: SentRange, x: int)
    requires Safe(p) && f in p.emitted && !Has(p, x) && (p.routed && f.Has(x) ==> Touched(p, f))
    ensures !Has(Delivering(p, f), x)
  {
    if p.routed && Stores(p.rcv, f) {
      PushCovers(p.rcv.oq, Frame(f), x);
      if f.Has(x) {
        StoresExactly(p, f);
      }
    }
  }

  lemma TouchedStays(p: Pair, f: SentRange, g: SentRange)
    requires Touched(p, g)
    ensures Touched(Delivering(p, f), g)
  {
    var x :| g.Has(x) && Has(p, x);
    DeliverOnlyAdds(p, f);
    assert Has(Delivering(p, f), x);
  }

  /** No tracked range can bring any of these bytes any more. */
  ghost predicate Stranded(p: Pair, xs: set<int>) {
    forall x :: x in xs ==> !Has(p, x) && (p.routed ==> forall f :: f in p.snd.sentRanges && f.Has(x) ==> Touched(p, f))
  }

  lemma SettleOne(p: Pair, xs: set<int>)
    requires Safe(p) && p.snd.sentRanges != [] && Stranded(p, xs)
    requires forall f :: f in p.snd.sentRanges ==> f in p.emitted
    ensures var f := p.snd.sentRanges[0];
            var p' := Step(Step(p, Deliver(f)), Acknowledge(f));
            && p'.snd == p.snd.(sentRanges := p.snd.sentRanges[1..]) && p'.emitted == p.emitted
            && p'.made == p.made && p'.routed == p.routed && Safe(p') && Stranded(p', xs)
            && (!p.routed ==> p'.rcv == p.rcv)
  {
    var f := p.snd.sentRanges[0];
    var mid := Step(p, Deliver(f));
    var p' := Step(mid, Acknowledge(f));
    assert f in p.emitted;
    StepKeepsSafe(p, Deliver(f));
    StepKeepsSafe(mid, Acknowledge(f));
    WithoutAbsent(p.snd.sentRanges[1..], f);
    forall x | x in xs
      ensures !Has(p', x) && (p'.routed ==> forall g :: g in p'.snd.sentRanges && g.Has(x) ==> Touched(p', g))
    {
      DeliverMisses(p, f, x);
      forall g | p.routed && g in p'.snd.sentRanges && g.Has(x) ensures Touched(p', g) {
        assert g in p.snd.sentRanges;
        TouchedStays(p, f, g);
        var y :| g.Has(y) && Has(mid, y);
        assert Has(p', y);
      }
    }
  }

  /** Everything tracked arrives and is acknowledged, and the stranded bytes stay missing. */
  lemma {:induction false} Settle(p: Pair, xs: set<int>) returns (es: seq<Event>)
    requires Safe(p) && Stranded(p, xs) && forall f :: f in p.snd.sentRanges ==> f in p.emitted
    ensures var p' := Exec(p, es);
            && p'.snd == p.snd.(sentRanges := []) && p'.routed == p.routed && p'.made == p.made
            && (forall x :: x in xs ==> !Has(p', x)) && (!p.routed ==> p'.rcv == p.rcv)
    ensures Divisionless(p, es) && Budgets(es) == []
    decreases |p.snd.sentRanges|
  {
    if p.snd.sentRanges == [] {
      es := [];
    } else {
      var f := p.snd.sentRanges[0];
      SettleOne(p, xs);
      var mid := Step(p, Deliver(f));
      var rest := Settle(Step(mid, Acknowledge(f)), xs);
      Prepend(mid, Acknowledge(f), rest);
      Prepend(p, Deliver(f), [Acknowledge(f)] + rest);
      es := [Deliver(f)] + ([Acknowledge(f)] + rest);
    }
  }

  /** A budget at which any retransmission of the stream fits. */
  function Ample(s: Sender): nat { s.offset + 28 }

  lemma AmpleFits(p: Pair)
    requires Safe(p)
    ensures QueueFits(p.snd, Ample(p.snd))
  {
    forall x | x in p.snd.retransmit ensures HeaderSize(p.snd.id, x.offset, |x.data|) + |x.data| <= Ample(p.snd) {
      assert x in p.made;
      assert RangeOk(p, x);
    }
  }

  // ---------------------------------------------------------------- scripts

  lemma AppendsOne(s: Sender, c: seq<byte>, eof: bool)
    requires s.inputBuffer == [] && AppendResult(s) == Appended
    ensures Append(s, [c], eof) == s.(inputBuffer := [c], dataInBuffer := s.dataInBuffer + |c|, signalEOF := s.signalEOF || eof)
  {
    assert Flatten([c]) == c by { assert [c][1..] == []; }
    assert [] + [c] == [c];
  }

  /** A budget and a window with room for the whole buffer send it in one range. */
  lemma EmitsBuffer(s: Sender, c: seq<byte>, budget: int)
    requires s.inputBuffer == [c] && c != [] && s.retransmit == [] && !s.eofSent && !s.cancelRequested && !s.pendingOpen
    requires budget >= 0 && s.Sendable() >= |c| && budget - HeaderSize(s.id, s.offset, budget) >= |c|
    ensures var t := Trigger(s, budget);
            && t.s == Tracked(s.(inputBuffer := []), c, s.signalEOF)
            && t.out == Some(SentRange(s.nextUid, s.offset, c, s.signalEOF))
            && !Divides(s, budget)
  {
    assert Flatten([c]) == c by { assert [c][1..] == []; }
    var room := budget - HeaderSize(s.id, s.offset, budget);
    assert FreshData(s, room) == c && FreshRest(s, room) == [] && FreshEof(s, room) == s.signalEOF;
  }
}
