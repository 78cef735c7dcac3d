/** When the ranges of a stream are nested or disjoint, and what happens when they are not. */
module Division {
  import opened Common
  import opened TriggerQueues
  import opened SendStreams
  import opened OrderingQueues
  import opened StreamPairs
  import opened PrefixSafety
  import opened Reliability

  /** Pairwise nested or disjoint. */
  ghost predicate Laminar(made: set<SentRange>) {
    forall a, b :: a in made && b in made ==> Apart(a, b) || Inside(a, b) || Inside(b, a)
  }

  lemma FewerIsLaminar(made: set<SentRange>, made': set<SentRange>)
    requires made <= made' && Laminar(made')
    ensures Laminar(made)
  {
  }

  lemma {:induction false} EveryEmitWeakens(p: Pair, events: seq<Event>, ok: (Pair, int) -> bool, ok': (Pair, int) -> bool)
    requires EveryEmit(p, events, ok) && forall q, m :: ok(q, m) ==> ok'(q, m)
    ensures EveryEmit(p, events, ok')
    decreases |events|
  {
    if events != [] {
      EveryEmitWeakens(p, events[..|events| - 1], ok, ok');
    }
  }

  /** No call of triggerPacket divides a range that was divided before. */
  ghost predicate FirstDivision(p: Pair, maxPayload: int) {
    Divides(p.snd, maxPayload) ==> p.snd.retransmit[0] !in p.divided
  }

  ghost predicate DividesOnce(p: Pair, events: seq<Event>) { EveryEmit(p, events, FirstDivision) }

  /** The undivided ranges do not overlap, and everything that overlaps one contains it. */
  ghost predicate Family(p: Pair) {
    && Laminar(p.made)
    && (forall f, g :: f in p.made && g in p.made && f !in p.divided && Shares(f, g) ==> Inside(f, g))
    && (forall f, g :: f in p.made && g in p.made && f !in p.divided && g !in p.divided && f != g ==> !Shares(f, g))
    && (forall f :: f in p.snd.sentRanges ==> f !in p.divided)
  }

  lemma SplitKeepsFamily(p: Pair, p': Pair, src: SentRange, head: SentRange, tail: SentRange)
    requires Safe(p) && Family(p) && src in p.made && src !in p.divided
    requires head.offset == src.offset && head.End() == tail.offset && tail.End() == src.End()
    requires head.data != [] && tail.data != [] && head.uid >= p.snd.nextUid && tail.uid >= p.snd.nextUid
    requires p'.made == p.made + {head, tail} && p'.divided == p.divided + {src}
    requires forall y :: y in p'.snd.sentRanges <==> (y in p.snd.sentRanges && y != src) || y == head || y == tail
    ensures Family(p')
  {
    assert forall f :: f in p.made ==> RangeOk(p, f) && f.uid < p.snd.nextUid;
    assert head !in p.made && tail !in p.made;
    forall g | g in p.made ensures Shares(g, head) || Shares(g, tail) ==> Shares(g, src) && Inside(src, g) {
    }
    forall a, b | a in p'.made && b in p'.made ensures Apart(a, b) || Inside(a, b) || Inside(b, a) {
      FragmentNests(p, src, head, tail, a, b);
    }
  }

  lemma FragmentNests(p: Pair, src: SentRange, head: SentRange, tail: SentRange, a: SentRange, b: SentRange)
    requires Family(p) && src in p.made && src !in p.divided
    requires head.offset == src.offset && head.End() == tail.offset && tail.End() == src.End()
    requires head.data != [] && tail.data != []
    requires a in p.made + {head, tail} && b in p.made + {head, tail}
    ensures Apart(a, b) || Inside(a, b) || Inside(b, a)
  {
  }

  lemma FreshKeepsFamily(p: Pair, p': Pair, maxPayload: int)
    requires Safe(p) && Family(p) && p'.divided == p.divided
    requires var t := Fresh(p.snd, maxPayload);
             p'.snd == t.s && p'.made == p.made + Out(t)
    ensures Family(p')
  {
  }

  lemma EmitKeepsFamily(p: Pair, maxPayload: int)
    requires Safe(p) && Family(p)
    requires Divides(p.snd, maxPayload) ==> p.snd.retransmit[0] !in p.divided
    ensures Family(Emitting(p, maxPayload))
  {
    var p' := Emitting(p, maxPayload);
    if p.snd.retransmit == [] {
      FreshKeepsFamily(p, p', maxPayload);
    } else {
      var src := p.snd.retransmit[0];
      if HeaderSize(p.snd.id, src.offset, |src.data|) + |src.data| <= maxPayload {
        assert p'.made == p.made;
      } else if Divides(p.snd, maxPayload) {
        EmitSplitKeepsFamily(p, src, maxPayload);
      } else {
        EmitBackKeepsFamily(p, maxPayload);
      }
    }
  }

  lemma EmitBackKeepsFamily(p: Pair, maxPayload: int)
    requires Safe(p) && Family(p) && Stuck(p.snd, maxPayload)
    ensures Family(Emitting(p, maxPayload))
  {
    var back := p.(snd := Rotated(p.snd));
    QuietKeeps(p, back);
    StuckEmitsFresh(p, maxPayload);
    FreshKeepsFamily(back, Emitting(p, maxPayload), maxPayload);
  }

  lemma EmitSplitKeepsFamily(p: Pair, src: SentRange, maxPayload: int)
    requires Safe(p) && Family(p) && Divides(p.snd, maxPayload)
    requires src == p.snd.retransmit[0] && src in p.made && src !in p.divided
    ensures Family(Emitting(p, maxPayload))
  {
    var popped := p.snd.(retransmit := p.snd.retransmit[1..]);
    var n := CutAt(p.snd, maxPayload);
    ReplacedMembers(p.snd.sentRanges, src, [SplitHead(popped, src, n), SplitTail(popped, src, n)]);
    SplitKeepsFamily(p, Emitting(p, maxPayload), src, SplitHead(popped, src, n), SplitTail(popped, src, n));
  }

  lemma OtherStepsKeepFamily(p: Pair, e: Event)
    requires Family(p) && !e.Emit?
    ensures Family(Step(p, e))
  {
    var p' := Step(p, e);
    if e.Acknowledge? {
      WithoutMembers(p.snd.sentRanges, e.x);
    } else if Quiet(e) {
      QuietFrame(p, e);
    }
    assert p'.made == p.made && p'.divided == p.divided;
  }

  /** If no range is divided twice, the ranges ever made are pairwise nested or disjoint; so
      EndToEndReliability applies. */
  lemma {:induction false} OneDivisionNests(id: nat, window: nat, open: bool, events: seq<Event>)
    requires DividesOnce(Init(id, window, open), events)
    ensures var p := Exec(Init(id, window, open), events); Safe(p) && Family(p)
    decreases |events|
  {
    if events != [] {
      var before, e := events[..|events| - 1], events[|events| - 1];
      var p := Exec(Init(id, window, open), before);
      OneDivisionNests(id, window, open, before);
      StepKeepsSafe(p, e);
      StepKeepsFamily(p, e);
    }
  }

  lemma StepKeepsFamily(p: Pair, e: Event)
    requires Safe(p) && Family(p) && (e.Emit? ==> FirstDivision(p, e.maxPayload))
    ensures Family(Step(p, e))
  {
    if e.Emit? {
      EmitKeepsFamily(p, e.maxPayload);
    } else {
      OtherStepsKeepFamily(p, e);
    }
  }

  /** No range is divided after it left sentRanges. */
  ghost predicate TrackedDivision(p: Pair, maxPayload: int) {
    Divides(p.snd, maxPayload) ==> p.snd.retransmit[0] in p.snd.sentRanges
  }

  ghost predicate DividesTracked(p: Pair, events: seq<Event>) { EveryEmit(p, events, TrackedDivision) }

  /** A tracked range was never divided before. */
  lemma {:induction false} TrackedDivisionsAreFirst(id: nat, window: nat, open: bool, events: seq<Event>)
    requires DividesTracked(Init(id, window, open), events)
    ensures DividesOnce(Init(id, window, open), events)
    decreases |events|
  {
    if events != [] {
      TrackedDivisionsAreFirst(id, window, open, events[..|events| - 1]);
      OneDivisionNests(id, window, open, events[..|events| - 1]);
    }
  }

  // ---------------------------------------------------------------- exactly when ranges nest

  /** Whatever was sent across the cut point, n bytes into the range, holds the whole range. */
  ghost predicate CleanCut(made: set<SentRange>, src: SentRange, n: nat) {
    forall g :: g in made && g.Has(src.offset + n - 1) && g.Has(src.offset + n) ==> Inside(src, g)
  }

  ghost predicate CleanAt(p: Pair, maxPayload: int) {
    Divides(p.snd, maxPayload) ==> CleanCut(p.made, p.snd.retransmit[0], CutAt(p.snd, maxPayload))
  }

  /** Every division of the run is at a clean cut. */
  ghost predicate CleanCuts(p: Pair, events: seq<Event>) { EveryEmit(p, events, CleanAt) }

  lemma CutNests(made: set<SentRange>, src: SentRange, head: SentRange, tail: SentRange)
    requires Laminar(made) && src in made && head.data != [] && tail.data != []
    requires head.offset == src.offset && head.End() == tail.offset && tail.End() == src.End()
    ensures Laminar(made + {head, tail}) <==> CleanCut(made, src, |head.data|)
  {
  }

  lemma FreshNests(p: Pair, maxPayload: int)
    requires Safe(p) && Laminar(p.made)
    ensures Laminar(p.made + Out(Fresh(p.snd, maxPayload)))
  {
  }

  lemma EmitNests(p: Pair, maxPayload: int)
    requires Safe(p) && Laminar(p.made)
    ensures Laminar(Emitting(p, maxPayload).made) <==> CleanAt(p, maxPayload)
  {
    if p.snd.retransmit == [] {
      FreshNests(p, maxPayload);
    } else if Stuck(p.snd, maxPayload) {
      StuckNests(p, maxPayload);
    } else {
      var src := p.snd.retransmit[0];
      if Divides(p.snd, maxPayload) {
        var popped, n := p.snd.(retransmit := p.snd.retransmit[1..]), CutAt(p.snd, maxPayload);
        CutNests(p.made, src, SplitHead(popped, src, n), SplitTail(popped, src, n));
      } else {
        assert p.made + {src} == p.made;
      }
    }
  }

  lemma StuckNests(p: Pair, maxPayload: int)
    requires Safe(p) && Laminar(p.made) && Stuck(p.snd, maxPayload)
    ensures Laminar(Emitting(p, maxPayload).made)
  {
    var back := p.(snd := Rotated(p.snd));
    QuietKeeps(p, back);
    FreshNests(back, maxPayload);
    StuckEmitsFresh(p, maxPayload);
  }

  /** The ranges of a run are pairwise nested or disjoint if and only if every division was at a
      clean cut. */
  lemma {:induction false} RangesNestExactlyWithCleanCuts(id: nat, window: nat, open: bool, events: seq<Event>)
    ensures var p := Exec(Init(id, window, open), events);
            Safe(p) && (Laminar(p.made) <==> CleanCuts(Init(id, window, open), events))
    decreases |events|
  {
    if events != [] {
      var before, e := events[..|events| - 1], events[|events| - 1];
      var p := Exec(Init(id, window, open), before);
      RangesNestExactlyWithCleanCuts(id, window, open, before);
      StepKeepsSafe(p, e);
      StepNests(p, e);
      if !Laminar(p.made) && Laminar(Step(p, e).made) {
        MadeGrows(p, e);
        FewerIsLaminar(p.made, Step(p, e).made);
      }
    }
  }

  lemma StepNests(p: Pair, e: Event)
    requires Safe(p)
    ensures Laminar(p.made) ==> (Laminar(Step(p, e).made) <==> (e.Emit? ==> CleanAt(p, e.maxPayload)))
  {
    if Laminar(p.made) {
      if e.Emit? {
        EmitNests(p, e.maxPayload);
      } else {
        MadeGrows(p, e);
      }
    }
  }

  /** Clean cuts are harmless: a completed stream has every sent byte and the EOF at the receiver,
      unless its receive entry was removed before they had arrived. */
  lemma CleanCutsAreReliable(id: nat, window: nat, open: bool, events: seq<Event>)
    requires CleanCuts(Init(id, window, open), events) && Exec(Init(id, window, open), events).snd.Completed()
    ensures var p, r := Exec(Init(id, window, open), events), RemovalPoint(Init(id, window, open), events);
            Arrived(p) <==> (r.Some? ==> Arrived(r.value))
  {
    EveryEmitWeakens(Init(id, window, open), events, CleanAt, HarmlessAt);
    CompletedArrivesExactly(id, window, open, events);
  }

  /** If no range is divided after it left sentRanges, a completed stream has every sent byte and
      the EOF at the receiver, unless its receive entry was removed before they had arrived. */
  lemma TrackedDivisionsAreReliable(id: nat, window: nat, open: bool, events: seq<Event>)
    requires DividesTracked(Init(id, window, open), events) && Exec(Init(id, window, open), events).snd.Completed()
    ensures var p, r := Exec(Init(id, window, open), events), RemovalPoint(Init(id, window, open), events);
            Arrived(p) <==> (r.Some? ==> Arrived(r.value))
  {
    TrackedDivisionsAreFirst(id, window, open, events);
    OneDivisionNests(id, window, open, events);
    RangesNestExactlyWithCleanCuts(id, window, open, events);
    CleanCutsAreReliable(id, window, open, events);
  }

  lemma MadeGrows(p: Pair, e: Event)
    ensures p.made <= Step(p, e).made && (!e.Emit? ==> Step(p, e).made == p.made)
  {
  }

  /** Two ranges that cross: in either order of arrival at an idle receiver the second one is
      refused although both are acknowledged, and a byte only it carries stays missing. */
  lemma CrossingPairLosesBytes(next: nat, a: SentRange, b: SentRange)
    requires next <= a.offset < b.offset < a.End() < b.End()
    ensures var q := AfterPush(Queue([], next, false), Frame(a));
            PushResult(q, Frame(b)) == Overlap && !Covered(AfterPush(q, Frame(b)).queue, next, b.End() - 1)
    ensures var q := AfterPush(Queue([], next, false), Frame(b));
            PushResult(q, Frame(a)) == Overlap && !Covered(AfterPush(q, Frame(a)).queue, next, a.offset)
  {
  }
}
