/** Exactly when a division can lose bytes. The receiver refuses a range that overlaps what it has,
    and yet the range is acknowledged; so a byte can be lost for good exactly when every tracked range
    that still carries it can be made to run into something else first. */
module Losses {
  import opened Common
  import opened TriggerQueues
  import opened SendStreams
  import opened OrderingQueues
  import opened StreamPairs
  import opened PrefixSafety
  import opened Reliability
  import opened Continuations

  // ---------------------------------------------------------------- walls

  /** The receiver has the byte below l, or can be given a range that ends there. */
  ghost predicate LeftWall(p: Pair, l: int) {
    || l == 0
    || (l > 0 && Has(p, l - 1))
    || exists u :: Deliverable(p, u) && u.data != [] && u.End() == l && !Touched(p, u)
  }

  /** The receiver has byte r, or can be given a range that starts there. */
  ghost predicate RightWall(p: Pair, r: int) {
    || r == p.snd.offset
    || (0 <= r < p.snd.offset && Has(p, r))
    || exists v :: Deliverable(p, v) && v.data != [] && v.offset == r && !Touched(p, v)
  }

  /** Every tracked range with byte x reaches one of the walls. */
  ghost predicate Walled(p: Pair, l: int, r: int, x: int) {
    forall f :: f in p.snd.sentRanges && f.Has(x) ==> f.Has(l - 1) || f.Has(r)
  }

  /** Byte x is missing, and there are walls around it that every tracked range with x runs into. */
  ghost predicate Losable(p: Pair, x: int) {
    && 0 <= x < p.snd.offset && !Has(p, x)
    && exists l, r :: l <= x < r && LeftWall(p, l) && RightWall(p, r) && Walled(p, l, r, x)
  }

  /** The continuation divides nothing, keeps the receive entry, and completes the stream without x. */
  ghost predicate Loses(p: Pair, es: seq<Event>, x: int) {
    && Divisionless(p, es)
    && var q := Exec(p, es); q.routed && q.snd.Completed() && 0 <= x < q.snd.offset && !Has(q, x)
  }

  // ---------------------------------------------------------------- walls lose bytes

  /** An untouched range is stored and adds its bytes. */
  lemma Place(p: Pair, u: SentRange)
    requires Safe(p) && p.routed && u in p.emitted && u.data != [] && !Touched(p, u)
    ensures var q := Step(p, Deliver(u));
            && Safe(q) && q.snd == p.snd && q.emitted == p.emitted && q.made == p.made && q.routed
            && forall x :: Has(q, x) <==> Has(p, x) || u.Has(x)
  {
    StepKeepsSafe(p, Deliver(u));
    StoresExactly(p, u);
    forall x ensures Has(Step(p, Deliver(u)), x) <==> Has(p, x) || u.Has(x) {
      PushCovers(p.rcv.oq, Frame(u), x);
    }
  }

  /** The sender and the history of ranges are the same; only the receiver may have more. */
  ghost predicate OnlyStores(p: Pair, q: Pair) {
    Safe(q) && q.snd == p.snd && q.emitted == p.emitted && q.made == p.made && q.routed
  }

  lemma RaiseLeft(p: Pair, l: int) returns (es: seq<Event>)
    requires Safe(p) && p.routed && p.snd.retransmit == [] && LeftWall(p, l)
    ensures var q := Exec(p, es);
            && OnlyStores(p, q) && (l > 0 ==> Has(q, l - 1)) && forall y :: y >= l ==> (Has(q, y) <==> Has(p, y))
    ensures Divisionless(p, es) && Budgets(es) == []
  {
    es := [];
    if l != 0 && !(l > 0 && Has(p, l - 1)) {
      var u :| Deliverable(p, u) && u.data != [] && u.End() == l && !Touched(p, u);
      Place(p, u);
      Prepend(p, Deliver(u), []);
      es := [Deliver(u)] + [];
    }
  }

  lemma RaiseRight(p: Pair, r: int) returns (es: seq<Event>)
    requires Safe(p) && p.routed && p.snd.retransmit == [] && RightWall(p, r)
    ensures var q := Exec(p, es);
            && OnlyStores(p, q) && (r < p.snd.offset ==> Has(q, r)) && forall y :: y < r ==> (Has(q, y) <==> Has(p, y))
    ensures Divisionless(p, es) && Budgets(es) == []
  {
    es := [];
    if r != p.snd.offset && !(0 <= r < p.snd.offset && Has(p, r)) {
      var v :| Deliverable(p, v) && v.data != [] && v.offset == r && !Touched(p, v);
      Place(p, v);
      Prepend(p, Deliver(v), []);
      es := [Deliver(v)] + [];
    }
  }

  /** A wall stays possible while nothing above or below it changes. */
  lemma RightWallStays(p: Pair, q: Pair, l: int, r: int)
    requires OnlyStores(p, q) && l <= r && RightWall(p, r) && forall y :: y >= l ==> (Has(q, y) <==> Has(p, y))
    ensures RightWall(q, r)
  {
    if r != p.snd.offset && !(0 <= r < p.snd.offset && Has(p, r)) {
      var v :| Deliverable(p, v) && v.data != [] && v.offset == r && !Touched(p, v);
      assert Deliverable(q, v) && !Touched(q, v);
    }
  }

  lemma WallsStayWhenFlushed(p: Pair, l: int, r: int)
    requires LeftWall(p, l) && RightWall(p, r)
    ensures LeftWall(Flushed(p), l) && RightWall(Flushed(p), r)
  {
    var q := Flushed(p);
    assert forall x :: Has(q, x) <==> Has(p, x);
    assert forall u :: Deliverable(p, u) ==> Deliverable(q, u);
    forall u | !Touched(p, u) ensures !Touched(q, u) {
    }
  }

  /** The walls are built, and then everything tracked arrives and is acknowledged: the bytes
      between the walls that every tracked range reaches out of stay missing. */
  lemma WalledBytesAreLost(p: Pair, l: int, r: int, xs: set<int>, budget: int) returns (es: seq<Event>)
    requires Safe(p) && Trackable(p) && p.routed && p.snd.eofSent && QueueFits(p.snd, budget)
    requires LeftWall(p, l) && RightWall(p, r) && l <= r
    requires forall x :: x in xs ==> l <= x < r && !Has(p, x) && Walled(p, l, r, x)
    ensures var q := Exec(p, es);
            q.routed && q.snd.Completed() && q.snd.offset == p.snd.offset && forall x :: x in xs ==> !Has(q, x)
    ensures Divisionless(p, es) && Budgets(es) == Repeated(|p.snd.retransmit|, budget)
  {
    var flush := Flush(p, budget);
    var p1 := Flushed(p);
    RunStaysSafe(p, flush);
    WallsStayWhenFlushed(p, l, r);
    assert forall x :: Has(p1, x) <==> Has(p, x);
    var left := RaiseLeft(p1, l);
    var p2 := Exec(p1, left);
    RightWallStays(p1, p2, l, r);
    var right := RaiseRight(p2, r);
    var p3 := Exec(p2, right);
    WallsStrand(p, p3, l, r, xs);
    var settle := Settle(p3, xs);
    Join(p2, right, settle);
    Join(p1, left, right + settle);
    Join(p, flush, left + (right + settle));
    es := flush + (left + (right + settle));
  }

  lemma WallsStrand(p: Pair, q: Pair, l: int, r: int, xs: set<int>)
    requires Safe(p) && q.snd.sentRanges == p.snd.sentRanges
    requires (l > 0 ==> Has(q, l - 1)) && (r < p.snd.offset ==> Has(q, r))
    requires forall x :: x in xs ==> !Has(q, x) && Walled(p, l, r, x)
    ensures Stranded(q, xs)
  {
    forall x, f | x in xs && f in q.snd.sentRanges && f.Has(x) ensures Touched(q, f) {
      assert f in p.made;
      assert RangeOk(p, f);
      assert f.Has(l - 1) || f.Has(r);
      if f.Has(l - 1) {
        assert Has(q, l - 1);
      } else {
        assert Has(q, r);
      }
    }
  }

  // ---------------------------------------------------------------- lost bytes had walls

  /** q comes after p without a division, and the sender had sent its EOF. */
  ghost predicate Follows(p: Pair, q: Pair) {
    && Regular(q) && q.snd.eofSent && q.made == p.made && q.snd.offset == p.snd.offset
    && (forall u :: Deliverable(q, u) ==> Deliverable(p, u))
    && p.accepted <= q.accepted && (forall g :: g in q.accepted && g !in p.accepted ==> Deliverable(p, g))
    && (forall f :: f in p.snd.sentRanges ==> f in q.snd.sentRanges || f in q.delivered)
  }

  lemma EmitFollows(p: Pair, q: Pair, maxPayload: int)
    requires Follows(p, q) && !Divides(q.snd, maxPayload)
    ensures var q' := Emitting(q, maxPayload);
            && q'.made == q.made && q'.snd.offset == q.snd.offset && q'.snd.eofSent && q'.accepted == q.accepted
            && q'.snd.sentRanges == q.snd.sentRanges && q'.delivered == q.delivered
            && forall u :: Deliverable(q', u) ==> Deliverable(q, u)
  {
    if q.snd.retransmit == [] {
      assert q.made + {} == q.made;
    } else if Stuck(q.snd, maxPayload) {
      StuckFollows(q, maxPayload);
    } else {
      var src := q.snd.retransmit[0];
      assert src in q.made;
      assert q.made + {src} == q.made;
    }
  }

  lemma StuckFollows(q: Pair, maxPayload: int)
    requires q.snd.eofSent && Stuck(q.snd, maxPayload)
    ensures var q' := Emitting(q, maxPayload);
            && q'.made == q.made && q'.accepted == q.accepted && q'.delivered == q.delivered && q'.emitted == q.emitted
            && q'.snd == Rotated(q.snd) && forall u :: u in q'.snd.retransmit ==> u in q.snd.retransmit
  {
    StuckEmitsFresh(q, maxPayload);
    assert q.made + {} == q.made && q.emitted + {} == q.emitted;
  }

  lemma StepFollows(p: Pair, q: Pair, e: Event)
    requires Follows(p, q) && (e.Emit? ==> !Divides(q.snd, e.maxPayload))
    ensures Follows(p, Step(q, e))
  {
    StepKeepsRegular(q, e);
    EofEndsSending(q, e);
    StepKeepsCandidates(p, q, e);
  }

  /** Nothing new can reach the receiver, and a tracked range leaves only by an acknowledgment. */
  lemma StepKeepsCandidates(p: Pair, q: Pair, e: Event)
    requires Follows(p, q) && (e.Emit? ==> !Divides(q.snd, e.maxPayload))
    ensures var q' := Step(q, e);
            && q'.made == q.made && q.accepted <= q'.accepted && q.delivered <= q'.delivered
            && (forall u :: Deliverable(q', u) ==> Deliverable(q, u))
            && (forall g :: g in q'.accepted && g !in q.accepted ==> Deliverable(q, g))
            && (forall f :: f in q.snd.sentRanges ==> f in q'.snd.sentRanges || f in q'.delivered)
  {
    match e
    case Emit(maxPayload) => EmitFollows(p, q, maxPayload);
    case Acknowledge(x) => AckCandidates(q, x);
    case AppendData(_, _) => OtherCandidates(q, e);
    case Lose(_) => OtherCandidates(q, e);
    case Deliver(_) => OtherCandidates(q, e);
    case ReadUpTo(_) => OtherCandidates(q, e);
    case _ => QuietFrame(q, e);
  }

  lemma AckCandidates(q: Pair, x: SentRange)
    ensures var q' := Step(q, Acknowledge(x));
            && q' == q.(snd := q'.snd) && q'.made == q.made && q'.accepted == q.accepted && q'.delivered == q.delivered
            && q'.emitted == q.emitted && q'.snd.retransmit == q.snd.retransmit
            && (forall f :: f in q.snd.sentRanges ==> f in q'.snd.sentRanges || f in q'.delivered)
  {
    WithoutMembers(q.snd.sentRanges, x);
  }

  lemma OtherCandidates(q: Pair, e: Event)
    requires e.AppendData? || e.Lose? || e.Deliver? || e.ReadUpTo?
    ensures var q' := Step(q, e);
            && q'.made == q.made && q.accepted <= q'.accepted && q.delivered <= q'.delivered
            && q'.emitted == q.emitted && q'.snd.sentRanges == q.snd.sentRanges
            && (forall u :: u in q'.snd.retransmit ==> u in q.snd.retransmit || u in q.emitted)
            && (forall g :: g in q'.accepted && g !in q.accepted ==> g in q.emitted)
  {
    match e
    case AppendData(_, _) =>
    case Lose(_) =>
    case Deliver(_) =>
    case ReadUpTo(_) =>
  }

  lemma {:induction false} RunFollows(p: Pair, es: seq<Event>)
    requires Regular(p) && p.snd.eofSent && Divisionless(p, es)
    ensures Follows(p, Exec(p, es))
    decreases |es|
  {
    if es != [] {
      RunFollows(p, es[..|es| - 1]);
      StepFollows(p, Exec(p, es[..|es| - 1]), es[|es| - 1]);
    }
  }

  /** The end of what the receiver has below a missing byte. */
  lemma NearestLeft(p: Pair, x: int) returns (l: int)
    requires 0 <= x && !Has(p, x)
    ensures 0 <= l <= x && (l == 0 || Has(p, l - 1)) && forall y :: l <= y <= x ==> !Has(p, y)
  {
    l := x;
    while l > 0 && !Has(p, l - 1)
      invariant 0 <= l <= x && forall y :: l <= y <= x ==> !Has(p, y)
    {
      l := l - 1;
    }
  }

  lemma NearestRight(p: Pair, x: int, end: int) returns (r: int)
    requires x < end && !Has(p, x)
    ensures x < r <= end && (r == end || Has(p, r)) && forall y :: x <= y < r ==> !Has(p, y)
  {
    r := x + 1;
    while r < end && !Has(p, r)
      invariant x < r <= end && forall y :: x <= y < r ==> !Has(p, y)
    {
      r := r + 1;
    }
  }

  /** Whatever the receiver stored since p could have been delivered at p, and it had none of it. */
  lemma StoredSince(p: Pair, q: Pair, y: int) returns (g: SentRange)
    requires Regular(p) && Follows(p, q) && 0 <= y && Has(q, y)
    ensures g.Has(y) && (forall z :: g.Has(z) ==> Has(q, z))
    ensures Has(p, y) || (Deliverable(p, g) && !Touched(p, g))
  {
    g :| g in q.accepted && g.Has(y);
    assert forall z :: g.Has(z) ==> 0 <= z;
    if g in p.accepted {
      assert Has(p, y);
    } else {
      NewlyStoredWasFree(p, q, g);
    }
  }

  lemma NewlyStoredWasFree(p: Pair, q: Pair, g: SentRange)
    requires Provenance(p) && StoredApart(q) && p.accepted <= q.accepted && g in q.accepted && g !in p.accepted
    ensures !Touched(p, g)
  {
    forall z | g.Has(z) ensures !Has(p, z) {
      if Has(p, z) {
        var a :| a in p.accepted && a.Has(z);
        assert Shares(a, g);
      }
    }
  }

  lemma HasFollows(p: Pair, q: Pair, x: int)
    requires Regular(p) && Follows(p, q) && 0 <= x
    ensures Has(p, x) ==> Has(q, x)
  {
    if Has(p, x) {
      var g :| g in p.accepted && g.Has(x);
      assert g in q.accepted;
    }
  }

  /** A range that was tracked at p left its trace by q, outside the missing stretch. */
  lemma TrackedReachesOut(p: Pair, q: Pair, x: int, l: int, r: int)
    requires Follows(p, q) && q.routed && q.snd.Completed()
    requires l <= x < r && forall y :: l <= y < r ==> !Has(q, y)
    ensures Walled(p, l, r, x)
  {
    forall f | f in p.snd.sentRanges && f.Has(x) ensures f.Has(l - 1) || f.Has(r) {
      assert f in q.delivered && Touched(q, f);
      var y :| f.Has(y) && Has(q, y);
      assert y < l || r <= y;
    }
  }

  lemma LossNeedsWalls(p: Pair, q: Pair, x: int)
    requires Regular(p) && Follows(p, q) && q.routed && q.snd.Completed()
    requires 0 <= x < p.snd.offset && !Has(q, x)
    ensures Losable(p, x)
  {
    var l := NearestLeft(q, x);
    var r := NearestRight(q, x, p.snd.offset);
    if l > 0 {
      var u := StoredSince(p, q, l - 1);
      assert u.End() > l ==> u.Has(l);
    }
    if r < p.snd.offset {
      var v := StoredSince(p, q, r);
      assert v.offset < r ==> v.Has(r - 1);
    }
    TrackedReachesOut(p, q, x, l, r);
    HasFollows(p, q, x);
  }

  /** A byte can still be lost without another division if and only if there are walls for it. */
  lemma LossIsPossibleExactly(p: Pair, x: int)
    requires Regular(p) && p.routed && p.snd.eofSent
    ensures Losable(p, x) <==> exists es :: Loses(p, es, x)
  {
    if Losable(p, x) {
      var l, r :| l <= x < r && LeftWall(p, l) && RightWall(p, r) && Walled(p, l, r, x);
      AmpleFits(p);
      var es := WalledBytesAreLost(p, l, r, {x}, Ample(p.snd));
      assert Loses(p, es, x);
    }
    if es :| Loses(p, es, x) {
      RunFollows(p, es);
      LossNeedsWalls(p, Exec(p, es), x);
    }
  }

  // ---------------------------------------------------------------- one division

  /** When every byte is there, so is the EOF. */
  lemma AllBytesBringEof(p: Pair)
    requires Regular(p) && p.routed && p.snd.Completed() && forall x :: 0 <= x < p.snd.offset ==> Has(p, x)
    ensures Arrived(p)
  {
    var e :| e in p.made && e.eof;
    assert RangeOk(p, e);
    if e.data != [] {
      assert e.Has(e.End() - 1) && Has(p, e.End() - 1);
      var g :| g in p.accepted && g.Has(e.End() - 1);
      assert g in p.made;
    }
  }

  /** What a division did to the sender. */
  ghost predicate Split(p: Pair, p': Pair, src: SentRange, head: SentRange, tail: SentRange) {
    && Regular(p') && p'.rcv == p.rcv && p'.snd.offset == p.snd.offset
    && src in p.made && Halves(src, head, tail) && p'.made == p.made + {head, tail}
    && (forall f :: f in p'.snd.sentRanges <==> (f in p.snd.sentRanges && f != src) || f == head || f == tail)
    && Deliverable(p', head) && Deliverable(p', tail)
  }

  /** An undivided range that the receiver does not have reaches across the cut and misses part of
      the divided range, and the fragment that it crosses can still be stored. */
  ghost predicate Crossed(p: Pair, src: SentRange, head: SentRange, tail: SentRange, g: SentRange) {
    && g in p.made && Whole(p.made, g) && g.Has(tail.offset - 1) && g.Has(tail.offset) && !Touched(p, g)
    && ((src.offset < g.offset && !Touched(p, tail)) || (g.End() < src.End() && !Touched(p, head)))
  }

  lemma SameTouched(p: Pair, p': Pair, f: SentRange)
    requires p'.rcv == p.rcv
    ensures Touched(p', f) <==> Touched(p, f)
  {
    assert forall x :: Has(p', x) <==> Has(p, x);
  }

  /** The whole range next to a missing one ends where that begins, and can be stored or is there. */
  lemma NeighbourBelow(p: Pair, p': Pair, src: SentRange, head: SentRange, tail: SentRange, g: SentRange)
    requires Regular(p) && Reliable(p) && p.routed && Split(p, p', src, head, tail)
    requires g in p.made && Whole(p.made, g) && g.data != [] && 0 < g.offset < src.End()
    ensures LeftWall(p', g.offset)
  {
    var x := g.offset - 1;
    assert RangeOk(p, g);
    assert Has(p', x) <==> Has(p, x);
    if !Has(p, x) {
      var f :| f in p.snd.sentRanges && f.Has(x) && Whole(p.made, f);
      assert f in p.made && !Shares(f, g);
      assert f.End() == g.offset && f != src;
      if Touched(p, f) {
        var y :| f.Has(y) && Has(p, y);
        WholeIsAllOrNone(p, f, y);
      }
      SameTouched(p, p', f);
      assert Deliverable(p', f);
    }
  }

  lemma NeighbourAbove(p: Pair, p': Pair, src: SentRange, head: SentRange, tail: SentRange, g: SentRange)
    requires Regular(p) && Reliable(p) && p.routed && Split(p, p', src, head, tail)
    requires g in p.made && Whole(p.made, g) && g.data != [] && src.offset < g.End() < p.snd.offset
    ensures RightWall(p', g.End())
  {
    var x := g.End();
    assert Has(p', x) <==> Has(p, x);
    if !Has(p, x) {
      var f :| f in p.snd.sentRanges && f.Has(x) && Whole(p.made, f);
      assert f in p.made && !Shares(f, g);
      assert f.offset == g.End() && f != src;
      if Touched(p, f) {
        var y :| f.Has(y) && Has(p, y);
        WholeIsAllOrNone(p, f, y);
      }
      SameTouched(p, p', f);
      assert Deliverable(p', f);
    }
  }

  /** The crossing range starts inside the divided one: its first byte is between the neighbour below
      and the tail. */
  lemma CrossedByTail(p: Pair, p': Pair, src: SentRange, head: SentRange, tail: SentRange, g: SentRange)
    requires Regular(p) && Reliable(p) && p.routed && Split(p, p', src, head, tail)
    requires Crossed(p, src, head, tail, g) && src.offset < g.offset && !Touched(p, tail)
    ensures Losable(p', g.offset)
  {
    SameTouched(p, p', tail);
    SameTouched(p, p', g);
    assert RangeOk(p, src) && g.Has(g.offset);
    NeighbourBelow(p, p', src, head, tail, g);
    assert RightWall(p', tail.offset);
    CrosserWalls(p, p', src, head, tail, g);
  }

  /** It ends inside the divided one: the first byte of the tail is between the head and the
      neighbour above. */
  lemma CrossedByHead(p: Pair, p': Pair, src: SentRange, head: SentRange, tail: SentRange, g: SentRange)
    requires Regular(p) && Reliable(p) && p.routed && Split(p, p', src, head, tail)
    requires Crossed(p, src, head, tail, g) && g.End() < src.End() && !Touched(p, head)
    ensures Losable(p', tail.offset)
  {
    SameTouched(p, p', head);
    SameTouched(p, p', g);
    assert RangeOk(p, src) && g.Has(tail.offset);
    NeighbourAbove(p, p', src, head, tail, g);
    assert LeftWall(p', tail.offset);
    CrosserWalls(p, p', src, head, tail, g);
  }

  /** Whatever is tracked and shares a byte with the crossing range contains it, except the fragments. */
  lemma CrosserWalls(p: Pair, p': Pair, src: SentRange, head: SentRange, tail: SentRange, g: SentRange)
    requires TrackingOk(p) && Leafy(p.made) && Split(p, p', src, head, tail) && Crossed(p, src, head, tail, g)
    ensures src.offset < g.offset ==> Walled(p', g.offset, tail.offset, g.offset)
    ensures g.End() < src.End() ==> Walled(p', tail.offset, g.End(), tail.offset)
  {
    forall f | f in p'.snd.sentRanges && f != head && f != tail && Shares(g, f) ensures Inside(g, f) {
      assert f in p.made;
    }
  }

  /** A wall inside an undivided range that the receiver does not have is the cut. */
  lemma RightWallIsCut(p: Pair, p': Pair, src: SentRange, head: SentRange, tail: SentRange, w: SentRange, x: int, r: int)
    requires Regular(p) && Reliable(p) && Split(p, p', src, head, tail)
    requires w in p.made && Whole(p.made, w) && w.Has(x) && !Has(p, x) && x < r && w.Has(r) && RightWall(p', r)
    ensures r == tail.offset && !Touched(p, tail) && Inside(w, src)
  {
    assert RangeOk(p, w);
    MissingIsUntouched(p, w, x);
    SameTouched(p, p', w);
    assert !Has(p', r);
    var v :| Deliverable(p', v) && v.data != [] && v.offset == r && !Touched(p', v);
    assert v in p'.made && v.Has(r);
    SameTouched(p, p', v);
    assert v in p.made ==> Shares(w, v);
    assert Shares(w, src);
  }

  lemma LeftWallIsCut(p: Pair, p': Pair, src: SentRange, head: SentRange, tail: SentRange, w: SentRange, x: int, l: int)
    requires Regular(p) && Reliable(p) && Split(p, p', src, head, tail)
    requires w in p.made && Whole(p.made, w) && w.Has(x) && !Has(p, x) && l <= x && w.Has(l - 1) && LeftWall(p', l)
    ensures l == tail.offset && !Touched(p, head) && Inside(w, src)
  {
    assert RangeOk(p, w);
    MissingIsUntouched(p, w, x);
    SameTouched(p, p', w);
    assert !Has(p', l - 1);
    var u :| Deliverable(p', u) && u.data != [] && u.End() == l && !Touched(p', u);
    assert u in p'.made && u.Has(l - 1);
    SameTouched(p, p', u);
    assert u in p.made ==> Shares(w, u);
    assert Shares(w, src);
  }

  lemma MissingIsUntouched(p: Pair, g: SentRange, x: int)
    requires Safe(p) && Provenance(p) && Leafy(p.made) && g in p.made && Whole(p.made, g) && g.Has(x) && !Has(p, x)
    ensures !Touched(p, g)
  {
    if Touched(p, g) {
      var y :| g.Has(y) && Has(p, y);
      WholeIsAllOrNone(p, g, y);
    }
  }

  lemma LosableIsCrossed(p: Pair, p': Pair, src: SentRange, head: SentRange, tail: SentRange, x: int) returns (g: SentRange)
    requires Regular(p) && Reliable(p) && p.routed && Split(p, p', src, head, tail) && Losable(p', x)
    ensures Crossed(p, src, head, tail, g)
  {
    var l, r :| l <= x < r && LeftWall(p', l) && RightWall(p', r) && Walled(p', l, r, x);
    assert !Has(p, x) by { assert Has(p', x) <==> Has(p, x); }
    g :| g in p.snd.sentRanges && g.Has(x) && Whole(p.made, g);
    assert g in p.made;
    if g.Has(r) { RightWallIsCut(p, p', src, head, tail, g, x, r); }
    if g.Has(l - 1) { LeftWallIsCut(p, p', src, head, tail, g, x, l); }
    MissingIsUntouched(p, g, x);
    WallsCross(p, p', src, head, tail, g, l, r, x);
  }

  /** A range that meets a wall of the missing byte, and meets walls only at the cut, is crossed. */
  lemma WallsCross(p: Pair, p': Pair, src: SentRange, head: SentRange, tail: SentRange, g: SentRange, l: int, r: int, x: int)
    requires Split(p, p', src, head, tail) && Walled(p', l, r, x) && l <= x < r
    requires g in p.snd.sentRanges && g in p.made && Whole(p.made, g) && g.Has(x) && !Touched(p, g)
    requires g.Has(r) ==> r == tail.offset && !Touched(p, tail) && Inside(g, src)
    requires g.Has(l - 1) ==> l == tail.offset && !Touched(p, head) && Inside(g, src)
    ensures Crossed(p, src, head, tail, g)
  {
    assert g == src ==> head.Has(x) || tail.Has(x);
    assert head.Has(x) ==> head.Has(l - 1) || head.Has(r);
    assert tail.Has(x) ==> tail.Has(l - 1) || tail.Has(r);
  }

  /** The division that a budget would bring crosses an undivided range. */
  ghost predicate CrossesAt(p: Pair, maxPayload: int)
    requires Divides(p.snd, maxPayload)
  {
    exists g :: Crossed(p, p.snd.retransmit[0], CutHead(p.snd, maxPayload), CutTail(p.snd, maxPayload), g)
  }

  /** A division is safe exactly when it crosses nothing. In a run of harmless divisions, once the EOF
      is out: if the next division crosses no undivided range that is still missing, every way to
      complete the stream without another division delivers everything; if it does cross one, some
      way loses a byte for good. */
  lemma DivisionIsSafeExactly(id: nat, window: nat, open: bool, events: seq<Event>, maxPayload: int)
    requires HarmlessCuts(Init(id, window, open), events)
    requires var p := Exec(Init(id, window, open), events); p.routed && p.snd.eofSent && Divides(p.snd, maxPayload)
    ensures var p := Exec(Init(id, window, open), events);
            var p' := Step(p, Emit(maxPayload));
            !CrossesAt(p, maxPayload) <==>
            forall es :: Divisionless(p', es) && Exec(p', es).routed && Exec(p', es).snd.Completed() ==> Arrived(Exec(p', es))
  {
    var p := Exec(Init(id, window, open), events);
    var p' := Step(p, Emit(maxPayload));
    var src, head, tail := p.snd.retransmit[0], CutHead(p.snd, maxPayload), CutTail(p.snd, maxPayload);
    RunIsRegular(id, window, open, events);
    RunIsReliable(id, window, open, events);
    EmitSplits(p, maxPayload);
    if CrossesAt(p, maxPayload) {
      var g :| Crossed(p, src, head, tail, g);
      var es := CrossedLoses(p, p', src, head, tail, g);
    } else {
      forall es | Divisionless(p', es) && Exec(p', es).routed && Exec(p', es).snd.Completed() ensures Arrived(Exec(p', es)) {
        UncrossedArrives(p, p', src, head, tail, es);
      }
    }
  }

  lemma EmitSplits(p: Pair, maxPayload: int)
    requires Regular(p) && p.snd.eofSent && Divides(p.snd, maxPayload)
    ensures var p' := Step(p, Emit(maxPayload));
            && Split(p, p', p.snd.retransmit[0], CutHead(p.snd, maxPayload), CutTail(p.snd, maxPayload))
            && p'.routed == p.routed && p'.snd.eofSent
  {
    StepKeepsRegular(p, Emit(maxPayload));
    EofEndsSending(p, Emit(maxPayload));
    SplitTracks(p, maxPayload);
  }

  lemma CrossedLoses(p: Pair, p': Pair, src: SentRange, head: SentRange, tail: SentRange, g: SentRange) returns (es: seq<Event>)
    requires Regular(p) && Reliable(p) && p.routed && p'.routed && p'.snd.eofSent && Split(p, p', src, head, tail)
    requires Crossed(p, src, head, tail, g)
    ensures Divisionless(p', es) && Exec(p', es).routed && Exec(p', es).snd.Completed() && !Arrived(Exec(p', es))
  {
    var x := if src.offset < g.offset && !Touched(p, tail) then g.offset else tail.offset;
    if src.offset < g.offset && !Touched(p, tail) {
      CrossedByTail(p, p', src, head, tail, g);
    } else {
      CrossedByHead(p, p', src, head, tail, g);
    }
    LossIsPossibleExactly(p', x);
    es :| Loses(p', es, x);
  }

  lemma UncrossedArrives(p: Pair, p': Pair, src: SentRange, head: SentRange, tail: SentRange, es: seq<Event>)
    requires Regular(p) && Reliable(p) && p.routed && p'.routed && p'.snd.eofSent && Split(p, p', src, head, tail)
    requires forall g :: !Crossed(p, src, head, tail, g)
    requires Divisionless(p', es) && Exec(p', es).routed && Exec(p', es).snd.Completed()
    ensures Arrived(Exec(p', es))
  {
    var q := Exec(p', es);
    RunFollows(p', es);
    forall x | 0 <= x < q.snd.offset ensures Has(q, x) {
      if !Has(q, x) {
        LossNeedsWalls(p', q, x);
        var g := LosableIsCrossed(p, p', src, head, tail, x);
      }
    }
    AllBytesBringEof(q);
  }
}
