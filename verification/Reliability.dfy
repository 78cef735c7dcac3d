/** When a stream is complete, nothing is missing: for every run whose divisions are harmless and
    whose receive entry was kept until everything had arrived, and only for those. */
module Reliability {
  import opened Common
  import opened TriggerQueues
  import opened SendStreams
  import opened OrderingQueues
  import opened StreamPairs
  import opened PrefixSafety

  ghost predicate Inside(a: SentRange, b: SentRange) { b.offset <= a.offset && a.End() <= b.End() }

  ghost predicate Apart(a: SentRange, b: SentRange) { a.End() <= b.offset || b.End() <= a.offset }

  /** The two ranges have a byte in common. */
  ghost predicate Shares(a: SentRange, b: SentRange) {
    a.data != [] && b.data != [] && !Apart(a, b)
  }

  ghost predicate StrictlyInside(a: SentRange, b: SentRange) {
    a.data != [] && Inside(a, b) && |a.data| < |b.data|
  }

  /** No fragment of the range was ever made. */
  ghost predicate Whole(made: set<SentRange>, f: SentRange) {
    forall g :: g in made ==> !StrictlyInside(g, f)
  }

  /** The receiver has byte x, read or queued. */
  ghost predicate Has(p: Pair, x: int) { Covered(p.rcv.oq.queue, p.rcv.oq.nextOffset, x) }

  ghost predicate HasEof(p: Pair) { EofCovered(p.rcv.oq.queue, p.rcv.oq.eofReached) }

  ghost predicate HasAll(p: Pair, f: SentRange) { forall x :: f.Has(x) ==> Has(p, x) }

  /** The bytes the receiver has are those of the ranges it stored. */
  ghost predicate Provenance(p: Pair) {
    && (forall x :: 0 <= x ==> (Has(p, x) <==> exists g :: g in p.accepted && g.Has(x)))
    && (HasEof(p) <==> exists g :: g in p.accepted && g.eof)
  }

  /** Every byte sent is with the receiver or in a tracked range without fragments. */
  ghost predicate BytesKept(p: Pair) {
    forall x :: 0 <= x < p.snd.offset ==>
      Has(p, x) || exists f :: f in p.snd.sentRanges && f.Has(x) && Whole(p.made, f)
  }

  ghost predicate EofKept(p: Pair) {
    p.snd.eofSent ==> HasEof(p) || exists f :: f in p.snd.sentRanges && f.eof && Whole(p.made, f)
  }

  /** A whole range that was delivered is covered, even when the queue refused it. */
  ghost predicate DeliveredKept(p: Pair) {
    forall f :: f in p.delivered && Whole(p.made, f) ==> HasAll(p, f) && (f.eof ==> HasEof(p))
  }

  ghost predicate Kept(p: Pair) { BytesKept(p) && EofKept(p) && DeliveredKept(p) }

  /** Whatever shares a byte with a whole range contains it. */
  ghost predicate Leafy(made: set<SentRange>) {
    forall f, g :: f in made && g in made && Whole(made, f) && Shares(f, g) ==> Inside(f, g)
  }

  /** Every byte of a range lies in a whole one. */
  ghost predicate Tiled(made: set<SentRange>) {
    forall g, x :: g in made && g.Has(x) ==> exists f :: f in made && Whole(made, f) && f.Has(x)
  }

  ghost predicate Reliable(p: Pair) {
    Provenance(p) && Leafy(p.made) && Tiled(p.made) && (p.routed ==> Kept(p))
  }

  /** Everything sent is at the receiver. */
  ghost predicate Arrived(p: Pair) { HasEof(p) && forall x :: 0 <= x < p.snd.offset ==> Has(p, x) }

  // ---------------------------------------------------------------- divisions of a run

  /** Every call of triggerPacket in the run satisfies ok in the state that it finds. */
  ghost predicate EveryEmit(p: Pair, events: seq<Event>, ok: (Pair, int) -> bool)
    decreases |events|
  {
    events != [] ==>
      var before, e := events[..|events| - 1], events[|events| - 1];
      EveryEmit(p, before, ok) && (e.Emit? ==> ok(Exec(p, before), e.maxPayload))
  }

  /** A cut n bytes into the range is harmless if no undivided range that misses part of the range
      reaches across it. */
  ghost predicate HarmlessCut(made: set<SentRange>, src: SentRange, n: nat) {
    forall g :: g in made && Whole(made, g) && g.Has(src.offset + n - 1) && g.Has(src.offset + n) ==> Inside(src, g)
  }

  ghost predicate HarmlessAt(p: Pair, maxPayload: int) {
    Divides(p.snd, maxPayload) ==> HarmlessCut(p.made, p.snd.retransmit[0], CutAt(p.snd, maxPayload))
  }

  ghost predicate HarmlessCuts(p: Pair, events: seq<Event>) { EveryEmit(p, events, HarmlessAt) }

  // ---------------------------------------------------------------- delivery

  /** A refused range with bytes shares one with what the receiver has. */
  lemma RefusedTouches(p: Pair, f: SentRange) returns (x: int)
    requires Safe(p) && f in p.made && f.data != [] && !Stores(p.rcv, f)
    ensures f.Has(x) && Has(p, x)
  {
    var oq := p.rcv.oq;
    var q := oq.queue;
    var i := FirstAtOrAbove(q, f.offset);
    assert RangeOk(p, f);
    x := f.offset;
    if oq.eofReached || oq.nextOffset > f.offset {
    } else if i < |q| && (q[i].offset == f.offset || f.End() > q[i].offset) {
      assert Element(q[i], oq.nextOffset, Sent(p), p.snd.eofSent);
      x := q[i].offset;
      assert q[i].Has(x);
    } else {
      assert i > 0;
      assert Element(q[i - 1], oq.nextOffset, Sent(p), p.snd.eofSent);
      assert q[i - 1].Has(x);
    }
  }

  /** A refused EOF-only range finds the EOF already there. */
  lemma RefusedEof(p: Pair, f: SentRange)
    requires Safe(p) && f in p.made && f.data == [] && f.eof && !Stores(p.rcv, f)
    ensures HasEof(p)
  {
  }

  /** A whole range is covered entirely or not at all. */
  lemma WholeIsAllOrNone(p: Pair, f: SentRange, x: int)
    requires Safe(p) && Provenance(p) && Leafy(p.made) && f in p.made && Whole(p.made, f)
    requires f.Has(x) && Has(p, x)
    ensures HasAll(p, f) && (f.eof ==> HasEof(p))
  {
    var g :| g in p.accepted && g.Has(x);
    assert Shares(f, g);
  }

  lemma DeliveryCovers(p: Pair, f: SentRange)
    requires Safe(p) && Provenance(p) && Leafy(p.made) && p.routed && f in p.emitted && Whole(p.made, f)
    ensures var p' := Delivering(p, f); HasAll(p', f) && (f.eof ==> HasEof(p'))
  {
    var p' := Delivering(p, f);
    if Stores(p.rcv, f) {
      forall x ensures f.Has(x) ==> Has(p', x) {
        PushCovers(p.rcv.oq, Frame(f), x);
      }
      PushCovers(p.rcv.oq, Frame(f), 0);
    } else if f.data != [] {
      var x := RefusedTouches(p, f);
      WholeIsAllOrNone(p, f, x);
    } else if f.eof {
      RefusedEof(p, f);
    }
  }

  lemma DeliverKeepsProvenance(p: Pair, f: SentRange)
    requires Provenance(p)
    ensures Provenance(Delivering(p, f))
  {
    var p' := Delivering(p, f);
    if p.routed && Stores(p.rcv, f) {
      forall x | 0 <= x ensures Has(p', x) <==> exists g :: g in p'.accepted && g.Has(x) {
        PushCovers(p.rcv.oq, Frame(f), x);
        if Has(p, x) {
          var g :| g in p.accepted && g.Has(x);
          assert g in p'.accepted;
        }
        assert f in p'.accepted;
      }
      PushCovers(p.rcv.oq, Frame(f), 0);
      if HasEof(p) {
        var g :| g in p.accepted && g.eof;
        assert g in p'.accepted;
      }
      assert f in p'.accepted;
    } else {
      SameReceiver(p, p');
    }
  }

  lemma SameReceiver(p: Pair, p': Pair)
    requires Provenance(p) && p'.rcv.oq == p.rcv.oq && p'.accepted == p.accepted
    ensures Provenance(p')
  {
    assert forall x :: Has(p', x) <==> Has(p, x);
  }

  lemma DeliverOnlyAdds(p: Pair, f: SentRange)
    ensures var p' := Delivering(p, f);
            (forall x :: Has(p, x) ==> Has(p', x)) && (HasEof(p) ==> HasEof(p'))
  {
    var p' := Delivering(p, f);
    if p.routed && Stores(p.rcv, f) {
      forall x | Has(p, x) ensures Has(p', x) {
        PushCovers(p.rcv.oq, Frame(f), x);
      }
      PushCovers(p.rcv.oq, Frame(f), 0);
    }
  }

  lemma DeliverKeepsReliable(p: Pair, f: SentRange)
    requires Safe(p) && Reliable(p) && f in p.emitted
    ensures Reliable(Delivering(p, f))
  {
    var p' := Delivering(p, f);
    DeliverKeepsProvenance(p, f);
    DeliverOnlyAdds(p, f);
    if p.routed {
      forall g | g in p'.delivered && Whole(p.made, g) ensures HasAll(p', g) && (g.eof ==> HasEof(p')) {
        if g == f {
          DeliveryCovers(p, f);
        } else {
          assert g in p.delivered;
          assert HasAll(p, g);
        }
      }
      KeptFrame(p, p');
    }
  }

  /** The kept bytes depend only on the tracked ranges and on what the receiver has. */
  lemma KeptFrame(p: Pair, p': Pair)
    requires BytesKept(p) && EofKept(p)
    requires p'.snd.offset == p.snd.offset && p'.snd.eofSent == p.snd.eofSent && p'.made == p.made
    requires forall f :: f in p.snd.sentRanges ==> f in p'.snd.sentRanges
    requires (forall x :: Has(p, x) ==> Has(p', x)) && (HasEof(p) ==> HasEof(p'))
    ensures BytesKept(p') && EofKept(p')
  {
  }

  // ---------------------------------------------------------------- reading and acknowledging

  /** A read changes neither which bytes the receiver has nor whether it has the EOF. */
  lemma ReadKeepsHas(p: Pair, n: nat)
    requires Safe(p)
    ensures var p' := Reading(p, n); (forall x :: Has(p', x) <==> Has(p, x)) && (HasEof(p') <==> HasEof(p))
  {
    var p' := Reading(p, n);
    var oq := p.rcv.oq;
    if !oq.eofReached {
      forall x ensures Has(p', x) <==> Has(p, x) {
        TakeKeepsCover([], oq.queue, oq.nextOffset, n, false, Sent(p), p.snd.eofSent, x);
      }
      TakeKeepsCover([], oq.queue, oq.nextOffset, n, false, Sent(p), p.snd.eofSent, 0);
    }
  }

  /** Steps after which the receiver has the same bytes and the sender tracks the same ranges. */
  lemma SameViewReliable(p: Pair, p': Pair)
    requires Reliable(p)
    requires (forall x :: Has(p', x) <==> Has(p, x)) && (HasEof(p') <==> HasEof(p))
    requires p'.made == p.made && p'.accepted == p.accepted && p'.delivered == p.delivered
    requires p'.snd.offset == p.snd.offset && p'.snd.eofSent == p.snd.eofSent
    requires p'.snd.sentRanges == p.snd.sentRanges && (p'.routed ==> p.routed)
    ensures Reliable(p')
  {
  }

  /** An acknowledged range stops being tracked; it was delivered, so its bytes are safe. */
  lemma AckKeepsReliable(p: Pair, f: SentRange)
    requires Safe(p) && Reliable(p) && f in p.delivered
    ensures Reliable(p.(snd := Acked(p.snd, f)))
  {
    var p' := p.(snd := Acked(p.snd, f));
    WithoutMembers(p.snd.sentRanges, f);
    SameReceiver(p, p');
    if p.routed {
      forall x | 0 <= x < p'.snd.offset
        ensures Has(p', x) || exists g :: g in p'.snd.sentRanges && g.Has(x) && Whole(p'.made, g)
      {
        if !Has(p, x) {
          var g :| g in p.snd.sentRanges && g.Has(x) && Whole(p.made, g);
          assert g != f;
          assert g in p'.snd.sentRanges;
        }
      }
      if p'.snd.eofSent && !HasEof(p) {
        var g :| g in p.snd.sentRanges && g.eof && Whole(p.made, g);
        assert g != f && g in p'.snd.sentRanges;
      }
      assert DeliveredKept(p');
    }
  }

  // ---------------------------------------------------------------- dividing

  /** The range becomes two consecutive fragments. */
  ghost predicate Halves(src: SentRange, head: SentRange, tail: SentRange) {
    && head.offset == src.offset && head.End() == tail.offset && tail.End() == src.End()
    && head.data != [] && tail.data != []
  }

  ghost predicate Twins(f: SentRange, g: SentRange) { f.offset == g.offset && f.End() == g.End() }

  /** Dividing a range leaves its two fragments whole if it, or a range with the same bytes, was. */
  lemma FragmentsWhole(made: set<SentRange>, src: SentRange, head: SentRange, tail: SentRange, f: SentRange)
    requires Whole(made, f) && Twins(f, src) && Halves(src, head, tail)
    ensures Whole(made + {head, tail}, head) && Whole(made + {head, tail}, tail)
  {
  }

  /** A harmless cut through a whole range is a cut of that same range. */
  lemma CutHitsTwin(made: set<SentRange>, src: SentRange, head: SentRange, tail: SentRange, f: SentRange)
    requires Leafy(made) && src in made && f in made && Whole(made, f)
    requires Halves(src, head, tail) && HarmlessCut(made, src, |head.data|)
    requires !Whole(made + {head, tail}, f)
    ensures Twins(f, src)
  {
    assert StrictlyInside(head, f) || StrictlyInside(tail, f);
    assert Shares(f, src);
    assert Inside(f, src);
  }

  /** What is still whole lies on one side of a harmless cut. */
  lemma WholeKeepsASide(made: set<SentRange>, src: SentRange, head: SentRange, tail: SentRange, f: SentRange)
    requires Leafy(made) && src in made && f in made && Whole(made, f) && Shares(f, src)
    requires Halves(src, head, tail) && HarmlessCut(made, src, |head.data|)
    ensures Inside(f, head) || Inside(f, tail) || Twins(f, src)
  {
    assert Inside(f, src);
  }

  /** A whole fragment is contained in everything it shares a byte with. */
  lemma FragmentIsLeaf(made: set<SentRange>, src: SentRange, head: SentRange, tail: SentRange, h: SentRange, g: SentRange)
    requires Leafy(made) && Tiled(made) && src in made && g in made
    requires Halves(src, head, tail) && HarmlessCut(made, src, |head.data|)
    requires (h == head || h == tail) && Whole(made + {head, tail}, h) && Shares(h, g)
    ensures Inside(h, g)
  {
    var y := Max(h.offset, g.offset);
    assert h.Has(y) && g.Has(y) && src.Has(y);
    var w :| w in made && Whole(made, w) && w.Has(y);
    assert Shares(w, g) && Shares(w, src);
    WholeKeepsASide(made, src, head, tail, w);
    assert !StrictlyInside(w, h);
  }

  lemma HarmlessCutKeepsLeaves(made: set<SentRange>, src: SentRange, head: SentRange, tail: SentRange)
    requires Leafy(made) && Tiled(made) && src in made
    requires Halves(src, head, tail) && HarmlessCut(made, src, |head.data|)
    ensures Leafy(made + {head, tail})
  {
    var made' := made + {head, tail};
    forall f, g | f in made' && g in made' && Whole(made', f) && Shares(f, g) ensures Inside(f, g) {
      if f in made {
        assert Whole(made, f);
        if g !in made {
          assert Shares(f, src);
          WholeKeepsASide(made, src, head, tail, f);
          assert Twins(f, src) ==> StrictlyInside(head, f);
        }
      } else if g in made {
        FragmentIsLeaf(made, src, head, tail, f, g);
      }
    }
  }

  lemma HarmlessCutKeepsTiles(made: set<SentRange>, src: SentRange, head: SentRange, tail: SentRange)
    requires Leafy(made) && Tiled(made) && src in made
    requires Halves(src, head, tail) && HarmlessCut(made, src, |head.data|)
    ensures Tiled(made + {head, tail})
  {
    var made' := made + {head, tail};
    forall g, x | g in made' && g.Has(x) ensures exists f :: f in made' && Whole(made', f) && f.Has(x) {
      var r := if g in made then g else src;
      assert r in made && r.Has(x);
      var w :| w in made && Whole(made, w) && w.Has(x);
      if !Whole(made', w) {
        CutHitsTwin(made, src, head, tail, w);
        FragmentsWhole(made, src, head, tail, w);
        assert if x < tail.offset then head.Has(x) else tail.Has(x);
      }
    }
  }

  lemma SplitKeepsReliable(p: Pair, p': Pair, src: SentRange, head: SentRange, tail: SentRange)
    requires Safe(p) && Reliable(p) && src in p.made
    requires Halves(src, head, tail) && tail.eof == src.eof && HarmlessCut(p.made, src, |head.data|)
    requires p'.rcv == p.rcv && p'.accepted == p.accepted && p'.delivered == p.delivered && p'.routed == p.routed
    requires p'.snd.offset == p.snd.offset && p'.snd.eofSent == p.snd.eofSent
    requires p'.made == p.made + {head, tail}
    requires forall y :: y in p'.snd.sentRanges <==> (y in p.snd.sentRanges && y != src) || y == head || y == tail
    ensures Reliable(p')
  {
    SameReceiver(p, p');
    HarmlessCutKeepsLeaves(p.made, src, head, tail);
    HarmlessCutKeepsTiles(p.made, src, head, tail);
    if p.routed {
      forall x | 0 <= x < p'.snd.offset
        ensures Has(p', x) || exists f :: f in p'.snd.sentRanges && f.Has(x) && Whole(p'.made, f)
      {
        if !Has(p, x) {
          var f :| f in p.snd.sentRanges && f.Has(x) && Whole(p.made, f);
          if f == src || !Whole(p'.made, f) {
            if f != src { CutHitsTwin(p.made, src, head, tail, f); }
            FragmentsWhole(p.made, src, head, tail, f);
            assert if x < tail.offset then head.Has(x) else tail.Has(x);
          }
        }
      }
      if p'.snd.eofSent && !HasEof(p) {
        SplitKeepsEofKept(p, p', src, head, tail);
      }
      forall f | f in p'.delivered && Whole(p'.made, f) ensures HasAll(p', f) && (f.eof ==> HasEof(p')) {
        assert Whole(p.made, f);
        assert HasAll(p, f);
      }
    }
  }

  lemma SplitKeepsEofKept(p: Pair, p': Pair, src: SentRange, head: SentRange, tail: SentRange)
    requires Safe(p) && Leafy(p.made) && EofKept(p) && p.snd.eofSent && !HasEof(p) && src in p.made
    requires Halves(src, head, tail) && tail.eof == src.eof && HarmlessCut(p.made, src, |head.data|)
    requires p'.made == p.made + {head, tail}
    requires forall y :: y in p'.snd.sentRanges <==> (y in p.snd.sentRanges && y != src) || y == head || y == tail
    ensures exists f :: f in p'.snd.sentRanges && f.eof && Whole(p'.made, f)
  {
    var f :| f in p.snd.sentRanges && f.eof && Whole(p.made, f);
    if f == src || !Whole(p'.made, f) {
      if f != src { CutHitsTwin(p.made, src, head, tail, f); }
      FragmentsWhole(p.made, src, head, tail, f);
      assert src.Has(f.End() - 1);
      assert tail in p'.snd.sentRanges && tail.eof;
    }
  }

  // ---------------------------------------------------------------- emitting

  /** A range at or above everything made is whole, shares nothing and divides nothing. */
  lemma FreshIsLeaf(made: set<SentRange>, x: SentRange)
    requires Leafy(made) && Tiled(made) && forall f :: f in made ==> f.End() <= x.offset
    ensures Leafy(made + {x}) && Tiled(made + {x}) && Whole(made + {x}, x)
    ensures forall f :: f in made && Whole(made, f) ==> Whole(made + {x}, f)
  {
    var made' := made + {x};
    assert forall f :: f in made && Whole(made', f) ==> Whole(made, f);
    assert forall f :: f in made ==> !Shares(f, x) && !Shares(x, f);
    forall g, y | g in made' && g.Has(y) ensures exists f :: f in made' && Whole(made', f) && f.Has(y) {
      if g in made {
        var w :| w in made && Whole(made, w) && w.Has(y);
        assert Whole(made', w);
      } else {
        assert Whole(made', x);
      }
    }
  }

  lemma TrackKeepsReliable(p: Pair, p': Pair, x: SentRange)
    requires Safe(p) && Reliable(p) && !p.snd.eofSent
    requires p'.rcv == p.rcv && p'.accepted == p.accepted && p'.delivered == p.delivered && p'.routed == p.routed
    requires p'.made == p.made + {x} && p'.snd.sentRanges == p.snd.sentRanges + [x]
    requires x.offset == p.snd.offset && p'.snd.offset == x.End() && p'.snd.eofSent == x.eof
    ensures Reliable(p')
  {
    SameReceiver(p, p');
    assert forall f :: f in p.made ==> RangeOk(p, f) && f.End() <= x.offset;
    FreshIsLeaf(p.made, x);
    if p.routed {
      assert x in p'.snd.sentRanges;
      forall y | 0 <= y < p'.snd.offset
        ensures Has(p', y) || exists f :: f in p'.snd.sentRanges && f.Has(y) && Whole(p'.made, f)
      {
        if y < p.snd.offset {
          if !Has(p, y) {
            var f :| f in p.snd.sentRanges && f.Has(y) && Whole(p.made, f);
            assert f in p'.snd.sentRanges;
          }
        } else {
          assert x.Has(y);
        }
      }
      forall f | f in p'.delivered && Whole(p'.made, f) ensures HasAll(p', f) && (f.eof ==> HasEof(p')) {
        assert Whole(p.made, f);
        assert HasAll(p, f);
      }
    }
  }

  lemma FreshKeepsReliable(p: Pair, p': Pair, maxPayload: int)
    requires Safe(p) && Reliable(p)
    requires p'.rcv == p.rcv && p'.accepted == p.accepted && p'.delivered == p.delivered && p'.routed == p.routed
    requires var t := Fresh(p.snd, maxPayload);
             p'.snd == t.s && p'.made == p.made + Out(t)
    ensures Reliable(p')
  {
    var t := Fresh(p.snd, maxPayload);
    match t.out
    case Some(x) => TrackKeepsReliable(p, p', x);
    case None => SameViewReliable(p, p');
  }

  lemma EmitKeepsReliable(p: Pair, maxPayload: int)
    requires Safe(p) && Reliable(p) && HarmlessAt(p, maxPayload)
    ensures Reliable(Emitting(p, maxPayload))
  {
    var p' := Emitting(p, maxPayload);
    if p.snd.retransmit == [] {
      FreshKeepsReliable(p, p', maxPayload);
    } else {
      var src := p.snd.retransmit[0];
      var popped := p.snd.(retransmit := p.snd.retransmit[1..]);
      if HeaderSize(p.snd.id, src.offset, |src.data|) + |src.data| <= maxPayload {
        assert p'.made == p.made;
        SameViewReliable(p, p');
      } else if Divides(p.snd, maxPayload) {
        var n := CutAt(p.snd, maxPayload);
        ReplacedMembers(p.snd.sentRanges, src, [SplitHead(popped, src, n), SplitTail(popped, src, n)]);
        SplitKeepsReliable(p, p', src, SplitHead(popped, src, n), SplitTail(popped, src, n));
      } else {
        EmitBackKeepsReliable(p, maxPayload);
      }
    }
  }

  lemma EmitBackKeepsReliable(p: Pair, maxPayload: int)
    requires Safe(p) && Reliable(p) && Stuck(p.snd, maxPayload)
    ensures Reliable(Emitting(p, maxPayload))
  {
    var back := p.(snd := Rotated(p.snd));
    QuietKeeps(p, back);
    SameViewReliable(p, back);
    StuckEmitsFresh(p, maxPayload);
    FreshKeepsReliable(back, Emitting(p, maxPayload), maxPayload);
  }

  // ---------------------------------------------------------------- whole runs

  lemma StepKeepsReliable(p: Pair, e: Event)
    requires Safe(p) && Reliable(p) && (e.Emit? ==> HarmlessAt(p, e.maxPayload))
    ensures Reliable(Step(p, e))
  {
    match e
    case AppendData(chunks, eof) => AppendKeepsReliable(p, chunks, eof);
    case Emit(maxPayload) => EmitKeepsReliable(p, maxPayload);
    case Deliver(x) => if x in p.emitted { DeliverKeepsReliable(p, x); }
    case Acknowledge(x) => if x in p.delivered { AckKeepsReliable(p, x); }
    case ReadUpTo(n) =>
      ReadKeepsHas(p, n);
      SameViewReliable(p, Step(p, e));
    case Lose(x) => LoseKeepsReliable(p, x);
    case _ => QuietKeepsReliable(p, e);
  }

  lemma AppendKeepsReliable(p: Pair, chunks: seq<seq<byte>>, eof: bool)
    requires Reliable(p)
    ensures Reliable(Step(p, AppendData(chunks, eof)))
  {
    SameViewReliable(p, Step(p, AppendData(chunks, eof)));
  }

  lemma LoseKeepsReliable(p: Pair, x: SentRange)
    requires Reliable(p)
    ensures Reliable(Step(p, Lose(x)))
  {
    SameViewReliable(p, Step(p, Lose(x)));
  }

  lemma QuietKeepsReliable(p: Pair, e: Event)
    requires Safe(p) && Reliable(p) && Quiet(e)
    ensures Reliable(Step(p, e))
  {
    QuietFrame(p, e);
    RoutedOnlyEnds(p, e);
    SameViewReliable(p, Step(p, e));
  }

  lemma RoutedOnlyEnds(p: Pair, e: Event)
    ensures Step(p, e).routed ==> p.routed
  {
  }

  lemma {:induction false} RunIsReliable(id: nat, window: nat, open: bool, events: seq<Event>)
    requires HarmlessCuts(Init(id, window, open), events)
    ensures Safe(Exec(Init(id, window, open), events)) && Reliable(Exec(Init(id, window, open), events))
    decreases |events|
  {
    if events != [] {
      var before := events[..|events| - 1];
      RunIsReliable(id, window, open, before);
      StepKeepsSafe(Exec(Init(id, window, open), before), events[|events| - 1]);
      StepKeepsReliable(Exec(Init(id, window, open), before), events[|events| - 1]);
    }
  }

  // ---------------------------------------------------------------- removal of the receive entry

  /** The state in which the entry was removed, if it was. */
  ghost function RemovalPoint(p: Pair, events: seq<Event>): Option<Pair>
    decreases |events|
  {
    if events == [] then None
    else
      var before := events[..|events| - 1];
      var q := Exec(p, before);
      if q.routed && !Exec(p, events).routed then Some(q) else RemovalPoint(p, before)
  }

  /** After the removal the receiver gets nothing more, and loses nothing. */
  lemma UnroutedStepKeepsHas(p: Pair, e: Event)
    requires Safe(p) && !p.routed
    ensures var p' := Step(p, e);
            !p'.routed && (forall x :: Has(p', x) <==> Has(p, x)) && (HasEof(p') <==> HasEof(p))
  {
    match e
    case ReadUpTo(n) => ReadKeepsHas(p, n);
    case AppendData(_, _) =>
    case Emit(_) =>
    case Deliver(_) =>
    case Acknowledge(_) =>
    case Lose(_) =>
    case _ =>
      QuietFrame(p, e);
      RoutedOnlyEnds(p, e);
  }

  lemma RemoveKeepsHas(p: Pair, e: Event)
    requires p.routed && !Step(p, e).routed
    ensures Step(p, e) == p.(routed := false)
  {
  }

  /** EOF at the receiver means that the sender is done. */
  lemma EofEndsSending(p: Pair, e: Event)
    requires Safe(p) && p.snd.eofSent
    ensures Step(p, e).snd.eofSent && Step(p, e).snd.offset == p.snd.offset
  {
    if e.Emit? {
      EmitGrows(p, e.maxPayload);
    } else if Quiet(e) {
      QuietFrame(p, e);
    }
  }

  lemma ReceivedEofWasSent(p: Pair)
    requires Safe(p) && Provenance(p) && HasEof(p)
    ensures p.snd.eofSent
  {
    var g :| g in p.accepted && g.eof;
    assert RangeOk(p, g);
  }

  /** What had arrived at the removal is what ever arrives. */
  lemma {:induction false} RemovalFreezes(id: nat, window: nat, open: bool, events: seq<Event>)
    ensures var p, r := Exec(Init(id, window, open), events), RemovalPoint(Init(id, window, open), events);
            && Safe(p) && (p.routed <==> r.None?)
            && (r.Some? ==>
                  && Safe(r.value) && (forall x :: Has(p, x) <==> Has(r.value, x)) && (HasEof(p) <==> HasEof(r.value))
                  && (r.value.snd.eofSent ==> p.snd.eofSent && p.snd.offset == r.value.snd.offset))
    decreases |events|
  {
    if events != [] {
      var before, e := events[..|events| - 1], events[|events| - 1];
      var q := Exec(Init(id, window, open), before);
      RemovalFreezes(id, window, open, before);
      StepKeepsSafe(q, e);
      if q.routed {
        if !Step(q, e).routed {
          RemoveKeepsHas(q, e);
        }
      } else {
        UnroutedStepKeepsHas(q, e);
        if RemovalPoint(Init(id, window, open), before).value.snd.eofSent {
          EofEndsSending(q, e);
        }
      }
    }
  }

  lemma {:induction false} RunHasProvenance(id: nat, window: nat, open: bool, events: seq<Event>)
    ensures Safe(Exec(Init(id, window, open), events)) && Provenance(Exec(Init(id, window, open), events))
  {
    if events != [] {
      var before, e := events[..|events| - 1], events[|events| - 1];
      var p := Exec(Init(id, window, open), before);
      RunHasProvenance(id, window, open, before);
      StepKeepsSafe(p, e);
      StepKeepsProvenance(p, e);
    }
  }

  lemma StepKeepsProvenance(p: Pair, e: Event)
    requires Safe(p) && Provenance(p)
    ensures Provenance(Step(p, e))
  {
    match e
    case Deliver(x) => if x in p.emitted { DeliverKeepsProvenance(p, x); }
    case ReadUpTo(n) => ReadKeepsHas(p, n);
    case AppendData(_, _) => SameReceiver(p, Step(p, e));
    case Emit(_) => SameReceiver(p, Step(p, e));
    case Acknowledge(_) => SameReceiver(p, Step(p, e));
    case Lose(_) => SameReceiver(p, Step(p, e));
    case _ =>
      QuietFrame(p, e);
      SameReceiver(p, Step(p, e));
  }

  lemma {:induction false} RemovalPointHasProvenance(id: nat, window: nat, open: bool, events: seq<Event>)
    requires RemovalPoint(Init(id, window, open), events).Some?
    ensures var q := RemovalPoint(Init(id, window, open), events).value; Safe(q) && Provenance(q)
    decreases |events|
  {
    var before := events[..|events| - 1];
    RunHasProvenance(id, window, open, before);
    if RemovalPoint(Init(id, window, open), before).Some? {
      RemovalPointHasProvenance(id, window, open, before);
    }
  }

  /** A queue that covers everything up to the end and holds EOF is read out in one call. */
  lemma {:induction false} TakeAll(got: seq<byte>, q: seq<RecvData>, next: nat, n: nat, eof: bool, sent: seq<byte>, done: bool)
    requires QueueOk(q, next, sent, done)
    requires eof ==> q == [] && done && next == |sent|
    requires forall x :: 0 <= x < |sent| ==> Covered(q, next, x)
    requires EofCovered(q, eof) && n > |sent| - next
    ensures var t := Take(got, q, next, n, eof); t.nextOffset == |sent| && t.eof
    decreases |q|
  {
    if q == [] {
      assert next < |sent| ==> Covered(q, next, next);
    } else {
      assert Element(q[0], next, sent, done);
      assert q[0].offset == next by {
        if next < |sent| {
          assert Covered(q, next, next);
          var i :| 0 <= i < |q| && q[i].Has(next);
          assert Element(q[i], next, sent, done);
          assert i > 0 ==> Before(q[0], q[i]);
        }
      }
      DropFirst(q, next, sent, done);
      forall x | 0 <= x < |sent| ensures Covered(q[1..], q[0].End(), x) {
        assert Covered(q, next, x);
        CoverRest(q, x);
      }
      CoverRest(q, 0);
      TakeAll(got + q[0].data, q[1..], q[0].End(), n - |q[0].data|, q[0].eof, sent, done);
    }
  }

  /** End-to-end reliability, exactly. In every run of harmless divisions, whatever is lost,
      repeated and reordered, a completed stream has every sent byte and the EOF at the receiver if
      and only if its receive entry was not removed, or everything had arrived by then. */
  lemma CompletedArrivesExactly(id: nat, window: nat, open: bool, events: seq<Event>)
    requires HarmlessCuts(Init(id, window, open), events) && Exec(Init(id, window, open), events).snd.Completed()
    ensures var p, r := Exec(Init(id, window, open), events), RemovalPoint(Init(id, window, open), events);
            Arrived(p) <==> (r.Some? ==> Arrived(r.value))
  {
    RunIsReliable(id, window, open, events);
    RemovalFreezes(id, window, open, events);
    var r := RemovalPoint(Init(id, window, open), events);
    if r.Some? {
      RemovalPointHasProvenance(id, window, open, events);
      if HasEof(r.value) {
        ReceivedEofWasSent(r.value);
      }
    }
  }

  /** What has arrived is read out: one large enough read returns all that was sent, and all that
      was appended unless the stream was cancelled. */
  lemma EndToEndReliability(id: nat, window: nat, open: bool, events: seq<Event>, n: nat)
    requires var p := Exec(Init(id, window, open), events);
             p.snd.Completed() && HarmlessCuts(Init(id, window, open), events)
    requires var r := RemovalPoint(Init(id, window, open), events); r.Some? ==> Arrived(r.value)
    requires var p := Exec(Init(id, window, open), events); n > p.snd.offset - p.rcv.oq.nextOffset
    ensures var p := Exec(Init(id, window, open), events);
            var p' := Reading(p, n);
            && Arrived(p) && p'.rcv.oq.eofReached
            && p.snd.offset <= |p.appended| && p'.read == p.appended[..p.snd.offset]
            && (!p.snd.cancelRequested ==> p'.read == p.appended)
  {
    CompletedArrivesExactly(id, window, open, events);
    RunIsReliable(id, window, open, events);
    ReadsOut(Exec(Init(id, window, open), events), n);
  }

  lemma ReadsOut(p: Pair, n: nat)
    requires Safe(p) && HasEof(p) && forall x :: 0 <= x < p.snd.offset ==> Has(p, x)
    requires n > p.snd.offset - p.rcv.oq.nextOffset
    ensures var p' := Reading(p, n);
            p'.rcv.oq.eofReached && p'.read == Sent(p) && (!p.snd.cancelRequested ==> p'.read == p.appended)
  {
    var oq := p.rcv.oq;
    if !oq.eofReached {
      forall x | 0 <= x < |Sent(p)| ensures Covered(oq.queue, oq.nextOffset, x) {
        assert Has(p, x);
      }
      TakeAll([], oq.queue, oq.nextOffset, n, false, Sent(p), p.snd.eofSent);
    }
    ReadKeeps(p, n);
    assert Sent(Reading(p, n)) == Sent(p);
  }
}
