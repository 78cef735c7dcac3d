/** The received packet numbers waiting to be acknowledged: trsf/pn_track.go, and the ACK part of
    the run loop in trsf/conn.go. */
module PacketNumTrackers {
  import opened Common
  import opened AckWire

  /** Sorted, non-empty, with a gap between neighbours; packet numbers have 63 bits. */
  ghost predicate Sorted(rs: seq<Range>) {
    && (forall i :: 0 <= i < |rs| ==> rs[i].begin < rs[i].end <= 0x8000_0000_0000_0000)
    && (forall i, j :: 0 <= i < j < |rs| ==> rs[i].end < rs[j].begin)
  }

  /** Whether a number leaves a trace: one that is more than one past the last range falls out
      of the scan and is not recorded. */
  predicate Recorded(rs: seq<Range>, n: nat) {
    rs == [] || n <= rs[|rs| - 1].end
  }

  ghost predicate Adds(rs: seq<Range>, rs': seq<Range>, n: int) {
    Sorted(rs') && forall x :: Names(rs', x) <==> Names(rs, x) || x == n
  }

  lemma NamesConcat(a: seq<Range>, b: seq<Range>, x: int)
    ensures Names(a + b, x) <==> Names(a, x) || Names(b, x)
  {
    if Names(a, x) {
      var i :| 0 <= i < |a| && Holds(a[i], x);
      assert (a + b)[i] == a[i];
    }
    if Names(b, x) {
      var i :| 0 <= i < |b| && Holds(b[i], x);
      assert (a + b)[|a| + i] == b[i];
    }
  }

  /** Elements i up to j become the one range r. */
  function Spliced(rs: seq<Range>, i: nat, j: nat, r: Range): seq<Range>
    requires i <= j <= |rs|
  {
    rs[..i] + [r] + rs[j..]
  }

  lemma SplicedSorted(rs: seq<Range>, i: nat, j: nat, r: Range)
    requires Sorted(rs) && i <= j <= |rs| && r.begin < r.end <= 0x8000_0000_0000_0000
    requires (i > 0 ==> rs[i - 1].end < r.begin) && (j < |rs| ==> r.end < rs[j].begin)
    ensures Sorted(Spliced(rs, i, j, r))
  {
    var rs' := Spliced(rs, i, j, r);
    forall k | 0 <= k < i ensures rs[k].end < r.begin {
      assert k < i - 1 ==> rs[k].end < rs[i - 1].begin;
    }
    forall k | j <= k < |rs| ensures r.end < rs[k].begin {
      assert k > j ==> rs[j].end < rs[k].begin;
    }
    forall k, l | 0 <= k < l < |rs'| ensures rs'[k].end < rs'[l].begin {
      assert rs'[k] == if k < i then rs[k] else if k == i then r else rs[k - i - 1 + j];
      assert rs'[l] == if l < i then rs[l] else if l == i then r else rs[l - i - 1 + j];
    }
  }

  lemma SplicedAdds(rs: seq<Range>, i: nat, j: nat, r: Range, n: int)
    requires Sorted(rs) && i <= j <= |rs| && r.begin < r.end <= 0x8000_0000_0000_0000
    requires (i > 0 ==> rs[i - 1].end < r.begin) && (j < |rs| ==> r.end < rs[j].begin)
    requires Fills(rs, i, j, r, n)
    ensures Adds(rs, Spliced(rs, i, j, r), n)
  {
    SplicedSorted(rs, i, j, r);
    forall x ensures Names(Spliced(rs, i, j, r), x) <==> Names(rs, x) || x == n {
      assert Holds(r, x) <==> Names(rs[i..j], x) || x == n;
      assert Names([r], x) <==> Holds(r, x) by { assert [r][0] == r; }
      NamesConcat(rs[..i], [r], x);
      NamesConcat(rs[..i] + [r], rs[j..], x);
      NamesConcat(rs[..i], rs[i..j], x);
      NamesConcat(rs[..i] + rs[i..j], rs[j..], x);
      assert rs[..i] + rs[i..j] + rs[j..] == rs;
    }
  }

  lemma EndsAscend(rs: seq<Range>, i: nat)
    requires Sorted(rs) && i < |rs|
    ensures rs[i].begin < rs[i].end <= rs[|rs| - 1].end
    ensures i + 1 < |rs| ==> rs[i].end < rs[i + 1].begin
    ensures i + 2 < |rs| ==> rs[i + 1].end < rs[i + 2].begin
  {
  }

  /** The range r holds what ranges i up to j held, and n. */
  ghost predicate Fills(rs: seq<Range>, i: nat, j: nat, r: Range, n: int)
    requires i <= j <= |rs|
  {
    forall x :: Holds(r, x) <==> Names(rs[i..j], x) || x == n
  }

  lemma FillsOne(rs: seq<Range>, i: nat, r: Range, n: int)
    requires i < |rs| && rs[i].begin < rs[i].end
    requires (r.begin == rs[i].begin && n == rs[i].end && r.end == n + 1) || (r.begin == n && n + 1 == rs[i].begin && r.end == rs[i].end)
    ensures Fills(rs, i, i + 1, r, n)
  {
  }

  lemma FillsTwo(rs: seq<Range>, i: nat, n: int)
    requires i + 1 < |rs| && rs[i].begin < rs[i].end == n && n + 1 == rs[i + 1].begin < rs[i + 1].end
    ensures Fills(rs, i, i + 2, Range(rs[i].begin, rs[i + 1].end), n)
  {
  }

  lemma FillsNone(rs: seq<Range>, i: nat, n: nat)
    requires i <= |rs| && n + 1 < TWO64
    ensures Fills(rs, i, i, Range(n, n + 1), n)
  {
  }

  /** A packet number and when it arrived. */
  datatype Arrival = Arrival(n: nat, at: int)

  /** Arrival i is the first with the largest number. */
  ghost predicate IsLargest(arrivals: seq<Arrival>, i: nat) {
    && i < |arrivals|
    && (forall k :: 0 <= k < i ==> arrivals[k].n < arrivals[i].n)
    && (forall k :: i < k < |arrivals| ==> arrivals[k].n <= arrivals[i].n)
  }

  lemma LargestGrows(arrivals: seq<Arrival>, i: nat, a: Arrival)
    requires IsLargest(arrivals, i)
    ensures var j := if a.n > arrivals[i].n then |arrivals| else i;
            IsLargest(arrivals + [a], j) && (arrivals + [a])[j] == if a.n > arrivals[i].n then a else arrivals[i]
  {
  }

  class PacketNumTracker {
    var unackedRanges: seq<Range>
    var largestPN: nat
    var largestAt: int
    var haveLargest: bool

    /** Every packet number that was ever inserted. */
    ghost var received: set<nat>

    /** The arrivals since the last ACK was generated. */
    ghost var arrivals: seq<Arrival>

    ghost predicate Valid()
      reads this
    {
      && Sorted(unackedRanges) && (forall x: nat :: Names(unackedRanges, x) ==> x in received)
      && Remembers()
    }

    /** The tracker remembers the number and the time of the largest arrival. */
    ghost predicate Remembers()
      reads this
    {
      && (haveLargest <==> arrivals != [])
      && (haveLargest ==> exists i: nat :: IsLargest(arrivals, i) && arrivals[i] == Arrival(largestPN, largestAt))
    }

    constructor ()
      ensures Valid() && unackedRanges == [] && received == {} && arrivals == []
    {
      unackedRanges, largestPN, largestAt, haveLargest := [], 0, 0, false;
      received, arrivals := {}, [];
    }

    method InsertUnacked(n: nat, now: int)
      requires Valid() && n < 0x8000_0000_0000_0000
      modifies this
      ensures Valid() && received == old(received) + {n} && arrivals == old(arrivals) + [Arrival(n, now)]
      ensures if Recorded(old(unackedRanges), n) then Adds(old(unackedRanges), unackedRanges, n)
              else unackedRanges == old(unackedRanges)
    {
      Notice(n, now);
      if |unackedRanges| == 0 {
        unackedRanges := [Range(n, n + 1)];
        assert unackedRanges[0] == Range(n, n + 1);
        return;
      }
      Scan(n);
    }

    /** The part of InsertUnacked that times the largest number. */
    method Notice(n: nat, now: int)
      requires Valid()
      modifies this`largestPN, this`largestAt, this`haveLargest, this`received, this`arrivals
      ensures Valid() && received == old(received) + {n} && arrivals == old(arrivals) + [Arrival(n, now)]
    {
      if !haveLargest {
        assert IsLargest([Arrival(n, now)], 0);
      } else {
        ghost var i: nat :| IsLargest(arrivals, i) && arrivals[i] == Arrival(largestPN, largestAt);
        LargestGrows(arrivals, i, Arrival(n, now));
      }
      received, arrivals := received + {n}, arrivals + [Arrival(n, now)];
      if !haveLargest || n > largestPN {
        largestPN, largestAt, haveLargest := n, now, true;
      }
    }

    /** The loop of InsertUnacked over a non-empty list. */
    method Scan(n: nat)
      requires Valid() && |unackedRanges| > 0 && n in received && n < 0x8000_0000_0000_0000
      modifies this`unackedRanges
      ensures Valid()
      ensures if n <= old(unackedRanges[|unackedRanges| - 1].end) then Adds(old(unackedRanges), unackedRanges, n)
              else unackedRanges == old(unackedRanges)
    {
      var i := 0;
      while i < |unackedRanges|
        invariant 0 <= i <= |unackedRanges| && unackedRanges == old(unackedRanges)
        invariant i > 0 ==> unackedRanges[i - 1].end < n
      {
        var r := unackedRanges[i];
        EndsAscend(unackedRanges, i);
        if r.begin <= n < r.end {
          assert Holds(unackedRanges[i], n);
          return;
        }
        if n == r.end {
          if i + 1 < |unackedRanges| && n + 1 == unackedRanges[i + 1].begin {
            FillsTwo(unackedRanges, i, n);
            Replace(i, i + 2, Range(r.begin, unackedRanges[i + 1].end), n);
          } else {
            FillsOne(unackedRanges, i, Range(r.begin, n + 1), n);
            Replace(i, i + 1, Range(r.begin, n + 1), n);
          }
          return;
        }
        if n + 1 == r.begin {
          // The range before it ends below n, so there is nothing to merge with.
          FillsOne(unackedRanges, i, Range(n, r.end), n);
          Replace(i, i + 1, Range(n, r.end), n);
          return;
        }
        if n < r.begin {
          FillsNone(unackedRanges, i, n);
          Replace(i, i, Range(n, n + 1), n);
          return;
        }
        i := i + 1;
      }
    }

    /** Puts one range where ranges i up to j were: the extending, merging and inserting of
        InsertUnacked. */
    method Replace(i: nat, j: nat, r: Range, n: nat)
      requires Valid() && i <= j <= |unackedRanges| && n in received
      requires r.begin < r.end <= 0x8000_0000_0000_0000
      requires (i > 0 ==> unackedRanges[i - 1].end < r.begin) && (j < |unackedRanges| ==> r.end < unackedRanges[j].begin)
      requires Fills(unackedRanges, i, j, r, n)
      modifies this`unackedRanges
      ensures Valid() && Adds(old(unackedRanges), unackedRanges, n)
    {
      SplicedAdds(unackedRanges, i, j, r, n);
      unackedRanges := unackedRanges[..i] + [r] + unackedRanges[j..];
    }

    method GenerateACK(now: int) returns (ranges: seq<Range>, held: int)
      requires Valid()
      modifies this
      ensures Valid() && unackedRanges == [] && received == old(received) && arrivals == []
      ensures ranges == old(unackedRanges) && old(haveLargest) == (old(arrivals) != [])
      ensures held == if old(haveLargest) then now - old(largestAt) else 0
      ensures old(arrivals) == [] ==> held == 0
      ensures old(arrivals) != [] ==>
                exists i: nat :: IsLargest(old(arrivals), i) && held == now - old(arrivals)[i].at
    {
      ranges := unackedRanges;
      unackedRanges, arrivals := [], [];
      held := 0;
      if haveLargest {
        held := now - largestAt;
        haveLargest := false;
      }
    }

    /** The ACK step of the run loop. Whatever bytes it emits decode to ranges that name only
        numbers that were received. */
    method BuildAck(now: int) returns (r: Option<seq<byte>>)
      requires Valid()
      requires -0x8000_0000_0000_0000 <= now - largestAt < 0x8000_0000_0000_0000
      modifies this
      ensures Valid() && unackedRanges == [] && received == old(received)
      ensures r.Some? <==> |old(unackedRanges)| == 1 && Encodable(old(unackedRanges))
      ensures r.Some? ==>
                var p := DecodeAck(r.value);
                && p.Some? && FieldsOk(p.value)
                && ParsedAck(p.value).0 == old(unackedRanges)
                && forall x: nat :: Names(ParsedAck(p.value).0, x) ==> x in received
    {
      var ranges, held := GenerateACK(now);
      r := EncodeAck(ranges, held);
    }
  }

  /** Numbers do get lost: of 1 and 3, received in this order, 3 leaves no trace. */
  method GapLeavesNoTrace(now: int) returns (t: PacketNumTracker)
    ensures fresh(t) && t.Valid() && t.received == {1, 3} && t.unackedRanges == [Range(1, 2)]
  {
    t := new PacketNumTracker();
    t.InsertUnacked(1, now);
    assert Names(t.unackedRanges, 1);
    assert t.unackedRanges == [Range(1, 2)] by {
      OnlyRange(t.unackedRanges, 1);
    }
    t.InsertUnacked(3, now);
  }

  /** A sorted list that names one number is one range. */
  lemma OnlyRange(rs: seq<Range>, n: nat)
    requires Sorted(rs) && forall x :: Names(rs, x) <==> x == n
    ensures n + 1 < TWO64 && rs == [Range(n, n + 1)]
  {
    assert Names(rs, n);
    forall i | 0 <= i < |rs| ensures rs[i] == Range(n, n + 1) {
      assert Holds(rs[i], rs[i].begin) && Names(rs, rs[i].begin);
      assert Holds(rs[i], rs[i].end - 1) && Names(rs, rs[i].end - 1);
    }
    assert |rs| > 1 ==> rs[0].end < rs[1].begin;
  }
}
