/** The receive nonce tracker of objproto/objproto.go: a list of unused intervals that stands for
    the numbers below the largest one that have not been accepted. */
module ReplayTrackers {
  import opened Common

  /** Inclusive on both ends. The time stamp of an interval is never read and is left out. */
  datatype Unused = Unused(start: nat, end: nat) {
    predicate Has(x: int) { start <= x <= end }
  }

  ghost predicate Listed(u: seq<Unused>, x: int) {
    exists i :: 0 <= i < |u| && u[i].Has(x)
  }

  /** Non-empty intervals in ascending order; `gap` is 1 when neighbours may touch, 2 when not. */
  ghost predicate Ascending(u: seq<Unused>, gap: nat) {
    && (forall i :: 0 <= i < |u| ==> u[i].start <= u[i].end)
    && (forall i, j :: 0 <= i < j < |u| ==> u[i].end + gap <= u[j].start)
  }

  lemma ListedConcat(a: seq<Unused>, b: seq<Unused>, x: int)
    ensures Listed(a + b, x) <==> Listed(a, x) || Listed(b, x)
  {
    if Listed(a, x) {
      var i :| 0 <= i < |a| && a[i].Has(x);
      assert (a + b)[i] == a[i];
    }
    if Listed(b, x) {
      var i :| 0 <= i < |b| && b[i].Has(x);
      assert (a + b)[|a| + i] == b[i];
    }
  }

  /** What is left of one interval when n is taken out. */
  function Pieces(g: Unused, n: nat): seq<Unused>
    requires g.Has(n)
  {
    (if g.start < n then [Unused(g.start, n - 1)] else []) + (if n < g.end then [Unused(n + 1, g.end)] else [])
  }

  function Without(u: seq<Unused>, i: nat, n: nat): seq<Unused>
    requires i < |u| && u[i].Has(n)
  {
    u[..i] + Pieces(u[i], n) + u[i + 1..]
  }

  lemma WithoutMembers(u: seq<Unused>, i: nat, n: nat, x: int)
    requires Ascending(u, 2) && i < |u| && u[i].Has(n)
    ensures Listed(Without(u, i, n), x) <==> Listed(u, x) && x != n
  {
    var mid := Pieces(u[i], n);
    ListedConcat(u[..i], mid, x);
    ListedConcat(u[..i] + mid, u[i + 1..], x);
    ListedConcat(u[..i], [u[i]], x);
    ListedConcat(u[..i] + [u[i]], u[i + 1..], x);
    assert u[..i] + [u[i]] + u[i + 1..] == u;
    PiecesMembers(u[i], n, x);
    OtherIntervals(u, i, n);
  }

  lemma PiecesMembers(g: Unused, n: nat, x: int)
    requires g.Has(n)
    ensures Listed(Pieces(g, n), x) <==> g.Has(x) && x != n
    ensures Listed([g], x) <==> g.Has(x)
  {
    assert [g][0] == g;
    var low := if g.start < n then [Unused(g.start, n - 1)] else [];
    var high := if n < g.end then [Unused(n + 1, g.end)] else [];
    ListedConcat(low, high, x);
    if g.start < n {
      assert low[0] == Unused(g.start, n - 1);
    }
    if n < g.end {
      assert high[0] == Unused(n + 1, g.end);
    }
  }

  lemma OtherIntervals(u: seq<Unused>, i: nat, n: nat)
    requires Ascending(u, 2) && i < |u| && u[i].Has(n)
    ensures !Listed(u[..i], n) && !Listed(u[i + 1..], n)
  {
  }

  lemma WithoutAscends(u: seq<Unused>, i: nat, n: nat)
    requires Ascending(u, 2) && i < |u| && u[i].Has(n)
    ensures Ascending(Without(u, i, n), 2)
  {
  }

  /** The tracker as a set: which numbers it has accepted. */
  predicate Accepts(accepted: set<nat>, n: nat) { n >= 1 && n !in accepted }

  class ReplayTracker {
    var largestNonce: nat
    var unusedRange: seq<Unused>
    ghost var accepted: set<nat>

    /** The intervals are exactly {1..largest} minus the accepted numbers. */
    ghost predicate Valid()
      reads this
    {
      && Ascending(unusedRange, 2)
      && (forall x :: Listed(unusedRange, x) <==> 1 <= x <= largestNonce && x !in accepted)
      && (forall x :: x in accepted ==> 1 <= x <= largestNonce)
      && (largestNonce > 0 ==> largestNonce in accepted)
    }

    constructor ()
      ensures Valid() && accepted == {}
    {
      largestNonce, unusedRange, accepted := 0, [], {};
    }

    /** A number is accepted once; a dry run answers alike and changes nothing. */
    method InsertNonce(nonce: nat, dryRun: bool) returns (ok: bool)
      requires Valid()
      modifies this
      ensures Valid() && ok == Accepts(old(accepted), nonce)
      ensures dryRun ==> unusedRange == old(unusedRange) && largestNonce == old(largestNonce) && accepted == old(accepted)
      ensures !dryRun ==> accepted == if ok then old(accepted) + {nonce} else old(accepted)
    {
      if nonce > largestNonce {
        if dryRun {
          return true;
        }
        Raise(nonce);
        return true;
      }
      var i := 0;
      while i < |unusedRange|
        invariant 0 <= i <= |unusedRange|
        invariant forall k :: 0 <= k < i ==> !unusedRange[k].Has(nonce)
        invariant unusedRange == old(unusedRange) && largestNonce == old(largestNonce) && accepted == old(accepted)
      {
        if unusedRange[i].start <= nonce <= unusedRange[i].end {
          assert Listed(unusedRange, nonce);
          if dryRun {
            return true;
          }
          TakeOut(i, nonce);
          MergeAdjacent();
          return true;
        }
        i := i + 1;
      }
      assert !Listed(unusedRange, nonce);
      return false;
    }

    /** A number above the largest opens the interval between them. */
    method Raise(nonce: nat)
      requires Valid() && nonce > largestNonce
      modifies this
      ensures Valid() && accepted == old(accepted) + {nonce}
    {
      if nonce > largestNonce + 1 {
        var gap := Unused(largestNonce + 1, nonce - 1);
        forall i | 0 <= i < |unusedRange| ensures unusedRange[i].end < largestNonce {
          assert unusedRange[i].Has(unusedRange[i].end);
          assert Listed(unusedRange, unusedRange[i].end);
        }
        forall x ensures Listed(unusedRange + [gap], x) <==> Listed(unusedRange, x) || gap.Has(x) {
          ListedConcat(unusedRange, [gap], x);
          assert [gap][0] == gap;
        }
        unusedRange := unusedRange + [gap];
      }
      largestNonce := nonce;
      accepted := accepted + {nonce};
    }

    /** Takes a listed number out of its interval. */
    method TakeOut(i: nat, nonce: nat)
      requires Valid() && i < |unusedRange| && unusedRange[i].Has(nonce)
      modifies this
      ensures Valid() && accepted == old(accepted) + {nonce} && largestNonce == old(largestNonce)
    {
      assert Listed(unusedRange, nonce);
      WithoutAscends(unusedRange, i, nonce);
      forall x ensures Listed(Without(unusedRange, i, nonce), x) <==> Listed(unusedRange, x) && x != nonce {
        WithoutMembers(unusedRange, i, nonce, x);
      }
      ghost var rest := Without(unusedRange, i, nonce);
      var g := unusedRange[i];
      if g.start == nonce && g.end == nonce {
        unusedRange := unusedRange[..i] + unusedRange[i + 1..];
      } else if g.start == nonce {
        unusedRange := unusedRange[i := Unused(g.start + 1, g.end)];
      } else if g.end == nonce {
        unusedRange := unusedRange[i := Unused(g.start, g.end - 1)];
      } else {
        unusedRange := unusedRange[..i] + [Unused(g.start, nonce - 1)] + [Unused(nonce + 1, g.end)] + unusedRange[i + 1..];
      }
      assert unusedRange == rest;
      accepted := accepted + {nonce};
    }

    /** The merge loop: it ends, keeps the set, and leaves no two intervals that touch. */
    method MergeAdjacent()
      requires Ascending(unusedRange, 1)
      modifies this`unusedRange
      ensures Ascending(unusedRange, 2)
      ensures forall x :: Listed(unusedRange, x) <==> Listed(old(unusedRange), x)
    {
      var i := 0;
      while i < |unusedRange| - 1
        invariant 0 <= i && (i < |unusedRange| || i == 0)
        invariant Ascending(unusedRange, 1)
        invariant forall k, l :: 0 <= k < i && k < l < |unusedRange| ==> unusedRange[k].end + 2 <= unusedRange[l].start
        invariant forall x :: Listed(unusedRange, x) <==> Listed(old(unusedRange), x)
        decreases |unusedRange| - i
      {
        if unusedRange[i].end + 1 == unusedRange[i + 1].start {
          MergeKeepsOrder(unusedRange, i);
          forall x ensures Listed(Merged(unusedRange, i), x) <==> Listed(unusedRange, x) {
            MergeKeepsSet(unusedRange, i, x);
          }
          unusedRange := unusedRange[..i] + [Unused(unusedRange[i].start, unusedRange[i + 1].end)] + unusedRange[i + 2..];
        } else {
          NextIsApart(unusedRange, i);
          i := i + 1;
        }
      }
    }
  }

  lemma NextIsApart(u: seq<Unused>, i: nat)
    requires Ascending(u, 1) && i + 1 < |u| && u[i].end + 1 != u[i + 1].start
    ensures forall l :: i < l < |u| ==> u[i].end + 2 <= u[l].start
  {
  }

  function Merged(u: seq<Unused>, i: nat): seq<Unused>
    requires i + 1 < |u|
  {
    u[..i] + [Unused(u[i].start, u[i + 1].end)] + u[i + 2..]
  }

  lemma MergeKeepsOrder(u: seq<Unused>, i: nat)
    requires Ascending(u, 1) && i + 1 < |u|
    requires forall k, l :: 0 <= k < i && k < l < |u| ==> u[k].end + 2 <= u[l].start
    ensures var v := Merged(u, i);
            Ascending(v, 1) && forall k, l :: 0 <= k < i && k < l < |v| ==> v[k].end + 2 <= v[l].start
  {
  }

  lemma MergeKeepsSet(u: seq<Unused>, i: nat, x: int)
    requires Ascending(u, 1) && i + 1 < |u| && u[i].end + 1 == u[i + 1].start
    ensures Listed(Merged(u, i), x) <==> Listed(u, x)
  {
    var joined, pair := Unused(u[i].start, u[i + 1].end), u[i..i + 2];
    ListedConcat(u[..i], [joined], x);
    ListedConcat(u[..i] + [joined], u[i + 2..], x);
    ListedConcat(u[..i], pair, x);
    ListedConcat(u[..i] + pair, u[i + 2..], x);
    assert u[..i] + pair + u[i + 2..] == u;
    assert pair[0] == u[i] && pair[1] == u[i + 1] && [joined][0] == joined;
  }

  // ---------------------------------------------------------------- runs

  datatype Attempt = Attempt(nonce: nat, dryRun: bool)

  /** The accepted set after a run, as InsertNonce's contract fixes it. */
  function AfterRun(attempts: seq<Attempt>): set<nat> {
    if attempts == [] then {}
    else
      var before, a := AfterRun(attempts[..|attempts| - 1]), attempts[|attempts| - 1];
      if a.dryRun || !Accepts(before, a.nonce) then before else before + {a.nonce}
  }

  /** The answer of attempt i of a run. */
  predicate Answer(attempts: seq<Attempt>, i: nat)
    requires i < |attempts|
  {
    Accepts(AfterRun(attempts[..i]), attempts[i].nonce)
  }

  lemma {:induction false} AcceptedStays(attempts: seq<Attempt>, i: nat, j: nat)
    requires i <= j <= |attempts|
    ensures AfterRun(attempts[..i]) <= AfterRun(attempts[..j])
    decreases j - i
  {
    if i < j {
      AcceptedStays(attempts, i, j - 1);
      assert attempts[..j][..j - 1] == attempts[..j - 1];
    }
  }

  /** In any run a number is accepted at most once: after a real attempt said yes, every later
      attempt with that number, dry or real, says no. */
  lemma AcceptedOnce(attempts: seq<Attempt>, i: nat, j: nat)
    requires i < j < |attempts| && attempts[i].nonce == attempts[j].nonce
    requires !attempts[i].dryRun && Answer(attempts, i)
    ensures !Answer(attempts, j)
  {
    assert attempts[..i + 1][..i] == attempts[..i];
    AcceptedStays(attempts, i + 1, j);
  }

  lemma {:induction false} AttemptedIsAccepted(attempts: seq<Attempt>, n: nat)
    ensures n in AfterRun(attempts) <==> n >= 1 && Attempt(n, false) in attempts
  {
    if attempts != [] {
      var before, a := attempts[..|attempts| - 1], attempts[|attempts| - 1];
      AttemptedIsAccepted(before, n);
      AttemptedIsAccepted(before, a.nonce);
      assert attempts == before + [a];
    }
  }

  /** In any run an attempt is answered yes if and only if its number is at least 1 and no earlier
      attempt with that number was real. */
  lemma AcceptedExactly(attempts: seq<Attempt>, j: nat)
    requires j < |attempts|
    ensures Answer(attempts, j) <==>
              attempts[j].nonce >= 1 && forall i :: 0 <= i < j ==> attempts[i] != Attempt(attempts[j].nonce, false)
  {
    AttemptedIsAccepted(attempts[..j], attempts[j].nonce);
    assert forall i :: 0 <= i < j ==> attempts[..j][i] == attempts[i];
  }
}
