/** A run that loses bytes under budgets that the path MTU tracker can produce: the estimate falls
    once, to the base size, and rises again. A range is divided at the base size; it is declared lost
    once more after its fragments took its place, and is divided a second time at the raised size. */
module TwoBudgets {
  import opened Common
  import opened TriggerQueues
  import opened SendStreams
  import opened OrderingQueues
  import opened StreamPairs
  import opened PrefixSafety
  import opened Reliability
  import opened Continuations
  import opened Losses
  import MtuTrackers
  import Varints

  /** The whole stream in one range. */
  function Original(data: seq<byte>): SentRange { SentRange(0, 0, data, true) }

  function Piece(uid: nat, data: seq<byte>, from: nat, to: nat): SentRange
    requires from <= to <= |data|
  {
    SentRange(uid, from, data[from..to], to == |data|)
  }

  /** The sender once all the data and the EOF are out. */
  function AllSent(id: nat, data: seq<byte>, window: nat, ranges: seq<SentRange>, queue: seq<SentRange>, uid: nat): Sender {
    Sender(id, [], |data|, |data|, true, false, true, false, ranges, queue, window, |data|, uid)
  }

  /** How far a cut at this budget is into the first range. */
  function Cut(id: nat, data: seq<byte>, budget: int): int { budget - HeaderSize(id, 0, |data|) }

  /** The first budget holds the whole range; the two others divide it, the second one later. */
  predicate Divide(id: nat, data: seq<byte>, big: nat, base: int, raised: int) {
    && HeaderSize(id, 0, big) + |data| <= big
    && 1 < Cut(id, data, base) < Cut(id, data, raised) < |data| <= Varints.MAX_VARINT
  }

  /** The receiver has seen nothing, and the sender is in state s with these ranges on the wire. */
  ghost predicate At(p: Pair, s: Sender, window: nat, out: set<SentRange>) {
    p.snd == s && p.rcv == NewReceiver(window) && p.routed && out <= p.emitted
  }

  lemma EmitsAt(p: Pair, s: Sender, window: nat, out: set<SentRange>, budget: int, s': Sender, x: SentRange)
    requires At(p, s, window, out) && Trigger(s, budget).s == s' && Trigger(s, budget).out == Some(x)
    ensures At(Step(p, Emit(budget)), s', window, out + {x})
  {
  }

  lemma LosesAt(p: Pair, s: Sender, window: nat, out: set<SentRange>, x: SentRange)
    requires At(p, s, window, out) && x in out
    ensures At(Step(p, Lose(x)), Lost(s, x), window, out)
  {
  }

  /** The data leave in one range. */
  lemma SendsAll(id: nat, window: nat, data: seq<byte>, big: nat)
    requires data != [] && window >= |data| && HeaderSize(id, 0, big) + |data| <= big
    ensures var p := Step(Step(Init(id, window, false), AppendData([data], true)), Emit(big));
            At(p, AllSent(id, data, window, [Original(data)], [], 1), window, {Original(data)})
  {
    var p0 := Init(id, window, false);
    AppendsOne(p0.snd, data, true);
    var p1 := Step(p0, AppendData([data], true));
    EmitsBuffer(p1.snd, data, big);
    assert [] + [Original(data)] == [Original(data)];
  }

  /** What a division leaves: the fragments in place of the range, and the tail at the end of the queue. */
  lemma TriggerCuts(s: Sender, budget: int)
    requires Divides(s, budget)
    ensures var head, tail, t := CutHead(s, budget), CutTail(s, budget), Trigger(s, budget);
            && t.out == Some(head)
            && t.s == s.(sentRanges := Replaced(s.sentRanges, s.retransmit[0], [head, tail]),
                         retransmit := Pushed(s.retransmit[1..], tail), nextUid := s.nextUid + 2)
  {
  }

  /** Dividing a piece of the data gives two pieces. */
  lemma CutsPiece(s: Sender, budget: int, data: seq<byte>, uid: nat, from: nat)
    requires Divides(s, budget) && from <= |data| && s.retransmit[0] == Piece(uid, data, from, |data|)
    ensures var k := from + CutAt(s, budget);
            && from < k < |data|
            && CutHead(s, budget) == Piece(s.nextUid, data, from, k)
            && CutTail(s, budget) == Piece(s.nextUid + 1, data, k, |data|)
  {
    var k := from + CutAt(s, budget);
    assert data[from..|data|][..k - from] == data[from..k];
    assert data[from..|data|][k - from..] == data[k..|data|];
  }

  lemma OriginalIsPiece(data: seq<byte>)
    ensures Original(data) == Piece(0, data, 0, |data|)
  {
    assert data[0..|data|] == data;
  }

  /** The first division, at the base size. */
  lemma FirstCut(id: nat, window: nat, data: seq<byte>, base: int, n: nat)
    requires n == Cut(id, data, base) && 1 < n < |data|
    ensures var r, head, tail := Original(data), Piece(1, data, 0, n), Piece(2, data, n, |data|);
            var t := Trigger(AllSent(id, data, window, [r], [r], 1), base);
            && t.s == AllSent(id, data, window, [head, tail], [tail], 3) && t.out == Some(head)
  {
    var r, head, tail := Original(data), Piece(1, data, 0, n), Piece(2, data, n, |data|);
    var s := AllSent(id, data, window, [r], [r], 1);
    assert Divides(s, base) && CutAt(s, base) == n;
    TriggerCuts(s, base);
    OriginalIsPiece(data);
    CutsPiece(s, base, data, 0, 0);
    assert Replaced([r], r, [head, tail]) == [head, tail];
    assert Pushed([r][1..], tail) == [tail];
  }

  /** A second header is longer than the first by less than the bytes it skips. */
  lemma HeaderGrowsLess(id: nat, n: nat, len: nat)
    requires 1 < n < len <= Varints.MAX_VARINT
    ensures HeaderSize(id, n, len - n) < HeaderSize(id, 0, len) + n
  {
  }

  /** A range of the first division's tail that a byte before the second cut can be in. */
  ghost predicate PastTheCut(f: SentRange, n: nat, m: nat) {
    f.End() <= n || f.offset > m || (f.offset == n && f.Has(m))
  }

  /** The tail divides at the raised size into a piece that reaches past the second cut, and a rest. */
  lemma TailCut(id: nat, window: nat, data: seq<byte>, raised: int, n: nat, m: nat) returns (k: nat)
    requires m == Cut(id, data, raised) && 1 < n < m < |data| <= Varints.MAX_VARINT
    requires HeaderSize(id, n, |data| - n) + |data| - n > raised
    ensures m < k < |data|
    ensures var r, head, tail := Original(data), Piece(1, data, 0, n), Piece(2, data, n, |data|);
            var a, b := Piece(3, data, n, k), Piece(4, data, k, |data|);
            var t := Trigger(AllSent(id, data, window, [head, tail], [tail, r], 3), raised);
            && t.s == AllSent(id, data, window, [head, a, b], [r, b], 5) && t.out == Some(a)
  {
    var r, head, tail := Original(data), Piece(1, data, 0, n), Piece(2, data, n, |data|);
    var s := AllSent(id, data, window, [head, tail], [tail, r], 3);
    HeaderGrowsLess(id, n, |data|);
    assert Divides(s, raised);
    TriggerCuts(s, raised);
    CutsPiece(s, raised, data, 2, n);
    k := n + CutAt(s, raised);
    var a, b := Piece(3, data, n, k), Piece(4, data, k, |data|);
    assert IndexOf([head, tail], tail) == 1;
    assert Replaced([head, tail], tail, [a, b]) == [head, a, b];
    assert s.retransmit[1..] == [r] && Pushed([r], b) == [r, b];
  }

  /** The tail, at the raised size, leaves whole or in a piece that reaches past the second cut. */
  lemma TailLeaves(id: nat, window: nat, data: seq<byte>, raised: int, n: nat, m: nat)
    returns (ranges: seq<SentRange>, rest: seq<SentRange>, uid: nat, out: SentRange)
    requires m == Cut(id, data, raised) && 1 < n < m < |data| <= Varints.MAX_VARINT
    ensures var r, head, tail := Original(data), Piece(1, data, 0, n), Piece(2, data, n, |data|);
            var t := Trigger(AllSent(id, data, window, [head, tail], [tail, r], 3), raised);
            && t.s == AllSent(id, data, window, ranges, [r] + rest, uid) && t.out == Some(out)
    ensures uid >= 3 && |rest| <= 1 && forall f :: f in ranges ==> 1 <= f.uid < uid && PastTheCut(f, n, m)
    ensures forall f :: f in rest ==> f.uid < uid && |f.data| <= |data|
  {
    var r, head, tail := Original(data), Piece(1, data, 0, n), Piece(2, data, n, |data|);
    if HeaderSize(id, n, |data| - n) + |data| - n <= raised {
      ranges, rest, uid, out := [head, tail], [], 3, tail;
      assert [tail, r][1..] == [r] + [];
    } else {
      var k := TailCut(id, window, data, raised, n, m);
      var a, b := Piece(3, data, n, k), Piece(4, data, k, |data|);
      ranges, rest, uid, out := [head, a, b], [b], 5, a;
      assert [r] + [b] == [r, b];
    }
  }

  /** The second division of the first range, which is no longer tracked. */
  lemma SecondCut(id: nat, window: nat, data: seq<byte>, raised: int, m: nat, ranges: seq<SentRange>, rest: seq<SentRange>, uid: nat)
    requires m == Cut(id, data, raised) && 1 < m < |data| && Original(data) !in ranges
    requires forall f :: f in rest ==> f.uid < uid
    ensures var r, head, tail := Original(data), Piece(uid, data, 0, m), Piece(uid + 1, data, m, |data|);
            var t := Trigger(AllSent(id, data, window, ranges, [r] + rest, uid), raised);
            && t.s == AllSent(id, data, window, ranges + [head, tail], rest + [tail], uid + 2) && t.out == Some(head)
  {
    var r := Original(data);
    var s := AllSent(id, data, window, ranges, [r] + rest, uid);
    assert Divides(s, raised) && CutAt(s, raised) == m;
    TriggerCuts(s, raised);
    OriginalIsPiece(data);
    CutsPiece(s, raised, data, 0, 0);
    assert ([r] + rest)[1..] == rest;
  }

  /** What the seven events of the script leave: the bytes between the two cuts are walled in. */
  ghost predicate CutTwice(p: Pair, data: seq<byte>, n: nat, m: nat) {
    && p.routed && p.snd.eofSent && p.snd.offset == |data| && p.rcv.oq == Queue([], 0, false)
    && LeftWall(p, n) && RightWall(p, m) && (forall x :: n <= x < m ==> Walled(p, n, m, x))
    && (forall f :: f in p.snd.retransmit ==> |f.data| <= |data|) && |p.snd.retransmit| <= 2
  }

  lemma NothingTouched(p: Pair, f: SentRange)
    requires p.rcv.oq == Queue([], 0, false)
    ensures !Touched(p, f)
  {
  }

  lemma CutTwiceWalls(p: Pair, id: nat, window: nat, data: seq<byte>, n: nat, m: nat, ranges: seq<SentRange>, rest: seq<SentRange>, uid: nat)
    requires 1 < n < m < |data| && uid >= 3 && |rest| <= 1
    requires At(p, AllSent(id, data, window, ranges + [Piece(uid, data, 0, m), Piece(uid + 1, data, m, |data|)],
                           rest + [Piece(uid + 1, data, m, |data|)], uid + 2), window, {Piece(1, data, 0, n)})
    requires forall f :: f in ranges ==> PastTheCut(f, n, m)
    requires forall f :: f in rest ==> |f.data| <= |data|
    ensures CutTwice(p, data, n, m)
  {
    var head, tail := Piece(1, data, 0, n), Piece(uid + 1, data, m, |data|);
    NothingTouched(p, head);
    NothingTouched(p, tail);
    assert Deliverable(p, head) && head.End() == n;
    assert tail in p.snd.retransmit && Deliverable(p, tail);
    forall x | n <= x < m ensures Walled(p, n, m, x) {
    }
  }

  /** The script: send everything at a large budget, lose it, divide at the base size, lose it again,
      and divide the tail and the range at the raised size. */
  lemma PlayScript(id: nat, window: nat, data: seq<byte>, big: nat, base: int, raised: int, n: nat, m: nat)
      returns (events: seq<Event>)
    requires Divide(id, data, big, base, raised) && window >= |data|
    requires n == Cut(id, data, base) && m == Cut(id, data, raised)
    ensures CutTwice(Exec(Init(id, window, false), events), data, n, m)
    ensures Budgets(events) == [big, base, raised, raised]
  {
    var r := Original(data);
    var head, tail := Piece(1, data, 0, n), Piece(2, data, n, |data|);
    var p2 := Step(Step(Init(id, window, false), AppendData([data], true)), Emit(big));
    SendsAll(id, window, data, big);
    LosesAt(p2, AllSent(id, data, window, [r], [], 1), window, {r}, r);
    var p3 := Step(p2, Lose(r));
    FirstCut(id, window, data, base, n);
    EmitsAt(p3, AllSent(id, data, window, [r], [r], 1), window, {r}, base, AllSent(id, data, window, [head, tail], [tail], 3), head);
    var p4 := Step(p3, Emit(base));
    LosesAt(p4, AllSent(id, data, window, [head, tail], [tail], 3), window, {r} + {head}, r);
    var p5 := Step(p4, Lose(r));
    var ranges, rest, uid, out := TailLeaves(id, window, data, raised, n, m);
    EmitsAt(p5, AllSent(id, data, window, [head, tail], [tail, r], 3), window, {r} + {head}, raised,
            AllSent(id, data, window, ranges, [r] + rest, uid), out);
    var p6 := Step(p5, Emit(raised));
    SecondCut(id, window, data, raised, m, ranges, rest, uid);
    EmitsAt(p6, AllSent(id, data, window, ranges, [r] + rest, uid), window, {r} + {head} + {out}, raised,
            AllSent(id, data, window, ranges + [Piece(uid, data, 0, m), Piece(uid + 1, data, m, |data|)],
                    rest + [Piece(uid + 1, data, m, |data|)], uid + 2), Piece(uid, data, 0, m));
    CutTwiceWalls(Step(p6, Emit(raised)), id, window, data, n, m, ranges, rest, uid);
    events := ScriptEvents(Init(id, window, false), data, big, base, raised);
  }

  lemma ScriptEvents(p0: Pair, data: seq<byte>, big: nat, base: int, raised: int) returns (events: seq<Event>)
    ensures var r := Original(data);
            Exec(p0, events) ==
            Step(Step(Step(Step(Step(Step(Step(p0, AppendData([data], true)), Emit(big)), Lose(r)), Emit(base)), Lose(r)),
                      Emit(raised)), Emit(raised))
    ensures Budgets(events) == [big, base, raised, raised]
  {
    var r := Original(data);
    var e7 := [Emit(raised)] + [];
    var e6 := [Emit(raised)] + e7;
    var e5 := [Lose(r)] + e6;
    var e4 := [Emit(base)] + e5;
    var e3 := [Lose(r)] + e4;
    var e2 := [Emit(big)] + e3;
    events := [AppendData([data], true)] + e2;
    var p1 := Step(p0, AppendData([data], true));
    var p2 := Step(p1, Emit(big));
    var p3 := Step(p2, Lose(r));
    var p4 := Step(p3, Emit(base));
    var p5 := Step(p4, Lose(r));
    var p6 := Step(p5, Emit(raised));
    Prepend(p6, Emit(raised), []);
    Prepend(p5, Emit(raised), e7);
    Prepend(p4, Lose(r), e6);
    Prepend(p3, Emit(base), e5);
    Prepend(p2, Lose(r), e4);
    Prepend(p1, Emit(big), e3);
    Prepend(p0, AppendData([data], true), e2);
  }

  function Between(a: int, b: int): (s: set<int>)
    ensures forall x :: x in s <==> a <= x < b
    decreases b - a
  {
    if a >= b then {} else {a} + Between(a + 1, b)
  }

  /** Dividing one range twice loses bytes. For every stream that leaves in one range, every base
      budget and every larger raised budget that both divide it, there is a run that completes, with
      the receive entry in place, without the bytes between the two cuts. Its budgets are the large
      one, the base, the raised one twice, and a last one, again large, at most twice. */
  lemma DividingTwiceLosesBytes(id: nat, window: nat, data: seq<byte>, big: nat, base: int, raised: int, last: int)
      returns (events: seq<Event>, k: nat)
    requires Divide(id, data, big, base, raised) && window >= |data| && last >= |data| + 28
    ensures LosesBetween(Exec(Init(id, window, false), events), |data|, Cut(id, data, base), Cut(id, data, raised))
    ensures k <= 2 && Budgets(events) == [big, base, raised, raised] + Repeated(k, last)
  {
    var n, m := Cut(id, data, base), Cut(id, data, raised);
    var p0 := Init(id, window, false);
    var script := PlayScript(id, window, data, big, base, raised, n, m);
    var p := Exec(p0, script);
    RunIsRegular(id, window, false, script);
    var rest := WalledBytesAreLost(p, n, m, Between(n, m), last);
    k := |p.snd.retransmit|;
    Join(p0, script, rest);
    events := script + rest;
  }

  /** The tracker and the stream together. For any bounds of the estimate that leave some room, and
      every stream whose size lies between the raised estimate and the last one, there are a run of
      the tracker, whose estimate rises, falls once and rises twice, and a run of the stream, whose
      budgets are those estimates in this order, that completes without the bytes between the cuts. */
  lemma TrackedBudgetsLoseBytes(id: nat, window: nat, data: seq<byte>, min: nat, max: nat, period: int)
      returns (up: seq<MtuTrackers.Event>, down: seq<MtuTrackers.Event>, again: seq<MtuTrackers.Event>,
               more: seq<MtuTrackers.Event>, events: seq<Event>, k: nat)
    requires 60 <= min && min + 8 <= max && window >= |data| && |data| <= Varints.MAX_VARINT
    requires SizeBetween(id, |data|, (min + max + 2) / 2, (min + (min + max + 2) / 2 + 1) / 2)
    ensures var w1 := MtuTrackers.Exec(MtuTrackers.Init(min, max, period), up);
            var w2 := MtuTrackers.Exec(w1, down);
            var w3 := MtuTrackers.Exec(w2, again);
            var w4 := MtuTrackers.Exec(w3, more);
            var base, raised := w2.t.mtu - FIXED_OVERHEAD, w3.t.mtu - FIXED_OVERHEAD;
            && w2.t.mtu == min && w1.t.mtu > w4.t.mtu > w3.t.mtu > min
            && Budgets(events) == [w1.t.mtu - FIXED_OVERHEAD, base, raised, raised] + Repeated(k, w4.t.mtu - FIXED_OVERHEAD)
            && LosesBetween(Exec(Init(id, window, false), events), |data|, Cut(id, data, base), Cut(id, data, raised))
  {
    var high := (min + max + 2) / 2;
    var mid := (min + high + 1) / 2;
    var last := (high + mid + 1) / 2;
    up, down, again, more := MtuTrackers.EstimateFallsAndRises(min, max, period);
    EstimatesDivide(id, data, high, min, mid);
    events, k := DividingTwiceLosesBytes(id, window, data, high - FIXED_OVERHEAD, min - FIXED_OVERHEAD, mid - FIXED_OVERHEAD,
                                         last - FIXED_OVERHEAD);
  }

  /** A stream of this size does not fit one packet at the raised estimate, and does at the last one. */
  predicate SizeBetween(id: nat, len: nat, high: nat, mid: nat) {
    mid - FIXED_OVERHEAD < HeaderSize(id, 0, len) + len && len + 28 + FIXED_OVERHEAD <= (high + mid + 1) / 2
  }

  /** Such a size exists exactly when the largest one that fits the last estimate for certain does not
      fit the raised one. */
  lemma SizesExistExactly(id: nat, min: nat, max: nat)
    requires 60 <= min && min + 8 <= max <= Varints.MAX_VARINT
    ensures var high := (min + max + 2) / 2;
            var mid := (min + high + 1) / 2;
            var last := (high + mid + 1) / 2;
            && last > 58
            && ((exists len: nat :: SizeBetween(id, len, high, mid)) <==> mid + 28 < last + HeaderSize(id, 0, last - 58))
  {
    var high := (min + max + 2) / 2;
    var mid := (min + high + 1) / 2;
    var last := (high + mid + 1) / 2;
    if mid + 28 < last + HeaderSize(id, 0, last - 58) {
      assert SizeBetween(id, last - 58, high, mid);
    }
    if len: nat :| SizeBetween(id, len, high, mid) {
      LongerHeader(id, len, last - 58);
    }
  }

  lemma LongerHeader(id: nat, len: nat, len': nat)
    requires len <= len' <= Varints.MAX_VARINT
    ensures HeaderSize(id, 0, len) <= HeaderSize(id, 0, len')
  {
  }

  /** Two hundred bytes between the bounds suffice. */
  lemma WideBoundsLeaveRoom(id: nat, min: nat, max: nat) returns (len: nat)
    requires 60 <= min && min + 200 <= max <= Varints.MAX_VARINT
    ensures SizeBetween(id, len, (min + max + 2) / 2, (min + (min + max + 2) / 2 + 1) / 2)
  {
    SizesExistExactly(id, min, max);
    len := ((min + max + 2) / 2 + (min + (min + max + 2) / 2 + 1) / 2 + 1) / 2 - 58;
  }

  ghost predicate LosesBetween(p: Pair, len: nat, from: int, to: int) {
    && p.routed && p.snd.Completed() && p.snd.offset == len && 0 < from < to < len
    && forall x :: from <= x < to ==> !Has(p, x)
  }

  lemma EstimatesDivide(id: nat, data: seq<byte>, high: nat, min: nat, mid: nat)
    requires 60 <= min < mid < high && SizeBetween(id, |data|, high, mid) && |data| <= Varints.MAX_VARINT
    ensures Divide(id, data, high - FIXED_OVERHEAD, min - FIXED_OVERHEAD, mid - FIXED_OVERHEAD)
    ensures (high + mid + 1) / 2 - FIXED_OVERHEAD >= |data| + 28
  {
    SmallHeader(id, |data|);
    SmallHeader(id, high - FIXED_OVERHEAD);
  }

  lemma SmallHeader(id: nat, len: nat)
    ensures HeaderSize(id, 0, len) <= 20
  {
  }
}
