/** ACK packets: trsf/wire.go, and StreamACKPacket and ACKRange in trsf/wire/stream.go. All
    arithmetic on packet numbers is modulo 2^64, as in the program. */
module AckWire {
  import opened Common
  import opened Varints

  const TWO64: nat := 0x1_0000_0000_0000_0000

  type u64 = x: nat | x < 0x1_0000_0000_0000_0000

  /** Subtraction that wraps. */
  function Sub64(a: u64, b: u64): u64 { if a >= b then a - b else a + TWO64 - b }

  /** Half-open, as in trsf/pn_track.go. */
  datatype Range = Range(begin: u64, end: u64)

  predicate Holds(r: Range, x: int) { r.begin <= x < r.end }

  ghost predicate Names(rs: seq<Range>, x: int) {
    exists i :: 0 <= i < |rs| && Holds(rs[i], x)
  }

  datatype ACKRange = ACKRange(offset: Varint, delta: Varint)

  datatype ACKPacket = ACKPacket(largestAck: Varint, ackDelay: Varint, firstDelta: Varint, len: Varint, ranges: seq<ACKRange>)

  // ---------------------------------------------------------------- building

  function Encoded(v: nat): Varint { match EncodeVarint(v) case Some(x) => x case None => ZERO }

  /** The gap below `above` and the length of `r`, each less what the format implies. */
  function WireGap(above: Range, r: Range): u64 { Sub64(Sub64(above.begin, r.end), 2) }

  function WireLength(r: Range): u64 { Sub64(Sub64(r.end, r.begin), 1) }

  /** The ranges below the last one, highest first. */
  function WireRanges(rs: seq<Range>): seq<ACKRange> {
    if |rs| <= 1 then []
    else
      [WireRange(rs[|rs| - 1], rs[|rs| - 2])] + WireRanges(rs[..|rs| - 1])
  }

  /** Non-empty ascending ranges with gaps of at least two, ending within the varint limit. */
  ghost predicate Encodable(rs: seq<Range>) {
    && rs != [] && rs[|rs| - 1].end <= MAX_VARINT
    && (forall i :: 0 <= i < |rs| ==> rs[i].begin < rs[i].end)
    && (forall i, j :: 0 <= i < j < |rs| ==> rs[i].end + 2 <= rs[j].begin)
  }

  /** Whole microseconds of a delay in nanoseconds; a negative delay counts as none. */
  function Microseconds(delay: int): nat { if delay < 0 then 0 else delay / 1000 }

  function AckFor(rs: seq<Range>, delay: int): ACKPacket
    requires rs != []
  {
    var last := rs[|rs| - 1];
    ACKPacket(Encoded(last.end), Encoded(Microseconds(delay)), Encoded(WireLength(last)), ZERO, WireRanges(rs))
  }

  function WireRange(above: Range, r: Range): ACKRange {
    ACKRange(Encoded(WireGap(above, r)), Encoded(WireLength(r)))
  }

  /** One turn of TransferACK's loop. The gap field wraps, and so does not encode, when the gap
      is one. */
  method EncodeRange(above: Range, r: Range) returns (w: Option<ACKRange>)
    ensures w.Some? <==> r.begin < r.end && r.end + 2 <= above.begin
                         && above.begin - r.end - 2 <= MAX_VARINT && r.end - r.begin - 1 <= MAX_VARINT
    ensures w.Some? ==> w.value == WireRange(above, r)
  {
    if above.begin <= r.end {
      return None;
    }
    if r.end <= r.begin {
      return None;
    }
    var offset := EncodeVarint(Sub64(Sub64(above.begin, r.end), 2));
    if offset.None? {
      return None;
    }
    var delta := EncodeVarint(Sub64(Sub64(r.end, r.begin), 1));
    if delta.None? {
      return None;
    }
    w := Some(ACKRange(offset.value, delta.value));
  }

  /** The upper part of the list is in order. */
  ghost predicate InOrderFrom(rs: seq<Range>, k: nat) {
    && (forall i :: k <= i < |rs| ==> rs[i].begin < rs[i].end)
    && (forall i, j :: k <= i < j < |rs| ==> rs[i].end + 2 <= rs[j].begin)
  }

  /** TransferACK's loop, from the highest range down. */
  method EncodeBelow(rs: seq<Range>) returns (r: Option<seq<ACKRange>>)
    requires rs != [] && rs[|rs| - 1].begin < rs[|rs| - 1].end
    ensures r.Some? ==> r.value == WireRanges(rs) && InOrderFrom(rs, 0)
    ensures r.None? ==> !Encodable(rs)
  {
    var wireRanges := [];
    assert rs[..|rs|] == rs;
    var k: nat := |rs| - 1;
    ghost var all := WireRanges(rs);
    while k > 0
      invariant 0 <= k < |rs|
      invariant wireRanges + WireRanges(rs[..k + 1]) == all
      invariant InOrderFrom(rs, k)
    {
      var w := EncodeRange(rs[k], rs[k - 1]);
      if w.None? {
        BadPair(rs, k - 1);
        return None;
      }
      InOrderStep(rs, k);
      WireRangesStep(rs, k, wireRanges);
      wireRanges := wireRanges + [w.value];
      k := k - 1;
    }
    r := Some(wireRanges);
  }

  /** TransferACK succeeds exactly on encodable lists. It leaves Len at its zero value. */
  method TransferACK(rs: seq<Range>, delay: int) returns (r: Option<ACKPacket>)
    requires -0x8000_0000_0000_0000 <= delay < 0x8000_0000_0000_0000
    ensures r.Some? <==> Encodable(rs)
    ensures r.Some? ==> r.value == AckFor(rs, delay)
  {
    if |rs| == 0 {
      return None;
    }
    var last := rs[|rs| - 1];
    if last.end <= last.begin {
      return None;
    }
    var wireRanges := EncodeBelow(rs);
    if wireRanges.None? {
      return None;
    }
    var endWire := EncodeVarint(last.end);
    if endWire.None? {
      return None;
    }
    // The length of the last range and the delay are below its end and 2^62: these two encode.
    var firstWire := EncodeVarint(Sub64(Sub64(last.end, last.begin), 1));
    var delayWire := EncodeVarint((if delay < 0 then 0 else delay) / 1000);
    assert firstWire.Some? && delayWire.Some?;
    r := Some(ACKPacket(endWire.value, delayWire.value, firstWire.value, ZERO, wireRanges.value));
  }

  lemma BadPair(rs: seq<Range>, i: nat)
    requires i + 1 < |rs|
    requires var r, above := rs[i], rs[i + 1];
             !(r.begin < r.end && r.end + 2 <= above.begin
               && above.begin - r.end - 2 <= MAX_VARINT && r.end - r.begin - 1 <= MAX_VARINT)
    ensures !Encodable(rs)
  {
  }

  lemma InOrderStep(rs: seq<Range>, k: nat)
    requires 0 < k < |rs| && InOrderFrom(rs, k)
    requires rs[k - 1].begin < rs[k - 1].end && rs[k - 1].end + 2 <= rs[k].begin
    ensures InOrderFrom(rs, k - 1)
  {
  }

  lemma WireRangesStep(rs: seq<Range>, k: nat, got: seq<ACKRange>)
    requires 0 < k < |rs|
    ensures got + [WireRange(rs[k], rs[k - 1])] + WireRanges(rs[..k]) == got + WireRanges(rs[..k + 1])
  {
    assert rs[..k + 1][..k] == rs[..k];
  }

  lemma EndsAreBounded(rs: seq<Range>)
    ensures Encodable(rs) ==> forall i :: 0 <= i < |rs| ==> rs[i].begin < rs[i].end <= MAX_VARINT
  {
  }

  // ---------------------------------------------------------------- parsing

  /** The two numbers of an ACKRange. */
  datatype Gap = Gap(offset: u64, delta: u64)

  ghost predicate WireOk(wire: seq<ACKRange>) {
    forall i :: 0 <= i < |wire| ==> wire[i].offset.Ok() && wire[i].delta.Ok()
  }

  function Numbers(wire: seq<ACKRange>): seq<Gap>
    requires WireOk(wire)
  {
    if wire == [] then []
    else [Gap(wire[0].offset.Value(), wire[0].delta.Value())] + Numbers(wire[1..])
  }

  /** The ranges below `begin`, in ascending order; the wire lists them highest first. */
  function Below(begin: u64, gaps: seq<Gap>): seq<Range>
    decreases |gaps|
  {
    if gaps == [] then []
    else
      var end := Sub64(Sub64(begin, gaps[0].offset), 2);
      var next := Sub64(Sub64(end, gaps[0].delta), 1);
      Below(next, gaps[1..]) + [Range(next, end)]
  }

  function ParsedRanges(end: u64, firstDelta: u64, gaps: seq<Gap>): seq<Range> {
    var begin := Sub64(Sub64(end, firstDelta), 1);
    Below(begin, gaps) + [Range(begin, end)]
  }

  /** decodeRanges. The program appends and reverses at the end; here each range goes in front. */
  method DecodeRanges(end: u64, firstDelta: u64, gaps: seq<Gap>) returns (result: seq<Range>)
    ensures result == ParsedRanges(end, firstDelta, gaps) && |result| == |gaps| + 1
  {
    var begin := Sub64(Sub64(end, firstDelta), 1);
    result := [Range(begin, end)];
    var current: u64 := begin;
    var i := 0;
    while i < |gaps|
      invariant 0 <= i <= |gaps| && |result| == i + 1
      invariant Below(current, gaps[i..]) + result == Below(begin, gaps) + [Range(begin, end)]
    {
      var e := Sub64(Sub64(current, gaps[i].offset), 2);
      var b := Sub64(Sub64(e, gaps[i].delta), 1);
      assert gaps[i..][1..] == gaps[i + 1..];
      result := [Range(b, e)] + result;
      current := b;
      i := i + 1;
    }
  }

  ghost predicate FieldsOk(p: ACKPacket) {
    && p.largestAck.Ok() && p.firstDelta.Ok() && p.ackDelay.Ok()
    && WireOk(p.ranges)
  }

  /** What ParseTransferACK returns: the ranges and the delay in nanoseconds. */
  ghost function ParsedAck(p: ACKPacket): (seq<Range>, nat)
    requires FieldsOk(p)
  {
    (ParsedRanges(p.largestAck.Value(), p.firstDelta.Value(), Numbers(p.ranges)), p.ackDelay.Value() * 1000)
  }

  /** The numbers TransferACK puts on the wire for the ranges below the last. */
  ghost function Gaps(rs: seq<Range>): seq<Gap> {
    if |rs| <= 1 then []
    else [Gap(WireGap(rs[|rs| - 1], rs[|rs| - 2]), WireLength(rs[|rs| - 2]))] + Gaps(rs[..|rs| - 1])
  }

  lemma EncodedKeeps(v: nat)
    requires v <= MAX_VARINT
    ensures Encoded(v).Ok() && Encoded(v).Value() == v && Fits(Encoded(v))
  {
  }

  lemma {:induction false} NumbersAreGaps(rs: seq<Range>)
    requires Encodable(rs)
    ensures WireOk(WireRanges(rs))
    ensures Numbers(WireRanges(rs)) == Gaps(rs)
    decreases |rs|
  {
    if |rs| > 1 {
      EndsAreBounded(rs);
      var front := rs[..|rs| - 1];
      NumbersAreGaps(front);
      EncodedKeeps(WireGap(rs[|rs| - 1], rs[|rs| - 2]));
      EncodedKeeps(WireLength(rs[|rs| - 2]));
      assert WireRanges(rs)[1..] == WireRanges(front);
    }
  }

  lemma BelowStep(above: Range, r: Range, gaps: seq<Gap>)
    requires r.begin < r.end && r.end + 2 <= above.begin
    ensures Below(above.begin, [Gap(WireGap(above, r), WireLength(r))] + gaps) == Below(r.begin, gaps) + [r]
  {
  }

  lemma {:induction false} BelowInverts(rs: seq<Range>)
    requires Encodable(rs)
    ensures Below(rs[|rs| - 1].begin, Gaps(rs)) == rs[..|rs| - 1]
    decreases |rs|
  {
    if |rs| > 1 {
      var front := rs[..|rs| - 1];
      BelowInverts(front);
      BelowStep(rs[|rs| - 1], rs[|rs| - 2], Gaps(front));
    }
  }

  lemma ParsedInverts(rs: seq<Range>)
    requires Encodable(rs)
    ensures ParsedRanges(rs[|rs| - 1].end, WireLength(rs[|rs| - 1]), Gaps(rs)) == rs
  {
    var last := rs[|rs| - 1];
    BelowInverts(rs);
    assert Sub64(Sub64(last.end, WireLength(last)), 1) == last.begin;
    assert rs[..|rs| - 1] + [last] == rs;
  }

  lemma DelayInverts(delay: int)
    requires delay < 0x8000_0000_0000_0000
    ensures Encoded(Microseconds(delay)).Ok()
    ensures Encoded(Microseconds(delay)).Value() * 1000 == if delay < 0 then 0 else delay - delay % 1000
  {
  }

  /** Parsing what TransferACK built gives back the ranges, and the delay in whole microseconds. */
  lemma AckRoundTrip(rs: seq<Range>, delay: int)
    requires Encodable(rs) && delay < 0x8000_0000_0000_0000
    ensures var p := AckFor(rs, delay);
            FieldsOk(p) && ParsedAck(p) == (rs, if delay < 0 then 0 else delay - delay % 1000)
  {
    var last := rs[|rs| - 1];
    EndsAreBounded(rs);
    EncodedKeeps(last.end);
    EncodedKeeps(WireLength(last));
    DelayInverts(delay);
    NumbersAreGaps(rs);
    ParsedInverts(rs);
  }

  // ---------------------------------------------------------------- bytes

  /** A codec for one item: what it writes in front of a tail, and what it reads off a buffer. */
  type Writer<!T> = (T, seq<byte>) -> seq<byte>

  type Reader<!T> = seq<byte> -> Option<(T, seq<byte>)>

  ghost predicate Inverse<T(!new)>(w: Writer<T>, r: Reader<T>, x: T) {
    forall tail :: r(w(x, tail)) == Some((x, tail))
  }

  function WriteAll<T>(w: Writer<T>, xs: seq<T>): seq<byte> {
    if xs == [] then [] else w(xs[0], WriteAll(w, xs[1..]))
  }

  function ReadAll<T>(r: Reader<T>, n: nat, bs: seq<byte>): Option<seq<T>> {
    if n == 0 then Some([])
    else
      match r(bs)
      case None => None
      case Some((x, rest)) =>
        match ReadAll(r, n - 1, rest)
        case None => None
        case Some(xs) => Some([x] + xs)
  }

  lemma {:induction false} ReadsWhatWasWritten<T(!new)>(w: Writer<T>, r: Reader<T>, xs: seq<T>)
    requires forall i :: 0 <= i < |xs| ==> Inverse(w, r, xs[i])
    ensures ReadAll(r, |xs|, WriteAll(w, xs)) == Some(xs)
  {
    if xs != [] {
      ReadsWhatWasWritten(w, r, xs[1..]);
      var tail := WriteAll(w, xs[1..]);
      assert Inverse(w, r, xs[0]);
      assert r(w(xs[0], tail)) == Some((xs[0], tail));
      assert xs == [xs[0]] + xs[1..];
    }
  }

  function WriteVarint(v: Varint, tail: seq<byte>): seq<byte> { AppendVarint(v) + tail }

  /** ACKRange.Append and DecodeSlice. */
  function WriteRange(r: ACKRange, tail: seq<byte>): seq<byte> {
    WriteVarint(r.offset, WriteVarint(r.delta, tail))
  }

  function ReadRange(bs: seq<byte>): Option<(ACKRange, seq<byte>)> {
    match DecodeVarint(bs)
    case None => None
    case Some(o) =>
      match DecodeVarint(o.rest)
      case None => None
      case Some(d) => Some((ACKRange(o.v, d.v), d.rest))
  }

  /** The four varints that open the packet. */
  datatype Head = Head(largestAck: Varint, ackDelay: Varint, firstDelta: Varint, len: Varint)

  function WriteHead(h: Head, tail: seq<byte>): seq<byte> {
    WriteVarint(h.largestAck, WriteVarint(h.ackDelay, WriteVarint(h.firstDelta, WriteVarint(h.len, tail))))
  }

  function ReadHead(bs: seq<byte>): Option<(Head, seq<byte>)> {
    match DecodeVarint(bs)
    case None => None
    case Some(largest) =>
      match DecodeVarint(largest.rest)
      case None => None
      case Some(delay) =>
        match DecodeVarint(delay.rest)
        case None => None
        case Some(first) =>
          match DecodeVarint(first.rest)
          case None => None
          case Some(len) => Some((Head(largest.v, delay.v, first.v, len.v), len.rest))
  }

  function HeadOf(p: ACKPacket): Head { Head(p.largestAck, p.ackDelay, p.firstDelta, p.len) }

  /** StreamACKPacket.Append: refused when Len does not match the number of ranges. */
  function AppendAck(p: ACKPacket): Option<seq<byte>> {
    if |p.ranges| != p.len.Value() then None
    else Some(WriteHead(HeadOf(p), WriteAll(WriteRange, p.ranges)))
  }

  /** StreamACKPacket.DecodeSlice. */
  function DecodeAck(bs: seq<byte>): Option<ACKPacket> {
    match ReadHead(bs)
    case None => None
    case Some((h, rest)) =>
      match ReadAll(ReadRange, h.len.Value(), rest)
      case None => None
      case Some(rs) => Some(ACKPacket(h.largestAck, h.ackDelay, h.firstDelta, h.len, rs))
  }

  ghost predicate RangesFit(rs: seq<ACKRange>) {
    forall i :: 0 <= i < |rs| ==> Fits(rs[i].offset) && Fits(rs[i].delta)
  }

  ghost predicate PacketFits(p: ACKPacket) {
    Fits(p.largestAck) && Fits(p.ackDelay) && Fits(p.firstDelta) && Fits(p.len) && RangesFit(p.ranges)
  }

  lemma RangeRoundTrip(r: ACKRange, tail: seq<byte>)
    requires Fits(r.offset) && Fits(r.delta)
    ensures ReadRange(WriteRange(r, tail)) == Some((r, tail))
  {
    VarintRoundTrip(r.delta, tail);
    VarintRoundTrip(r.offset, WriteVarint(r.delta, tail));
  }

  lemma HeadRoundTrip(h: Head, tail: seq<byte>)
    requires Fits(h.largestAck) && Fits(h.ackDelay) && Fits(h.firstDelta) && Fits(h.len)
    ensures ReadHead(WriteHead(h, tail)) == Some((h, tail))
  {
    var a := WriteVarint(h.len, tail);
    var b := WriteVarint(h.firstDelta, a);
    VarintRoundTrip(h.len, tail);
    VarintRoundTrip(h.firstDelta, a);
    VarintRoundTrip(h.ackDelay, b);
    VarintRoundTrip(h.largestAck, WriteVarint(h.ackDelay, b));
  }

  lemma RangesRoundTrip(rs: seq<ACKRange>)
    requires RangesFit(rs)
    ensures ReadAll(ReadRange, |rs|, WriteAll(WriteRange, rs)) == Some(rs)
  {
    forall i | 0 <= i < |rs| ensures Inverse(WriteRange, ReadRange, rs[i]) {
      forall tail ensures ReadRange(WriteRange(rs[i], tail)) == Some((rs[i], tail)) {
        RangeRoundTrip(rs[i], tail);
      }
    }
    ReadsWhatWasWritten(WriteRange, ReadRange, rs);
  }

  /** Decoding inverts encoding for every packet the encoder accepts. */
  lemma AckBytesRoundTrip(p: ACKPacket)
    requires PacketFits(p) && AppendAck(p).Some?
    ensures DecodeAck(AppendAck(p).value) == Some(p)
  {
    HeadRoundTrip(HeadOf(p), WriteAll(WriteRange, p.ranges));
    RangesRoundTrip(p.ranges);
  }

  lemma {:induction false} WireRangesFit(rs: seq<Range>)
    ensures RangesFit(WireRanges(rs)) && (rs != [] ==> |WireRanges(rs)| == |rs| - 1)
    decreases |rs|
  {
    if |rs| > 1 {
      WireRangesFit(rs[..|rs| - 1]);
    }
  }

  /** The ACK bytes of the run loop: TransferACK, then Append. */
  method EncodeAck(rs: seq<Range>, delay: int) returns (r: Option<seq<byte>>)
    requires -0x8000_0000_0000_0000 <= delay < 0x8000_0000_0000_0000
    ensures r.Some? <==> |rs| == 1 && Encodable(rs)
    ensures r.Some? ==>
              var p := DecodeAck(r.value);
              && p.Some? && FieldsOk(p.value)
              && ParsedAck(p.value) == (rs, if delay < 0 then 0 else delay - delay % 1000)
  {
    var p := TransferACK(rs, delay);
    if p.None? {
      return None;
    }
    WireRangesFit(rs);
    r := AppendAck(p.value);
    if r.Some? {
      AckBytesRoundTrip(p.value);
      AckRoundTrip(rs, delay);
    }
  }
}
