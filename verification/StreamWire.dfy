/** The STREAM packet: its bytes (StreamPacket in trsf/wire/stream.go), how trsf/conn.go fills it
    from a range, and how handlePacket reads it back. */
module StreamWire {
  import opened Common
  import opened TriggerQueues
  import opened SendStreams
  import opened Varints

  const STREAM_DATA: byte := 3

  datatype StreamPacket = StreamPacket(id: Option<Varint>, offset: Option<Varint>, isEof: bool, isProbe: bool, data: seq<byte>)

  function Bit(b: bool, weight: nat): nat { if b then weight else 0 }

  function Flags(p: StreamPacket): nat {
    Bit(p.id.Some?, 128) + Bit(p.offset.Some?, 64) + Bit(p.isEof, 32) + Bit(p.isProbe, 16)
  }

  function OptionBytes(v: Option<Varint>): seq<byte>
    requires v.Some? ==> v.value.prefix < 4
  {
    match v case Some(x) => AppendVarint(x) case None => []
  }

  /** StreamPacket.Append onto a buffer. */
  function AppendPacket(buf: seq<byte>, p: StreamPacket): seq<byte>
    requires p.id.Some? ==> p.id.value.prefix < 4
    requires p.offset.Some? ==> p.offset.value.prefix < 4
  {
    buf + ([Flags(p) as byte] + (OptionBytes(p.id) + (OptionBytes(p.offset) + p.data)))
  }

  datatype OptionDecoded = Bad | Good(v: Option<Varint>, rest: seq<byte>)

  function DecodeOption(present: bool, bs: seq<byte>): OptionDecoded {
    if !present then Good(None, bs)
    else
      match DecodeVarint(bs)
      case None => Bad
      case Some(d) => Good(Some(d.v), d.rest)
  }

  /** StreamPacket.DecodeSlice. */
  function DecodePacket(bs: seq<byte>): Option<StreamPacket> {
    if bs == [] then None
    else
      var flags := bs[0] as nat;
      match DecodeOption(flags / 128 % 2 == 1, bs[1..])
      case Bad => None
      case Good(id, afterId) =>
        match DecodeOption(flags / 64 % 2 == 1, afterId)
        case Bad => None
        case Good(offset, data) => Some(StreamPacket(id, offset, flags / 32 % 2 == 1, flags / 16 % 2 == 1, data))
  }

  /** The packet conn.go builds for a range; zero id and zero offset are left out, and an id or
      offset above the varint limit is an encoding error. */
  function PacketFor(id: nat, x: SentRange): Option<StreamPacket> {
    var encodedId := EncodeVarint(id);
    var encodedOffset := EncodeVarint(x.offset);
    if (id != 0 && encodedId.None?) || (x.offset != 0 && encodedOffset.None?) then None
    else Some(StreamPacket(if id != 0 then encodedId else None,
                           if x.offset != 0 then encodedOffset else None,
                           x.eof, false, x.data))
  }

  function Encode(id: nat, x: SentRange): Option<seq<byte>> {
    match PacketFor(id, x)
    case None => None
    case Some(p) => Some(AppendPacket([STREAM_DATA], p))
  }

  function ValueOr0(v: Option<Varint>): nat { match v case Some(x) => x.Value() case None => 0 }

  /** Every range whose id and offset can be encoded arrives as it was sent, and only those
      are put on the wire. */
  lemma StreamPacketRoundTrip(id: nat, x: SentRange)
    ensures Encode(id, x).Some? <==> id <= MAX_VARINT && x.offset <= MAX_VARINT
    ensures Encode(id, x).Some? ==>
              var bs := Encode(id, x).value;
              && bs[0] == STREAM_DATA
              && var p := DecodePacket(bs[1..]);
                 && p.Some? && !p.value.isProbe
                 && ValueOr0(p.value.id) == id && ValueOr0(p.value.offset) == x.offset
                 && p.value.data == x.data && p.value.isEof == x.eof
  {
    if Encode(id, x).Some? {
      var p := PacketFor(id, x).value;
      PacketRoundTrip([STREAM_DATA], p);
    }
  }

  /** Decoding what Append wrote after a prefix gives the packet back. */
  lemma PacketRoundTrip(buf: seq<byte>, p: StreamPacket)
    requires (p.id.Some? ==> Fits(p.id.value)) && (p.offset.Some? ==> Fits(p.offset.value))
    ensures AppendPacket(buf, p)[..|buf|] == buf
    ensures DecodePacket(AppendPacket(buf, p)[|buf|..]) == Some(p)
  {
    var tail := OptionBytes(p.offset) + p.data;
    var bs := [Flags(p) as byte] + (OptionBytes(p.id) + tail);
    assert AppendPacket(buf, p)[|buf|..] == bs;
    assert bs[1..] == OptionBytes(p.id) + tail;
    OptionRoundTrip(p.id, tail);
    OptionRoundTrip(p.offset, p.data);
    FlagsRoundTrip(p);
  }

  lemma FlagsRoundTrip(p: StreamPacket)
    ensures Flags(p) < 256
    ensures (Flags(p) / 128 % 2 == 1) == p.id.Some? && (Flags(p) / 64 % 2 == 1) == p.offset.Some?
    ensures (Flags(p) / 32 % 2 == 1) == p.isEof && (Flags(p) / 16 % 2 == 1) == p.isProbe
  {
  }

  lemma OptionRoundTrip(v: Option<Varint>, rest: seq<byte>)
    requires v.Some? ==> Fits(v.value)
    ensures DecodeOption(v.Some?, OptionBytes(v) + rest) == Good(v, rest)
  {
    match v
    case Some(x) => VarintRoundTrip(x, rest);
    case None => assert [] + rest == rest;
  }

  /** The bytes a range takes on the wire: kind, flags, id, offset and data. The header that the budget
      reserves for a range of known length is two bytes longer. */
  lemma EncodedLength(id: nat, x: SentRange)
    requires id <= MAX_VARINT && x.offset <= MAX_VARINT
    ensures Encode(id, x).Some?
    ensures |Encode(id, x).value| + 2 == HeaderSize(id, x.offset, 0) + |x.data|
  {
  }

  /** Every packet triggerPacket hands over fits the budget it was given, whether it carries new
      data, a retransmission or the head of a divided range. */
  lemma EmittedPacketFits(s: Sender, maxPayload: int)
    requires Trigger(s, maxPayload).out.Some? && s.id <= MAX_VARINT
    requires Trigger(s, maxPayload).out.value.offset <= MAX_VARINT
    ensures var bs := Encode(s.id, Trigger(s, maxPayload).out.value); bs.Some? && |bs.value| <= maxPayload
  {
    var x := Trigger(s, maxPayload).out.value;
    EncodedLength(s.id, x);
    RangeFits(s, maxPayload);
  }

  lemma RangeFits(s: Sender, maxPayload: int)
    requires Trigger(s, maxPayload).out.Some?
    ensures var x := Trigger(s, maxPayload).out.value; HeaderSize(s.id, x.offset, 0) + |x.data| <= maxPayload
  {
    if s.retransmit != [] && !Divides(s, maxPayload) {
      var src := s.retransmit[0];
      if HeaderSize(s.id, src.offset, |src.data|) + |src.data| > maxPayload {
        FreshRangeFits(s.(retransmit := Pushed(s.retransmit[1..], src)), maxPayload);
      }
    } else if s.retransmit == [] {
      FreshRangeFits(s, maxPayload);
    }
  }

  lemma FreshRangeFits(s: Sender, maxPayload: int)
    requires Fresh(s, maxPayload).out.Some?
    ensures var x := Fresh(s, maxPayload).out.value; HeaderSize(s.id, x.offset, 0) + |x.data| <= maxPayload
  {
  }

  // ---------------------------------------------------------------- draining one range

  /** Calls of triggerPacket at one budget until the queued range has left. */
  function Drained(s: Sender, maxPayload: int): seq<SentRange>
    requires |s.retransmit| == 1 && maxPayload >= 30
    decreases |s.retransmit[0].data|
  {
    if Divides(s, maxPayload) then
      [Trigger(s, maxPayload).out.value] + Drained(Trigger(s, maxPayload).s, maxPayload)
    else match Trigger(s, maxPayload).out case Some(x) => [x] case None => []
  }

  function AfterDrain(s: Sender, maxPayload: int): Sender
    requires |s.retransmit| == 1 && maxPayload >= 30
    decreases |s.retransmit[0].data|
  {
    if Divides(s, maxPayload) then AfterDrain(Trigger(s, maxPayload).s, maxPayload)
    else Trigger(s, maxPayload).s
  }

  function Joined(fragments: seq<SentRange>): seq<byte> {
    if fragments == [] then [] else fragments[0].data + Joined(fragments[1..])
  }

  /** Consecutive, non-empty, EOF on the last only. */
  ghost predicate Chain(fragments: seq<SentRange>, offset: nat, end: nat, eof: bool) {
    && fragments != []
    && fragments[0].offset == offset
    && fragments[|fragments| - 1].End() == end && fragments[|fragments| - 1].eof == eof
    && (forall i :: 0 <= i < |fragments| - 1 ==>
          !fragments[i].eof && fragments[i].data != [] && fragments[i].End() == fragments[i + 1].offset)
  }

  /** At a budget with room for any header, a queued range leaves in finitely many pieces that
      are consecutive, non-empty and join to it, with EOF on the last; the flow window is not
      charged again, and every piece fits. */
  lemma {:induction false} DrainSplitsExactly(s: Sender, maxPayload: int)
    requires |s.retransmit| == 1 && maxPayload >= 30
    ensures var src := s.retransmit[0];
            var f := Drained(s, maxPayload);
            && Chain(f, src.offset, src.End(), src.eof) && Joined(f) == src.data
            && (src.data != [] ==> f[|f| - 1].data != [])
            && (forall i :: 0 <= i < |f| ==> HeaderSize(s.id, f[i].offset, 0) + |f[i].data| <= maxPayload)
    ensures var s' := AfterDrain(s, maxPayload);
            s'.retransmit == [] && s'.window == s.window && s'.sentSize == s.sentSize && s'.offset == s.offset
    decreases |s.retransmit[0].data|
  {
    var src := s.retransmit[0];
    if Divides(s, maxPayload) {
      RangeFits(s, maxPayload);
      DrainStep(s, maxPayload);
      var t := Trigger(s, maxPayload);
      DrainSplitsExactly(t.s, maxPayload);
      var head, rest := t.out.value, Drained(t.s, maxPayload);
      assert ([head] + rest)[1..] == rest;
      ChainGrows(head, rest, src.End(), src.eof);
    } else {
      assert Trigger(s, maxPayload).out == Some(src);
      assert [src][1..] == [];
      assert src.data + [] == src.data;
    }
  }

  lemma DrainStep(s: Sender, maxPayload: int)
    requires |s.retransmit| == 1 && Divides(s, maxPayload)
    ensures var src, t := s.retransmit[0], Trigger(s, maxPayload);
            && t.out.Some? && t.out.value.offset == src.offset && !t.out.value.eof && t.out.value.data != []
            && t.s.id == s.id && t.s.window == s.window && t.s.sentSize == s.sentSize && t.s.offset == s.offset
            && |t.s.retransmit| == 1
            && var tail := t.s.retransmit[0];
               && tail.offset == t.out.value.End() && tail.End() == src.End() && tail.eof == src.eof
               && tail.data != [] && t.out.value.data + tail.data == src.data
  {
  }

  lemma ChainGrows(head: SentRange, rest: seq<SentRange>, end: nat, eof: bool)
    requires Chain(rest, head.End(), end, eof) && !head.eof && head.data != []
    ensures Chain([head] + rest, head.offset, end, eof)
  {
  }
}
