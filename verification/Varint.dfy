/** Variable-length integers: section 16 of RFC 9000, trsf/wire/varint.go and the Varint part of
    trsf/wire/stream.go. */
module Varints {
  import opened Common

  const MAX_VARINT: nat := 0x3fff_ffff_ffff_ffff

  /** VarintLen: zero for a value that does not fit. */
  function VarintLen(v: nat): (n: nat)
    ensures n <= 8
    ensures n == 0 <==> v > MAX_VARINT
  {
    if v <= 63 then 1
    else if v <= 16383 then 2
    else if v <= 1073741823 then 4
    else if v <= MAX_VARINT then 8
    else 0
  }

  /** The 64-bit word of the program: a two-bit prefix and a 62-bit field. */
  datatype Varint = Varint(prefix: nat, raw: nat) {
    ghost predicate Ok() { prefix < 4 && raw <= MAX_VARINT }

    /** Value reads as many bits of the field as the prefix allows for. */
    function Value(): nat { raw % Modulus(prefix) }
  }

  /** The integer type a value passes through: 8, 16 or 32 bits, or the whole field. */
  function Modulus(prefix: nat): (m: nat)
    ensures m > 0
  {
    match prefix
    case 0 => 0x100
    case 1 => 0x1_0000
    case 2 => 0x1_0000_0000
    case _ => 0x4000_0000_0000_0000
  }

  /** The zero value of the program's struct. */
  const ZERO: Varint := Varint(0, 0)

  function VarintPrefix(v: nat): nat {
    match VarintLen(v)
    case 1 => 0
    case 2 => 1
    case 4 => 2
    case 8 => 3
    case _ => 0xff
  }

  /** EncodeVarint fails exactly above the largest value, and otherwise keeps the value. */
  function EncodeVarint(v: nat): (r: Option<Varint>)
    ensures r.Some? <==> v <= MAX_VARINT
    ensures r.Some? ==> r.value.Ok() && r.value.Value() == v && Fits(r.value)
  {
    var prefix := VarintPrefix(v);
    if prefix == 0xff then None else Some(Varint(prefix, v % Modulus(prefix)))
  }

  function Width(prefix: nat): (n: nat)
    ensures 1 <= n <= 8
  {
    match prefix
    case 0 => 1
    case 1 => 2
    case 2 => 4
    case _ => 8
  }

  /** The field fits the bits its prefix gives it on the wire. */
  ghost predicate Fits(v: Varint) {
    v.prefix < 4 && v.raw < match v.prefix case 0 => 0x40 case 1 => 0x4000 case 2 => 0x4000_0000 case _ => 0x4000_0000_0000_0000
  }

  /** A shift right by k bytes. */
  function Shift(v: nat, k: nat): nat { if k == 0 then v else Shift(v / 256, k - 1) }

  /** The k low bytes, most significant first. */
  function BigEndian(v: nat, k: nat): (bs: seq<byte>)
    ensures |bs| == k
  {
    if k == 0 then [] else BigEndian(v / 256, k - 1) + [(v % 256) as byte]
  }

  function FromBigEndian(bs: seq<byte>): nat {
    if bs == [] then 0 else FromBigEndian(bs[..|bs| - 1]) * 256 + bs[|bs| - 1] as nat
  }

  /** Varint.Append: the prefix sits in the two high bits of the first byte. */
  function AppendVarint(v: Varint): (bs: seq<byte>)
    ensures |bs| == Width(v.prefix)
  {
    var k := Width(v.prefix) - 1;
    [(v.prefix % 4 * 64 + Shift(v.raw, k) % 64) as byte] + BigEndian(v.raw, k)
  }

  datatype Decoded = Decoded(v: Varint, rest: seq<byte>)

  /** Varint.DecodeSlice. */
  function DecodeVarint(bs: seq<byte>): Option<Decoded> {
    if bs == [] then None
    else
      var prefix := bs[0] as nat / 64;
      var n := Width(prefix);
      if |bs| < n then None
      else
        var first := (bs[0] as nat % 64) as byte;
        Some(Decoded(Varint(prefix, FromBigEndian([first] + bs[1..n])), bs[n..]))
  }

  lemma {:induction false} BigEndianInverts(v: nat, k: nat)
    requires Shift(v, k) == 0
    ensures FromBigEndian(BigEndian(v, k)) == v
  {
    if k > 0 {
      BigEndianInverts(v / 256, k - 1);
      assert BigEndian(v, k)[..k - 1] == BigEndian(v / 256, k - 1);
    }
  }

  lemma {:induction false} BigEndianFirst(v: nat, k: nat)
    ensures BigEndian(v, k + 1) == [(Shift(v, k) % 256) as byte] + BigEndian(v, k)
  {
    if k > 0 {
      BigEndianFirst(v / 256, k - 1);
    }
  }

  lemma {:induction false} ShiftOnce(v: nat, k: nat)
    ensures Shift(v, k + 1) == Shift(v, k) / 256
  {
    if k > 0 {
      ShiftOnce(v / 256, k - 1);
    }
  }

  /** What the prefix leaves room for. */
  lemma TopIsSmall(v: Varint)
    requires Fits(v)
    ensures Shift(v.raw, Width(v.prefix) - 1) < 64
  {
    ShiftOnce(v.raw, 0);
    ShiftOnce(v.raw, 1);
    ShiftOnce(v.raw, 2);
    ShiftOnce(v.raw, 3);
    ShiftOnce(v.raw, 4);
    ShiftOnce(v.raw, 5);
    ShiftOnce(v.raw, 6);
  }

  /** Decoding undoes encoding and leaves the rest of the buffer. */
  lemma VarintRoundTrip(v: Varint, rest: seq<byte>)
    requires Fits(v)
    ensures DecodeVarint(AppendVarint(v) + rest) == Some(Decoded(v, rest))
  {
    var bs := AppendVarint(v) + rest;
    var k := Width(v.prefix) - 1;
    var top := Shift(v.raw, k);
    TopIsSmall(v);
    assert bs[0] as nat == v.prefix * 64 + top;
    FirstByte(v.prefix, top);
    BigEndianFirst(v.raw, k);
    assert [top as byte] + bs[1..k + 1] == BigEndian(v.raw, k + 1);
    assert bs[k + 1..] == rest;
    ShiftOnce(v.raw, k);
    BigEndianInverts(v.raw, k + 1);
  }

  lemma FirstByte(prefix: nat, top: nat)
    requires prefix < 4 && top < 64
    ensures (prefix * 64 + top) / 64 == prefix && (prefix * 64 + top) % 64 == top
  {
  }

  /** Encoding a value and reading it back yields the value, on the number of bytes VarintLen
      promises. */
  lemma ValueRoundTrip(value: nat, rest: seq<byte>)
    requires value <= MAX_VARINT
    ensures var v := EncodeVarint(value).value;
            && |AppendVarint(v)| == VarintLen(value)
            && var d := DecodeVarint(AppendVarint(v) + rest);
               d.Some? && d.value.v.Value() == value && d.value.rest == rest
  {
    VarintRoundTrip(EncodeVarint(value).value, rest);
  }
}
