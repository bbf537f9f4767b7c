/**
 The fixed header of a control packet and its variable-length size field
 (source/fixed_header.c; section 2.2 of MQTT 3.1.1).
 */
module FixedHeaders {
  import opened Options
  import opened Bytes
  import opened Wire

  // ----- remaining length -----

  /** Seven bits at a time, least significant first, the top bit telling that more follow. */
  function EncodeLength(n: nat): seq<Byte> {
    if n < 128 then [n] else [n % 128 + 128] + EncodeLength(n / 128)
  }

  /** What reading a size field comes to: the size and the bytes it took, or the part
      that was there when the bytes ran out, or a field of more than four bytes. */
  datatype LengthRead = Length(value: nat, size: nat) | Partial(value: nat) | Malformed

  function ReadLength(s: seq<Byte>, bytesRead: nat): (r: LengthRead)
    requires bytesRead <= 3
    ensures r.Length? ==> 0 < r.size <= |s| && r.size <= 4 - bytesRead
    ensures r.Partial? ==> |s| < 4 - bytesRead
    decreases 4 - bytesRead
  {
    if s == [] then Partial(0)
    else if s[0] < 128 then Length(s[0], 1)
    else if bytesRead == 3 then Malformed
    else
      match ReadLength(s[1..], bytesRead + 1)
      case Length(v, n) => Length(s[0] - 128 + 128 * v, n + 1)
      case Partial(v) => Partial(s[0] - 128 + 128 * v)
      case Malformed => Malformed
  }

  /** 128^k, for the few k that occur. */
  function Pow128(k: nat): (r: nat)
    requires k <= 5
    ensures r > 0
  {
    if k == 0 then 1 else 128 * Pow128(k - 1)
  }

  /** The digits of the encoding are those of the number, the least significant first. */
  lemma {:induction false} LengthLayout(n: nat)
    ensures IsSize(EncodeLength(n), n)
  {
    if n >= 128 {
      LengthLayout(n / 128);
      var s, t := EncodeLength(n), EncodeLength(n / 128);
      assert s[1..] == t;
      assert forall i | 0 < i < |s| :: s[i] == t[i - 1];
    } else {
      assert EncodeLength(n)[1..] == [];
    }
  }

  /** The limits of the standard's table, and its example. */
  lemma LengthTable()
    ensures EncodeLength(0) == [0] && EncodeLength(127) == [127]
    ensures EncodeLength(128) == [128, 1] && EncodeLength(16383) == [255, 127] && EncodeLength(321) == [193, 2]
    ensures EncodeLength(16384) == [128, 128, 1] && EncodeLength(2097151) == [255, 255, 127]
  {
    assert EncodeLength(16384 / 128) == [128, 1];
    assert EncodeLength(2097151 / 128) == [255, 127];
  }

  /** Section 2.2.3: decoding inverts encoding exactly below 2^28, whatever follows;
      larger encodings are refused. */
  lemma LengthRoundTrip(n: nat, rest: seq<Byte>)
    ensures ReadLength(EncodeLength(n) + rest, 0)
         == if n < 0x1000_0000 then Length(n, |EncodeLength(n)|) else Malformed
  {
    LengthRoundTripFrom(n, rest, 0);
    assert Pow128(4) == 0x1000_0000;
  }

  lemma {:induction false} LengthRoundTripFrom(n: nat, rest: seq<Byte>, k: nat)
    requires k <= 3
    ensures ReadLength(EncodeLength(n) + rest, k)
         == if n < Pow128(4 - k) then Length(n, |EncodeLength(n)|) else Malformed
    decreases 4 - k
  {
    var s := EncodeLength(n) + rest;
    if n >= 128 {
      assert s[1..] == EncodeLength(n / 128) + rest;
      if k < 3 {
        LengthRoundTripFrom(n / 128, rest, k + 1);
        assert Pow128(4 - k) == 128 * Pow128(3 - k);
        assert n / 128 < Pow128(3 - k) <==> n < Pow128(4 - k);
      } else {
        assert Pow128(1) == 128;
      }
    } else {
      assert Pow128(4 - k) >= 128 by { assert Pow128(4 - k) == 128 * Pow128(3 - k); }
    }
  }

  /** Encoding is the shortest form: whatever reads back as n is at least as long. */
  lemma {:induction false} EncodingIsShortest(s: seq<Byte>, k: nat, n: nat, size: nat)
    requires k <= 3 && ReadLength(s, k) == Length(n, size)
    ensures |EncodeLength(n)| <= size
    decreases 4 - k
  {
    if s[0] >= 128 {
      var deeper := ReadLength(s[1..], k + 1);
      EncodingIsShortest(s[1..], k + 1, deeper.value, deeper.size);
      assert n / 128 == deeper.value;
    }
  }

  /** Sizes of the field (table 2.4 of MQTT 3.1.1). */
  lemma LengthSize(n: nat)
    ensures |EncodeLength(n)| == 1 <==> n < 128
    ensures |EncodeLength(n)| <= 2 <==> n < 16384
    ensures |EncodeLength(n)| <= 4 <==> n < 0x1000_0000
  {
    assert |EncodeLength(n)| <= 2 <==> n < 16384 by {
      if n >= 128 && n / 128 >= 128 { assert |EncodeLength(n / 128 / 128)| >= 1; }
    }
    SizeAtMost(n, 3);
    assert Pow128(4) == 0x1000_0000;
  }

  lemma {:induction false} SizeAtMost(n: nat, k: nat)
    requires k <= 4
    ensures |EncodeLength(n)| >= 1
    ensures |EncodeLength(n)| <= k + 1 <==> n < Pow128(k + 1)
  {
    if n >= 128 {
      if k > 0 {
        SizeAtMost(n / 128, k - 1);
        assert n / 128 < Pow128(k) <==> n < 128 * Pow128(k);
      } else {
        assert |EncodeLength(n / 128)| >= 1;
        assert Pow128(1) == 128;
      }
    } else {
      assert Pow128(k + 1) == 128 * Pow128(k) >= 128;
    }
  }

  /** s_encode_remaining_length. On failure the bytes that fitted have been written. */
  method EncodeRemainingLength(buf: ByteBuf, remainingLength: nat) returns (error: Option<Error>)
    requires buf.Valid() && remainingLength < 0xFFFF_FFFF
    modifies buf
    ensures buf.Valid()
    ensures error == if |old(buf.bytes)| + |EncodeLength(remainingLength)| <= buf.capacity then None
            else Some(ShortBuffer)
    ensures error.None? ==> buf.bytes == old(buf.bytes) + EncodeLength(remainingLength)
    ensures old(buf.bytes) <= buf.bytes
  {
    ghost var full := old(buf.bytes) + EncodeLength(remainingLength);
    var left := remainingLength;
    while true
      invariant buf.Valid() && buf.bytes + EncodeLength(left) == full && old(buf.bytes) <= buf.bytes
      decreases left
    {
      var encodedByte := left % 128;
      ghost var before := left;
      left := left / 128;
      if left != 0 { encodedByte := encodedByte + 128; }
      assert EncodeLength(before) == if left == 0 then [encodedByte] else [encodedByte] + EncodeLength(left);
      ghost var sofar := buf.bytes;
      var ok := buf.Write([encodedByte]);
      if !ok { return Some(ShortBuffer); }
      if left == 0 { return None; }
      assert sofar + ([encodedByte] + EncodeLength(left)) == buf.bytes + EncodeLength(left);
    }
  }

  /** s_decode_remaining_length: at most four bytes are read, whatever comes. */
  method DecodeRemainingLength(cur: Cursor) returns (r: LengthRead)
    modifies cur
    ensures r == ReadLength(old(cur.rest), 0)
    ensures r.Length? ==> cur.rest == old(cur.rest)[r.size..]
    ensures r.Partial? ==> cur.rest == []
    ensures |old(cur.rest)| - |cur.rest| <= 4
  {
    hide ReadLength, Scaled, Pow128;
    ghost var s0 := cur.rest;
    var start := |cur.rest|;
    var multiplier: nat, remainingLength: nat := 1, 0;
    ScaleStart(s0);
    ghost var k := 0;
    while true
      invariant k <= 3 && k <= |s0| && cur.rest == s0[k..] && multiplier == Pow128(k)
      invariant ReadLength(s0, 0) == Scaled(ReadLength(cur.rest, k), remainingLength, multiplier, k)
      decreases 4 - k
    {
      ScaleStep(cur.rest, k, remainingLength, multiplier);
      var b := cur.ReadU8();
      if b.None? { return Partial(remainingLength); }
      remainingLength := remainingLength + b.value as int % 128 * multiplier;
      multiplier := multiplier * 128;
      if b.value < 128 { return Length(remainingLength, start - |cur.rest|); }
      if multiplier > 128 * 128 * 128 { return Malformed; }
      k := k + 1;
    }
  }

  /** The reading of a whole field, from that of its bytes after the first k. */
  ghost function Scaled(r: LengthRead, low: nat, multiplier: nat, k: nat): LengthRead {
    match r
    case Length(v, n) => Length(low + v * multiplier, k + n)
    case Partial(v) => Partial(low + v * multiplier)
    case Malformed => Malformed
  }

  lemma ScaleStart(s: seq<Byte>)
    ensures Scaled(ReadLength(s, 0), 0, 1, 0) == ReadLength(s, 0) && Pow128(0) == 1
  {
  }

  lemma ScaleStep(s: seq<Byte>, k: nat, low: nat, multiplier: nat)
    requires k <= 3 && multiplier == Pow128(k)
    ensures s != [] && s[0] >= 128 && k < 3 ==>
              (Scaled(ReadLength(s, k), low, multiplier, k)
               == Scaled(ReadLength(s[1..], k + 1), low + s[0] as int % 128 * multiplier, multiplier * 128, k + 1))
    ensures s != [] && s[0] < 128 ==>
              Scaled(ReadLength(s, k), low, multiplier, k) == Length(low + s[0] as int % 128 * multiplier, k + 1)
    ensures s == [] ==> Scaled(ReadLength(s, k), low, multiplier, k) == Partial(low)
    ensures s != [] && s[0] >= 128 && k == 3 ==> Scaled(ReadLength(s, k), low, multiplier, k) == Malformed
    ensures s != [] ==> s[0] as int % 128 * multiplier >= 0
    ensures multiplier * 128 == Pow128(k + 1)
    ensures multiplier * 128 > 128 * 128 * 128 <==> k == 3
  {
    assert Pow128(1) == 128 && Pow128(2) == 16384 && Pow128(3) == 2097152 && Pow128(4) == 268435456;
    if s != [] && s[0] >= 128 && k < 3 {
      var d := ReadLength(s[1..], k + 1);
      if !d.Malformed? {
        assert (s[0] - 128 + 128 * d.value) * multiplier == (s[0] - 128) * multiplier + d.value * (multiplier * 128);
      }
    }
  }

  // ----- fixed header -----

  const CONNECT := 1
  const CONNACK := 2
  const PUBLISH := 3
  const PUBACK := 4
  const PUBREC := 5
  const PUBREL := 6
  const PUBCOMP := 7
  const SUBSCRIBE := 8
  const SUBACK := 9
  const UNSUBSCRIBE := 10
  const UNSUBACK := 11
  const PINGREQ := 12
  const PINGRESP := 13
  const DISCONNECT := 14

  datatype FixedHeader = FixedHeader(packetType: nat, flags: nat, remainingLength: nat)

  predicate HasFlags(packetType: nat) {
    packetType == SUBSCRIBE || packetType == UNSUBSCRIBE || packetType == PUBLISH || packetType == PUBREL
  }

  /** Flags appear only where the standard defines them. */
  predicate FlagsAllowed(h: FixedHeader) {
    HasFlags(h.packetType) || h.flags == 0
  }

  function HeaderBytes(h: FixedHeader): (s: seq<Byte>)
    requires h.packetType < 16
    ensures |s| == 1 + |EncodeLength(h.remainingLength)|
  {
    [h.packetType * 16 + h.flags % 16] + EncodeLength(h.remainingLength)
  }

  /** What reading a header comes to. When bytes are missing, from the header or from the
      packet behind it, the bytes consumed and the size known so far. */
  datatype HeaderRead =
    | Header(header: FixedHeader, size: nat)
    | HeaderShort(consumed: nat, remainingLength: nat)
    | HeaderBad(error: Error)

  function ReadHeader(s: seq<Byte>): (r: HeaderRead)
    ensures r.Header? ==> 1 < r.size <= 5 && r.size + r.header.remainingLength <= |s|
    ensures r.HeaderShort? ==> r.consumed <= |s| <= r.consumed + r.remainingLength
  {
    if s == [] then HeaderShort(0, 0)
    else
      match ReadLength(s[1..], 0)
      case Partial(v) => HeaderShort(|s|, v)
      case Malformed => HeaderBad(InvalidRemainingLength)
      case Length(v, n) =>
        var h := FixedHeader(s[0] / 16, s[0] % 16, v);
        if |s| - 1 - n < v then HeaderShort(1 + n, v)
        else if !FlagsAllowed(h) then HeaderBad(InvalidReservedBits)
        else Header(h, 1 + n)
  }

  /** A header that can be written and read back. */
  predicate GoodHeader(h: FixedHeader) {
    h.packetType < 16 && h.flags < 16 && FlagsAllowed(h) && h.remainingLength < 0x1000_0000
  }

  /** Reading what was written: the header itself if its packet is there, else the size
      of the packet that is to come. */
  lemma HeaderRoundTrip(h: FixedHeader, after: seq<Byte>)
    requires GoodHeader(h)
    ensures var n := |HeaderBytes(h)|;
            ReadHeader(HeaderBytes(h) + after)
            == if h.remainingLength <= |after| then Header(h, n) else HeaderShort(n, h.remainingLength)
  {
    var s := HeaderBytes(h) + after;
    assert s[1..] == EncodeLength(h.remainingLength) + after;
    LengthRoundTrip(h.remainingLength, after);
  }

  /** The first byte has the type above the flags, and the size follows. */
  lemma HeaderLayout(h: FixedHeader, after: seq<Byte>)
    requires h.packetType < 16 && h.flags < 16
    ensures HeaderAt(HeaderBytes(h) + after, |HeaderBytes(h)|, h.packetType * 16 + h.flags, h.remainingLength)
  {
    LengthLayout(h.remainingLength);
    var b, o := HeaderBytes(h) + after, |HeaderBytes(h)|;
    assert b[1..o] == EncodeLength(h.remainingLength);
  }

  /** Tables 2.1 and 2.2 of the standard, in numbers. */
  lemma PacketTypes(t: nat)
    ensures CONNECT == 1 && CONNACK == 2 && PUBLISH == 3 && PUBACK == 4 && PUBREC == 5 && PUBREL == 6 && PUBCOMP == 7
    ensures SUBSCRIBE == 8 && SUBACK == 9 && UNSUBSCRIBE == 10 && UNSUBACK == 11
    ensures PINGREQ == 12 && PINGRESP == 13 && DISCONNECT == 14
    ensures HasFlags(t) <==> t in {3, 6, 8, 10}
  {
  }

  /** Flags where there must be none are refused when the packet is there, and only then: a shortage comes first. */
  lemma HeaderRefused(h: FixedHeader, after: seq<Byte>)
    requires h.packetType < 16 && h.flags < 16 && h.remainingLength < 0x1000_0000
    requires h.packetType !in {3, 6, 8, 10} && h.flags != 0
    ensures var n := |HeaderBytes(h)|;
            ReadHeader(HeaderBytes(h) + after)
            == if h.remainingLength <= |after| then HeaderBad(InvalidReservedBits)
               else HeaderShort(n, h.remainingLength)
  {
    var s := HeaderBytes(h) + after;
    assert s[1..] == EncodeLength(h.remainingLength) + after;
    LengthRoundTrip(h.remainingLength, after);
  }

  /** aws_mqtt_fixed_header_encode. */
  method EncodeHeader(buf: ByteBuf, h: FixedHeader) returns (error: Option<Error>)
    requires buf.Valid() && h.packetType < 16 && h.remainingLength < 0xFFFF_FFFF
    modifies buf
    ensures buf.Valid()
    ensures error == if !FlagsAllowed(h) then Some(InvalidReservedBits)
                     else if |old(buf.bytes)| + |HeaderBytes(h)| <= buf.capacity then None
                     else Some(ShortBuffer)
    ensures error.None? ==> buf.bytes == old(buf.bytes) + HeaderBytes(h)
  {
    if !HasFlags(h.packetType) && h.flags != 0 { return Some(InvalidReservedBits); }
    var ok := buf.Write([h.packetType * 16 + h.flags % 16]);
    if !ok { return Some(ShortBuffer); }
    error := EncodeRemainingLength(buf, h.remainingLength);
  }

  /** aws_mqtt_fixed_header_decode. */
  method DecodeHeader(cur: Cursor) returns (r: HeaderRead)
    modifies cur
    ensures r == ReadHeader(old(cur.rest))
    ensures r.Header? ==> cur.rest == old(cur.rest)[r.size..]
    ensures r.HeaderShort? ==> |cur.rest| == |old(cur.rest)| - r.consumed
  {
    hide ReadLength;
    var start := |cur.rest|;
    var b := cur.ReadU8();
    if b.None? { return HeaderShort(0, 0); }
    var packetType: nat, flags: nat := b.value / 16, b.value % 16;
    var length := DecodeRemainingLength(cur);
    match length {
      case Partial(v) => return HeaderShort(start - |cur.rest|, v);
      case Malformed => return HeaderBad(InvalidRemainingLength);
      case Length(v, n) =>
        if |cur.rest| < v { return HeaderShort(start - |cur.rest|, v); }
        if !HasFlags(packetType) && flags != 0 { return HeaderBad(InvalidReservedBits); }
        return Header(FixedHeader(packetType, flags, v), start - |cur.rest|);
    }
  }

  /** A header, and what follows it. */
  function ParseHeader(s: seq<Byte>): Parse<FixedHeader> {
    match ReadHeader(s)
    case Header(h, n) => Ok(h, s[n..])
    case HeaderShort(_, _) => Err(ShortBuffer)
    case HeaderBad(e) => Err(e)
  }

  lemma ParseHeaderBytes(h: FixedHeader, after: seq<Byte>)
    requires GoodHeader(h) && h.remainingLength <= |after|
    ensures ParseHeader(HeaderBytes(h) + after) == Ok(h, after)
  {
    HeaderRoundTrip(h, after);
    assert (HeaderBytes(h) + after)[|HeaderBytes(h)|..] == after;
  }
}
