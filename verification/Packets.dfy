/**
 The control packets (source/packets.c; section 3 of MQTT 3.1.1): how packets are
 put together, what their encoders write and what their decoders read.
 */
module Packets {
  import opened Options
  import opened Bytes
  import opened FixedHeaders
  import opened Wire

  // ----- length-prefixed buffers -----

  function BufferBytes(data: seq<Byte>): (s: seq<Byte>)
    requires |data| <= 65535
    ensures |s| == 2 + |data|
  {
    Be16(|data|) + data
  }

  /** A buffer that is cut short reads as an empty one: only the length is consumed. */
  function ReadBuffer(s: seq<Byte>): Parse<seq<Byte>> {
    var (n, s) :- ReadBe16From(s);
    if n <= |s| then Ok(s[..n], s[n..]) else Ok([], s)
  }

  lemma BufferRoundTrip(data: seq<Byte>, rest: seq<Byte>)
    requires |data| <= 65535
    ensures ReadBuffer(BufferBytes(data) + rest) == Ok(data, rest)
  {
    assert BufferBytes(data) + rest == Be16(|data|) + (data + rest);
    Be16RoundTrip(|data|, data + rest);
  }

  /** The length comes first, most significant byte first. */
  lemma BufferLayout(data: seq<Byte>, before: seq<Byte>, after: seq<Byte>)
    requires |data| <= 65535
    ensures FieldAt(before + BufferBytes(data) + after, |before|, data)
  {
    var b, i := before + BufferBytes(data) + after, |before|;
    BigEndian(|data|, 0, 0, []);
    assert b[i] == Be16(|data|)[0] && b[i + 1] == Be16(|data|)[1];
    assert b[i + 2..i + 2 + |data|] == data;
  }

  lemma NumberLayout(n: nat, before: seq<Byte>, after: seq<Byte>)
    requires n < 65536
    ensures NumberAt(before + Be16(n) + after, |before|, n)
  {
    var b, i := before + Be16(n) + after, |before|;
    BigEndian(n, 0, 0, []);
    assert b[i] == Be16(n)[0] && b[i + 1] == Be16(n)[1];
  }

  /** A field whose bytes are not all there reads as an empty one, and any other as itself. */
  lemma BufferRead(s: seq<Byte>, n: nat)
    requires NumberAt(s, 0, n)
    ensures ReadBuffer(s) == if 2 + n <= |s| then Ok(s[2..2 + n], s[2 + n..]) else Ok([], s[2..])
  {
    assert s == [s[0], s[1]] + s[2..];
    BigEndian(0, s[0], s[1], s[2..]);
    if 2 + n <= |s| { assert s[2..][..n] == s[2..2 + n] && s[2..][n..] == s[2 + n..]; }
  }

  /** How full a buffer is after a field of n bytes was written to it or not: the length may
      have got in without the bytes. */
  function FieldFill(n: nat, capacity: nat, used: nat): nat {
    if n > 65535 || used + 2 > capacity then used
    else if used + 2 + n > capacity then used + 2
    else used + 2 + n
  }

  /** s_encode_buffer. When it fails it has written less than the whole buffer. */
  method EncodeBuffer(buf: ByteBuf, data: seq<Byte>) returns (error: Option<Error>)
    requires buf.Valid()
    modifies buf
    ensures buf.Valid()
    ensures error.None? <==> |data| <= 65535 && |old(buf.bytes)| + 2 + |data| <= buf.capacity
    ensures error.None? ==> buf.bytes == old(buf.bytes) + BufferBytes(data)
    ensures error.Some? ==> |old(buf.bytes)| <= |buf.bytes| < |old(buf.bytes)| + 2 + |data|
    ensures |buf.bytes| == FieldFill(|data|, buf.capacity, |old(buf.bytes)|)
  {
    if |data| > 65535 { return Some(BufferTooBig); }
    var ok := buf.Write(Be16(|data|));
    if !ok { return Some(ShortBuffer); }
    ok := buf.Write(data);
    if !ok { return Some(ShortBuffer); }
    assert old(buf.bytes) + Be16(|data|) + data == old(buf.bytes) + BufferBytes(data);
    return None;
  }

  /** s_decode_buffer. */
  method DecodeBuffer(cur: Cursor) returns (r: Result<seq<Byte>>)
    modifies cur
    ensures Agrees(r, cur.rest, ReadBuffer(old(cur.rest)))
    ensures |cur.rest| <= |old(cur.rest)|
    ensures if r.Success? then |r.value| + |cur.rest| + 2 <= |old(cur.rest)| else r.error == ShortBuffer
  {
    var length := cur.ReadBe16();
    if length.None? { return Failure(ShortBuffer); }
    var data := cur.Advance(length.value);
    return Success(data);
  }

  // ----- CONNECT -----

  datatype Connect = Connect(
    header: FixedHeader,
    cleanSession: bool,
    hasWill: bool,
    willRetain: bool,
    hasPassword: bool,
    hasUsername: bool,
    keepAlive: nat,
    willQos: nat,
    clientId: seq<Byte>,
    willTopic: seq<Byte>,
    willMessage: seq<Byte>,
    username: seq<Byte>,
    password: seq<Byte>)

  const PROTOCOL_NAME: seq<Byte> := [77, 81, 84, 84]
  const PROTOCOL_LEVEL := 4

  function Bit(b: bool): (n: nat)
    ensures n <= 1
  {
    if b then 1 else 0
  }

  /** Section 3.1.2.3 of MQTT 3.1.1. */
  function ConnectFlags(p: Connect): Byte
    requires p.willQos < 4
  {
    Bit(p.cleanSession) * 2 + Bit(p.hasWill) * 4 + p.willQos * 8 + Bit(p.willRetain) * 32
    + Bit(p.hasPassword) * 64 + Bit(p.hasUsername) * 128
  }

  /** Every part can be put into the packet. */
  predicate ConnectFits(p: Connect) {
    && |p.clientId| <= 65535 && p.keepAlive < 65536 && p.willQos < 4
    && (p.hasWill ==> |p.willTopic| <= 65535 && |p.willMessage| <= 65535)
    && (p.hasUsername ==> |p.username| <= 65535)
    && (p.hasPassword ==> |p.password| <= 65535)
  }

  function OptionalBytes(present: bool, data: seq<Byte>): seq<Byte>
    requires present ==> |data| <= 65535
  {
    if present then BufferBytes(data) else []
  }

  function WillBytes(p: Connect): seq<Byte>
    requires ConnectFits(p)
  {
    if p.hasWill then BufferBytes(p.willTopic) + BufferBytes(p.willMessage) else []
  }

  function ConnectPayload(p: Connect): seq<Byte>
    requires ConnectFits(p)
  {
    BufferBytes(p.clientId)
    + (WillBytes(p) + (OptionalBytes(p.hasUsername, p.username) + OptionalBytes(p.hasPassword, p.password)))
  }

  lemma PayloadParts(p: Connect, rest: seq<Byte>)
    requires ConnectFits(p)
    ensures ConnectPayload(p) + rest
            == BufferBytes(p.clientId)
               + (OptionalBytes(p.hasWill, p.willTopic)
                  + (OptionalBytes(p.hasWill, p.willMessage)
                     + (OptionalBytes(p.hasUsername, p.username) + (OptionalBytes(p.hasPassword, p.password) + rest))))
  {
    hide BufferBytes, WillBytes, OptionalBytes;
    WillParts(p);
  }

  lemma WillParts(p: Connect)
    requires ConnectFits(p)
    ensures WillBytes(p) == OptionalBytes(p.hasWill, p.willTopic) + OptionalBytes(p.hasWill, p.willMessage)
  {
    hide BufferBytes;
  }

  lemma PayloadSizes(p: Connect)
    requires ConnectFits(p)
    ensures |BufferBytes(p.clientId)| == 2 + |p.clientId|
    ensures |WillBytes(p)| == if p.hasWill then 4 + |p.willTopic| + |p.willMessage| else 0
    ensures |OptionalBytes(p.hasUsername, p.username)| == if p.hasUsername then 2 + |p.username| else 0
    ensures |OptionalBytes(p.hasPassword, p.password)| == if p.hasPassword then 2 + |p.password| else 0
  {
    hide BufferBytes;
    BufferSize(p.clientId);
    if p.hasWill { BufferSize(p.willTopic); BufferSize(p.willMessage); }
    if p.hasUsername { BufferSize(p.username); }
    if p.hasPassword { BufferSize(p.password); }
  }

  lemma BufferSize(data: seq<Byte>)
    requires |data| <= 65535
    ensures |BufferBytes(data)| == 2 + |data|
  {
  }

  function ConnectBody(p: Connect): seq<Byte>
    requires ConnectFits(p)
  {
    ConnectStart(p) + ConnectPayload(p)
  }

  /** The variable header of section 3.1.2 of MQTT 3.1.1. */
  function ConnectStart(p: Connect): (s: seq<Byte>)
    requires p.keepAlive < 65536 && p.willQos < 4
    ensures |s| == 10
  {
    BufferBytes(PROTOCOL_NAME) + ([PROTOCOL_LEVEL] + ([ConnectFlags(p)] + Be16(p.keepAlive)))
  }

  function ConnectBytes(p: Connect): seq<Byte>
    requires ConnectFits(p) && p.header.packetType < 16
  {
    HeaderBytes(p.header) + ConnectBody(p)
  }

  /** The size of the packet behind the fixed header. */
  function ConnectSize(p: Connect): nat {
    10 + 2 + |p.clientId|
    + (if p.hasWill then 2 + |p.willTopic| + 2 + |p.willMessage| else 0)
    + (if p.hasUsername then 2 + |p.username| else 0)
    + (if p.hasPassword then 2 + |p.password| else 0)
  }

  lemma ConnectSizeIs(p: Connect)
    requires ConnectFits(p)
    ensures |ConnectBody(p)| == ConnectSize(p)
  {
  }

  /** How far the running length is ahead of the packet. */
  function Surplus(p: Connect): int {
    p.header.remainingLength - ConnectSize(p)
  }

  /** Absent parts are empty, as the zeroed struct leaves them. */
  predicate ConnectClean(p: Connect) {
    && (!p.hasWill ==> p.willTopic == [] && p.willMessage == [])
    && (!p.hasUsername ==> p.username == [])
    && (!p.hasPassword ==> p.password == [])
  }

  class ConnectPacket {
    var packet: Connect

    /** aws_mqtt_packet_connect_init. */
    constructor (clientId: seq<Byte>, cleanSession: bool, keepAlive: nat)
      requires |clientId| > 0
      ensures packet.header.packetType == CONNECT && packet.header.flags == 0
      ensures packet.clientId == clientId && packet.cleanSession == cleanSession && packet.keepAlive == keepAlive
      ensures !packet.hasWill && !packet.hasUsername && !packet.hasPassword && packet.willQos == 0
      ensures ConnectClean(packet) && Surplus(packet) == 0
    {
      packet := Connect(FixedHeader(CONNECT, 0, 10 + 2 + |clientId|), cleanSession, false, false, false, false,
                        keepAlive, 0, clientId, [], [], [], []);
    }

    /** aws_mqtt_packet_connect_add_credentials: however often it is called, the running
        length stays exact. */
    method AddCredentials(username: seq<Byte>, password: seq<Byte>)
      requires |username| > 0 && ConnectClean(packet) && Surplus(packet) >= 0
      modifies this
      ensures ConnectClean(packet) && Surplus(packet) == Surplus(old(packet))
      ensures packet.hasUsername && packet.username == username
      ensures |password| > 0 ==> packet.hasPassword && packet.password == password
      ensures |password| == 0 ==>
                packet.hasPassword == old(packet).hasPassword && packet.password == old(packet).password
      ensures packet == old(packet).(header := packet.header, hasUsername := true, username := username,
                                     hasPassword := packet.hasPassword, password := packet.password)
      ensures packet.header == old(packet).header.(remainingLength := packet.header.remainingLength)
    {
      var length: int := packet.header.remainingLength;
      if !packet.hasUsername { length := length + 2; }
      length := length + |username| - |packet.username|;
      packet := packet.(hasUsername := true, username := username);
      if |password| > 0 {
        if !packet.hasPassword { length := length + 2; }
        length := length + |password| - |packet.password|;
        packet := packet.(hasPassword := true, password := password);
      }
      packet := packet.(header := packet.header.(remainingLength := length));
    }

    /** aws_mqtt_packet_connect_add_will: exact the first time; every further will leaves the
        size of the one that it replaces in the running length. */
    method AddWill(topic: seq<Byte>, qos: nat, retain: bool, payload: seq<Byte>)
      requires ConnectClean(packet)
      modifies this
      ensures ConnectClean(packet)
      ensures Surplus(packet) == Surplus(old(packet))
                                 + (if old(packet).hasWill
                                   then 4 + |old(packet).willTopic| + |old(packet).willMessage| else 0)
      ensures packet == old(packet).(header := packet.header, hasWill := true, willTopic := topic, willQos := qos,
                                     willRetain := retain, willMessage := payload)
      ensures packet.header == old(packet).header.(remainingLength := packet.header.remainingLength)
    {
      packet := packet.(hasWill := true, willTopic := topic, willQos := qos, willRetain := retain,
                        willMessage := payload);
      packet := packet.(header := packet.header.(
        remainingLength := packet.header.remainingLength + (2 + |topic|) + (2 + |payload|)));
    }
  }

  /** Only a username makes a password acceptable. */
  predicate CredentialsOk(p: Connect) {
    p.hasPassword ==> p.hasUsername
  }

  /** The bytes of a CONNECT. */
  predicate IsConnect(b: seq<Byte>, p: Connect) {
    exists flags: Byte | ConnectFlagsAre(flags, p) :: IsConnectWith(b, p, flags)
  }

  predicate IsConnectWith(b: seq<Byte>, p: Connect, flags: Byte) {
    var o := |HeaderBytes(FixedHeader(CONNECT, 0, p.header.remainingLength))|;
    && HeaderAt(b, o, 16, p.header.remainingLength)
    && ConnectStartAt(b, o, flags, p.keepAlive)
    && ConnectPayloadAt(b, o + 10, p.clientId, p.hasWill, p.willTopic, p.willMessage,
                        p.hasUsername, p.username, p.hasPassword, p.password)
  }

  /** Section 3.1.2.3, bit by bit; the lowest is not used. */
  predicate ConnectFlagsAre(f: Byte, p: Connect) {
    && f % 2 == 0 && (f / 2 % 2 == 1 <==> p.cleanSession) && (f / 4 % 2 == 1 <==> p.hasWill) && f / 8 % 4 == p.willQos
    && (f / 32 % 2 == 1 <==> p.willRetain) && (f / 64 % 2 == 1 <==> p.hasPassword)
    && (f / 128 % 2 == 1 <==> p.hasUsername)
  }

  lemma ConnectLayout(p: Connect)
    requires ConnectFits(p) && p.header.packetType == CONNECT && p.header.flags == 0
    ensures IsConnect(ConnectBytes(p), p)
  {
    hide HeaderBytes, ConnectStart, ConnectPayload, ConnectFlags, HeaderAt, ConnectStartAt, ConnectPayloadAt;
    var h, start, payload := HeaderBytes(p.header), ConnectStart(p), ConnectPayload(p);
    HeaderLayout(p.header, start + payload);
    assert ConnectBytes(p) == h + (start + payload) == h + start + payload;
    ConnectStartLayout(p, h, payload);
    ConnectPayloadLayout(p, h + start);
    FlagsRoundTrip(p);
    FlagsEven(p);
    assert p.header == FixedHeader(CONNECT, 0, p.header.remainingLength);
    assert ConnectFlagsAre(ConnectFlags(p), p) && IsConnectWith(ConnectBytes(p), p, ConnectFlags(p));
  }

  lemma FlagsEven(p: Connect)
    requires p.willQos < 4
    ensures ConnectFlags(p) % 2 == 0
  {
  }

  lemma ConnectStartLayout(p: Connect, before: seq<Byte>, after: seq<Byte>)
    requires ConnectFits(p)
    ensures ConnectStartAt(before + ConnectStart(p) + after, |before|, ConnectFlags(p), p.keepAlive)
  {
    hide ConnectFlags;
    var b, o, s := before + ConnectStart(p) + after, |before|, ConnectStart(p);
    BigEndian(p.keepAlive, 0, 0, []);
    assert s[..7] == [0, 4, 77, 81, 84, 84, 4];
    assert b[o..o + 7] == s[..7];
    assert b[o + 7] == s[7] && b[o + 8] == s[8] && b[o + 9] == s[9];
  }

  lemma ConnectPayloadLayout(p: Connect, before: seq<Byte>)
    requires ConnectFits(p)
    ensures ConnectPayloadAt(before + ConnectPayload(p), |before|, p.clientId, p.hasWill, p.willTopic, p.willMessage,
                             p.hasUsername, p.username, p.hasPassword, p.password)
  {
    hide BufferBytes, OptionalBytes, ConnectPayload, FieldAt, OptionalAt;
    var f0 := BufferBytes(p.clientId);
    var w := OptionalBytes(p.hasWill, p.willTopic) + OptionalBytes(p.hasWill, p.willMessage);
    var c := OptionalBytes(p.hasUsername, p.username) + OptionalBytes(p.hasPassword, p.password);
    PayloadGroups(p);
    BufferSize(p.clientId);
    var b := before + ConnectPayload(p);
    assert b == before + f0 + (w + c);
    BufferLayout(p.clientId, before, w + c);
    assert b == (before + f0) + w + c;
    TwoOptional(p.hasWill, p.willTopic, p.hasWill, p.willMessage, before + f0, c);
    assert b == (before + f0 + w) + c + [];
    TwoOptional(p.hasUsername, p.username, p.hasPassword, p.password, before + f0 + w, []);
  }

  lemma PayloadGroups(p: Connect)
    requires ConnectFits(p)
    ensures ConnectPayload(p)
            == BufferBytes(p.clientId)
               + ((OptionalBytes(p.hasWill, p.willTopic) + OptionalBytes(p.hasWill, p.willMessage))
                  + (OptionalBytes(p.hasUsername, p.username) + OptionalBytes(p.hasPassword, p.password)))
  {
    hide BufferBytes, WillBytes, OptionalBytes;
    WillParts(p);
  }

  lemma TwoOptional(present: bool, data: seq<Byte>, present': bool, data': seq<Byte>,
                    before: seq<Byte>, after: seq<Byte>)
    requires (present ==> |data| <= 65535) && (present' ==> |data'| <= 65535)
    ensures var f, f' := OptionalBytes(present, data), OptionalBytes(present', data');
            var b, i, i' := before + (f + f') + after, |before|, Behind(|before|, present, data);
            && OptionalAt(b, i, present, data) && OptionalAt(b, i', present', data')
            && |before + (f + f')| == Behind(i', present', data')
  {
    hide OptionalBytes, OptionalAt;
    var f, f' := OptionalBytes(present, data), OptionalBytes(present', data');
    var b := before + (f + f') + after;
    assert b == before + f + (f' + after);
    OptionalLayout(present, data, before, f' + after);
    assert b == (before + f) + f' + after;
    OptionalLayout(present', data', before + f, after);
  }

  lemma OptionalLayout(present: bool, data: seq<Byte>, before: seq<Byte>, after: seq<Byte>)
    requires present ==> |data| <= 65535
    ensures OptionalAt(before + OptionalBytes(present, data) + after, |before|, present, data)
    ensures |before + OptionalBytes(present, data)| == Behind(|before|, present, data)
  {
    hide BufferBytes, FieldAt;
    if present {
      BufferLayout(data, before, after);
      BufferSize(data);
    }
  }

  /** aws_mqtt_packet_connect_encode: the whole packet, or an error. */
  method EncodeConnect(buf: ByteBuf, p: Connect) returns (error: Option<Error>)
    requires buf.Valid() && p.header.packetType < 16 && p.header.remainingLength < 0xFFFF_FFFF
    requires p.keepAlive < 65536 && p.willQos < 4
    modifies buf
    ensures buf.Valid()
    ensures error.None? <==>
              && CredentialsOk(p) && FlagsAllowed(p.header) && ConnectFits(p)
              && |old(buf.bytes)| + |ConnectBytes(p)| <= buf.capacity
    ensures error.None? ==> buf.bytes == old(buf.bytes) + ConnectBytes(p)
    ensures error.None? && p.header.packetType == CONNECT ==> IsConnect(buf.bytes[|old(buf.bytes)|..], p)
  {
    hide HeaderBytes, ConnectStart, ConnectPayload, ConnectFits, IsConnect;
    if p.hasPassword && !p.hasUsername { return Some(InvalidCredentials); }
    error := EncodeHeader(buf, p.header);
    if error.Some? { return; }
    error := EncodeConnectStart(buf, p);
    if error.Some? { return; }
    error := EncodeConnectPayload(buf, p);
    if error.None? {
      assert buf.bytes == old(buf.bytes) + ConnectBytes(p);
      assert buf.bytes[|old(buf.bytes)|..] == ConnectBytes(p);
      if p.header.packetType == CONNECT { ConnectLayout(p); }
    }
  }

  method EncodeConnectStart(buf: ByteBuf, p: Connect) returns (error: Option<Error>)
    requires buf.Valid() && p.keepAlive < 65536 && p.willQos < 4
    modifies buf
    ensures buf.Valid()
    ensures error.None? <==> |old(buf.bytes)| + 10 <= buf.capacity
    ensures error.None? ==> buf.bytes == old(buf.bytes) + ConnectStart(p)
  {
    hide BufferBytes, Be16, ConnectFlags;
    error := EncodeBuffer(buf, PROTOCOL_NAME);
    if error.Some? { return Some(ShortBuffer); }
    var ok := buf.Write([PROTOCOL_LEVEL]);
    if !ok { return Some(ShortBuffer); }
    ok := buf.Write([ConnectFlags(p)]);
    if !ok { return Some(ShortBuffer); }
    ok := buf.Write(Be16(p.keepAlive));
    if !ok { return Some(ShortBuffer); }
    assert buf.bytes == old(buf.bytes) + ConnectStart(p);
  }

  /** The strings of a CONNECT, in order. */
  method EncodeConnectPayload(buf: ByteBuf, p: Connect) returns (error: Option<Error>)
    requires buf.Valid() && p.keepAlive < 65536 && p.willQos < 4
    modifies buf
    ensures buf.Valid()
    ensures error.None? <==> ConnectFits(p) && |old(buf.bytes)| + |ConnectPayload(p)| <= buf.capacity
    ensures error.None? ==> buf.bytes == old(buf.bytes) + ConnectPayload(p)
  {
    hide BufferBytes, WillBytes, OptionalBytes;
    if ConnectFits(p) { PayloadSizes(p); }
    error := EncodeBuffer(buf, p.clientId);
    if error.Some? { return; }
    error := EncodeWill(buf, p);
    if error.Some? { return; }
    error := EncodeOptional(buf, p.hasUsername, p.username);
    if error.Some? { return; }
    error := EncodeOptional(buf, p.hasPassword, p.password);
    if error.Some? { return; }
    assert buf.bytes == old(buf.bytes) + ConnectPayload(p);
  }

  method EncodeWill(buf: ByteBuf, p: Connect) returns (error: Option<Error>)
    requires buf.Valid()
    modifies buf
    ensures buf.Valid()
    ensures var size := if p.hasWill then 4 + |p.willTopic| + |p.willMessage| else 0;
            error.None? <==> (p.hasWill ==> |p.willTopic| <= 65535 && |p.willMessage| <= 65535)
                             && |old(buf.bytes)| + size <= buf.capacity
    ensures error.None? && ConnectFits(p) ==> buf.bytes == old(buf.bytes) + WillBytes(p)
  {
    error := None;
    if p.hasWill {
      error := EncodeBuffer(buf, p.willTopic);
      if error.Some? { return; }
      error := EncodeBuffer(buf, p.willMessage);
    }
  }

  method EncodeOptional(buf: ByteBuf, present: bool, data: seq<Byte>) returns (error: Option<Error>)
    requires buf.Valid()
    modifies buf
    ensures buf.Valid()
    ensures var size := if present then 2 + |data| else 0;
            error.None? <==> (present ==> |data| <= 65535) && |old(buf.bytes)| + size <= buf.capacity
    ensures error.None? ==> buf.bytes == old(buf.bytes) + OptionalBytes(present, data)
  {
    error := None;
    if present {
      error := EncodeBuffer(buf, data);
    }
  }

  /** What aws_mqtt_packet_connect_decode reads. */
  function ParseConnect(s: seq<Byte>): Parse<Connect> {
    var (h, s) :- ParseHeader(s);
    var (name, s) :- ReadBuffer(s);
    if name != PROTOCOL_NAME then Err(UnsupportedProtocolName)
    else
      var (level, s) :- ReadU8From(s);
      if level != PROTOCOL_LEVEL then Err(UnsupportedProtocolLevel)
      else
        var (flags, s) :- ReadU8From(s);
        var (keepAlive, s) :- ReadBe16From(s);
        ParseConnectPayload(h, flags, keepAlive, s)
  }

  function ParseConnectPayload(h: FixedHeader, flags: Byte, keepAlive: nat, s: seq<Byte>): Parse<Connect> {
    var (clientId, s) :- ReadBuffer(s);
    var (willTopic, s) :- ReadOptional(flags / 4 % 2 == 1, s);
    var (willMessage, s) :- ReadOptional(flags / 4 % 2 == 1, s);
    var (username, s) :- ReadOptional(flags / 128 % 2 == 1, s);
    var (password, s) :- ReadOptional(flags / 64 % 2 == 1, s);
    var p := Connect(h, flags / 2 % 2 == 1, flags / 4 % 2 == 1, flags / 32 % 2 == 1, flags / 64 % 2 == 1,
                     flags / 128 % 2 == 1, keepAlive, flags / 8 % 4, clientId, willTopic, willMessage,
                     username, password);
    if CredentialsOk(p) then Ok(p, s) else Err(InvalidCredentials)
  }

  function ReadOptional(present: bool, s: seq<Byte>): Parse<seq<Byte>> {
    if present then ReadBuffer(s) else Ok([], s)
  }

  /** Section 3.1: with any combination of will, username and password, decoding the
      encoding gives the packet back and stops right behind it; but a password without a username is refused. */
  lemma ConnectRoundTrip(p: Connect, rest: seq<Byte>)
    requires ConnectFits(p) && ConnectClean(p) && GoodHeader(p.header) && Surplus(p) == 0
    ensures ParseConnect(ConnectBytes(p) + rest)
            == if p.hasPassword && !p.hasUsername then Err(InvalidCredentials) else Ok(p, rest)
  {
    hide HeaderBytes, ParseHeader, BufferBytes, ReadBuffer, ParseConnectPayload, ConnectPayload, ConnectFlags;
    ConnectSizeIs(p);
    var body := ConnectBody(p) + rest;
    assert ConnectBytes(p) + rest == HeaderBytes(p.header) + body;
    ParseHeaderBytes(p.header, body);
    var s4 := ConnectPayload(p) + rest;
    var s3 := Be16(p.keepAlive) + s4;
    var s2 := [ConnectFlags(p)] + s3;
    var s1 := [PROTOCOL_LEVEL] + s2;
    assert body == BufferBytes(PROTOCOL_NAME) + s1;
    BufferRoundTrip(PROTOCOL_NAME, s1);
    Be16RoundTrip(p.keepAlive, s4);
    ConnectPayloadRoundTrip(p, rest);
  }

  /** Whatever follows a fixed header: only the name MQTT and the level 4 are accepted, and the
      flags and the keep-alive are taken from the eighth byte and the two behind it. */
  lemma ConnectAccepted(s: seq<Byte>, h: FixedHeader, t: seq<Byte>)
    requires ParseHeader(s) == Ok(h, t) && ParseConnect(s).Ok?
    ensures |t| >= 10 && t[..7] == [0, 4, 77, 81, 84, 84, 4]
    ensures ConnectFlagsRead(t[7], ParseConnect(s).value) && NumberAt(t, 8, ParseConnect(s).value.keepAlive)
  {
    hide ParseHeader, ParseConnectPayload;
    assert |t| >= 2;
    var n := t[0] as int * 256 + t[1] as int;
    BufferRead(t, n);
    assert 2 + n <= |t| && t[2..2 + n] == PROTOCOL_NAME;
    assert |t[2..2 + n]| == 4;
    assert t[..6] == [t[0], t[1]] + t[2..6];
    PayloadKeepsFlags(h, t, s);
  }

  /** Another name, and another level, are refused as what they are. */
  lemma ConnectRefused(s: seq<Byte>, h: FixedHeader, t: seq<Byte>, name: seq<Byte>)
    requires ParseHeader(s) == Ok(h, t) && FieldAt(t, 0, name)
    ensures name != [77, 81, 84, 84] ==> ParseConnect(s) == Err(UnsupportedProtocolName)
    ensures name == [77, 81, 84, 84] && |t| > 6 && t[6] != 4 ==> ParseConnect(s) == Err(UnsupportedProtocolLevel)
  {
    hide ParseHeader, ParseConnectPayload, ReadBuffer;
    BufferRead(t, |name|);
    if name == [77, 81, 84, 84] && |t| > 6 { assert t[6..][0] == t[6]; }
  }

  predicate ConnectFlagsRead(f: Byte, p: Connect) {
    && (f / 2 % 2 == 1 <==> p.cleanSession) && (f / 4 % 2 == 1 <==> p.hasWill) && f / 8 % 4 == p.willQos
    && (f / 32 % 2 == 1 <==> p.willRetain) && (f / 64 % 2 == 1 <==> p.hasPassword)
    && (f / 128 % 2 == 1 <==> p.hasUsername)
  }

  lemma PayloadKeepsFlags(h: FixedHeader, t: seq<Byte>, s: seq<Byte>)
    requires ParseHeader(s) == Ok(h, t) && |t| >= 6 && ReadBuffer(t) == Ok(PROTOCOL_NAME, t[6..])
    requires t[..6] == [0, 4, 77, 81, 84, 84]
    ensures ParseConnect(s).Ok? ==>
              && |t| >= 10 && t[..7] == [0, 4, 77, 81, 84, 84, 4]
              && ConnectFlagsRead(t[7], ParseConnect(s).value) && NumberAt(t, 8, ParseConnect(s).value.keepAlive)
  {
    hide ParseHeader, ReadBuffer;
    var u := t[6..];
    if |t| >= 10 {
      assert u[0] == t[6] && u[1..][0] == t[7] && u[1..][1..][0] == t[8] && u[1..][1..][1] == t[9];
      if t[6] == 4 { assert t[..7] == t[..6] + [t[6]]; }
    }
  }

  lemma ConnectPayloadRoundTrip(p: Connect, rest: seq<Byte>)
    requires ConnectFits(p) && ConnectClean(p)
    ensures ParseConnectPayload(p.header, ConnectFlags(p), p.keepAlive, ConnectPayload(p) + rest)
            == if p.hasPassword && !p.hasUsername then Err(InvalidCredentials) else Ok(p, rest)
  {
    hide BufferBytes, ReadBuffer, ConnectFlags, OptionalBytes, ReadOptional, ConnectPayload;
    FlagsRoundTrip(p);
    var s4 := OptionalBytes(p.hasPassword, p.password) + rest;
    var s3 := OptionalBytes(p.hasUsername, p.username) + s4;
    var s2 := OptionalBytes(p.hasWill, p.willMessage) + s3;
    var s1 := OptionalBytes(p.hasWill, p.willTopic) + s2;
    PayloadParts(p, rest);
    BufferRoundTrip(p.clientId, s1);
    OptionalRoundTrip(p.hasWill, p.willTopic, s2);
    OptionalRoundTrip(p.hasWill, p.willMessage, s3);
    OptionalRoundTrip(p.hasUsername, p.username, s4);
    OptionalRoundTrip(p.hasPassword, p.password, rest);
  }

  lemma OptionalRoundTrip(present: bool, data: seq<Byte>, rest: seq<Byte>)
    requires if present then |data| <= 65535 else data == []
    ensures ReadOptional(present, OptionalBytes(present, data) + rest) == Ok(data, rest)
  {
    if present { BufferRoundTrip(data, rest); } else { assert [] + rest == rest; }
  }

  lemma FlagsRoundTrip(p: Connect)
    requires p.willQos < 4
    ensures var f := ConnectFlags(p);
            && (f / 2 % 2 == 1 <==> p.cleanSession) && (f / 4 % 2 == 1 <==> p.hasWill) && f / 8 % 4 == p.willQos
            && (f / 32 % 2 == 1 <==> p.willRetain) && (f / 64 % 2 == 1 <==> p.hasPassword)
            && (f / 128 % 2 == 1 <==> p.hasUsername)
  {
    hide Bit, ConnectFlags;
    FlagsAre(p);
    BitIs(p.cleanSession);
    BitIs(p.hasWill);
    BitIs(p.willRetain);
    BitIs(p.hasPassword);
    BitIs(p.hasUsername);
    BitsOf(ConnectFlags(p), Bit(p.cleanSession), Bit(p.hasWill), p.willQos, Bit(p.willRetain),
           Bit(p.hasPassword), Bit(p.hasUsername));
  }

  lemma FlagsAre(p: Connect)
    requires p.willQos < 4
    ensures ConnectFlags(p) == Bit(p.cleanSession) * 2 + Bit(p.hasWill) * 4 + p.willQos * 8 + Bit(p.willRetain) * 32
                               + Bit(p.hasPassword) * 64 + Bit(p.hasUsername) * 128
  {
    hide Bit;
  }

  lemma BitIs(b: bool)
    ensures Bit(b) <= 1 && (Bit(b) == 1 <==> b)
  {
  }

  lemma BitsOf(f: nat, a: nat, b: nat, q: nat, c: nat, d: nat, e: nat)
    requires a <= 1 && b <= 1 && q < 4 && c <= 1 && d <= 1 && e <= 1
    requires f == a * 2 + b * 4 + q * 8 + c * 32 + d * 64 + e * 128
    ensures f / 2 % 2 == a && f / 4 % 2 == b && f / 8 % 4 == q && f / 32 % 2 == c && f / 64 % 2 == d && f / 128 % 2 == e
  {
    assert f / 2 == a + 2 * (b + 2 * q + 8 * c + 16 * d + 32 * e);
    assert f / 4 == b + 2 * (q + 4 * c + 8 * d + 16 * e);
    assert f / 8 == q + 4 * (c + 2 * d + 4 * e);
    assert f / 32 == c + 2 * (d + 2 * e);
    assert f / 64 == d + 2 * e;
  }

  /** aws_mqtt_packet_connect_decode. */
  method DecodeConnect(cur: Cursor) returns (r: Result<Connect>)
    modifies cur
    ensures Agrees(r, cur.rest, ParseConnect(old(cur.rest)))
  {
    hide ReadHeader, ReadBuffer, ParseConnectPayload;
    var header := DecodeHeader(cur);
    match header {
      case HeaderShort(_, _) => return Failure(ShortBuffer);
      case HeaderBad(e) => return Failure(e);
      case Header(h, _) =>
        var name := DecodeBuffer(cur);
        if name.Failure? { return Failure(ShortBuffer); }
        if name.value != PROTOCOL_NAME { return Failure(UnsupportedProtocolName); }
        var level := cur.Advance(1);
        if |level| == 0 { return Failure(ShortBuffer); }
        if level[0] != PROTOCOL_LEVEL { return Failure(UnsupportedProtocolLevel); }
        var flags := cur.ReadU8();
        if flags.None? { return Failure(ShortBuffer); }
        var keepAlive := cur.ReadBe16();
        if keepAlive.None? { return Failure(ShortBuffer); }
        r := DecodeConnectPayload(cur, h, flags.value, keepAlive.value);
    }
  }

  method DecodeConnectPayload(cur: Cursor, h: FixedHeader, flags: Byte, keepAlive: nat) returns (r: Result<Connect>)
    modifies cur
    ensures Agrees(r, cur.rest, ParseConnectPayload(h, flags, keepAlive, old(cur.rest)))
  {
    hide ReadBuffer;
    var p := Connect(h, flags / 2 % 2 == 1, flags / 4 % 2 == 1, flags / 32 % 2 == 1, flags / 64 % 2 == 1,
                     flags / 128 % 2 == 1, keepAlive, flags / 8 % 4, [], [], [], [], []);
    r := Success(p);
    var clientId := DecodeBuffer(cur);
    if clientId.Failure? { return Failure(clientId.error); }
    p := p.(clientId := clientId.value);
    if p.hasWill {
      var topic := DecodeBuffer(cur);
      if topic.Failure? { return Failure(topic.error); }
      var message := DecodeBuffer(cur);
      if message.Failure? { return Failure(message.error); }
      p := p.(willTopic := topic.value, willMessage := message.value);
    }
    if p.hasUsername {
      var username := DecodeBuffer(cur);
      if username.Failure? { return Failure(username.error); }
      p := p.(username := username.value);
    }
    if p.hasPassword {
      var password := DecodeBuffer(cur);
      if password.Failure? { return Failure(password.error); }
      p := p.(password := password.value);
    }
    if p.hasPassword && !p.hasUsername { return Failure(InvalidCredentials); }
    return Success(p);
  }

  // ----- PUBLISH -----

  datatype Publish = Publish(header: FixedHeader, topic: seq<Byte>, packetId: nat, payload: seq<Byte>)

  function QosOf(p: Publish): nat { p.header.flags / 2 % 4 }

  predicate PublishFits(p: Publish) {
    |p.topic| <= 65535 && p.packetId < 65536 && p.header.packetType < 16
  }

  /** The packet up to its payload. */
  function PublishStart(p: Publish): seq<Byte>
    requires PublishFits(p)
  {
    BufferBytes(p.topic) + (if QosOf(p) > 0 then Be16(p.packetId) else [])
  }

  function PublishHeaders(p: Publish): seq<Byte>
    requires PublishFits(p)
  {
    HeaderBytes(p.header) + PublishStart(p)
  }

  function PublishBytes(p: Publish): seq<Byte>
    requires PublishFits(p)
  {
    PublishHeaders(p) + p.payload
  }

  /** aws_mqtt_packet_publish_init: the running length is the size of what will be written,
      and the three flags can be read back. */
  function NewPublish(retain: bool, qos: nat, dup: bool, topic: seq<Byte>, packetId: nat,
                      payload: seq<Byte>): (p: Publish)
    requires qos < 3 && |topic| > 0
    ensures |topic| <= 65535 && packetId < 65536 ==>
              PublishFits(p) && p.header.remainingLength == |PublishStart(p)| + |payload|
    ensures p.header.packetType == PUBLISH && p.header.flags < 16
    ensures p.header.flags / 2 % 4 == qos == QosOf(p)
    ensures (p.header.flags % 2 == 1 <==> retain) && (p.header.flags / 8 == 1 <==> dup)
  {
    var flags := Bit(retain) + qos * 2 + Bit(dup) * 8;
    Publish(FixedHeader(PUBLISH, flags, 2 + |topic| + |payload| + (if qos > 0 then 2 else 0)), topic, packetId, payload)
  }

  /** aws_mqtt_packet_publish_encode_headers. */
  method EncodePublishHeaders(buf: ByteBuf, p: Publish) returns (error: Option<Error>)
    requires buf.Valid() && p.header.packetType < 16 && p.header.remainingLength < 0xFFFF_FFFF && p.packetId < 65536
    modifies buf
    ensures buf.Valid()
    ensures error.None? <==>
              FlagsAllowed(p.header) && PublishFits(p) && |old(buf.bytes)| + |PublishHeaders(p)| <= buf.capacity
    ensures error.None? ==> buf.bytes == old(buf.bytes) + PublishHeaders(p)
  {
    hide HeaderBytes, BufferBytes;
    error := EncodeHeader(buf, p.header);
    if error.Some? { return; }
    error := EncodeBuffer(buf, p.topic);
    if error.Some? { return; }
    if QosOf(p) > 0 {
      var ok := buf.Write(Be16(p.packetId));
      if !ok { return Some(ShortBuffer); }
    }
    assert buf.bytes == old(buf.bytes) + PublishHeaders(p);
  }

  /** aws_mqtt_packet_publish_encode. */
  method EncodePublish(buf: ByteBuf, p: Publish) returns (error: Option<Error>)
    requires buf.Valid() && p.header.packetType < 16 && p.header.remainingLength < 0xFFFF_FFFF && p.packetId < 65536
    modifies buf
    ensures buf.Valid()
    ensures error.None? <==>
              FlagsAllowed(p.header) && PublishFits(p) && |old(buf.bytes)| + |PublishBytes(p)| <= buf.capacity
    ensures error.None? ==> buf.bytes == old(buf.bytes) + PublishBytes(p)
    ensures error.None? && p.header.packetType == PUBLISH && p.header.flags < 16 ==>
              IsPublish(buf.bytes[|old(buf.bytes)|..], p)
  {
    hide PublishHeaders, PublishBytes, IsPublish;
    if PublishFits(p) { PublishWhole(p); }
    error := EncodePublishHeaders(buf, p);
    if error.Some? { return; }
    var ok := buf.Write(p.payload);
    if !ok { return Some(ShortBuffer); }
    assert buf.bytes == old(buf.bytes) + PublishBytes(p);
    assert buf.bytes[|old(buf.bytes)|..] == PublishBytes(p);
    if p.header.packetType == PUBLISH && p.header.flags < 16 { PublishLayout(p); }
  }

  lemma PublishWhole(p: Publish)
    requires PublishFits(p)
    ensures PublishBytes(p) == PublishHeaders(p) + p.payload
  {
  }

  /** The bytes of a PUBLISH. */
  predicate IsPublish(b: seq<Byte>, p: Publish) {
    var o := |HeaderBytes(FixedHeader(PUBLISH, 0, p.header.remainingLength))|;
    && HeaderAt(b, o, 48 + p.header.flags, p.header.remainingLength)
    && PublishAt(b, o, p.header.flags, p.topic, p.packetId, p.payload)
  }

  lemma PublishLayout(p: Publish)
    requires PublishFits(p) && p.header.packetType == PUBLISH && p.header.flags < 16
    ensures IsPublish(PublishBytes(p), p)
  {
    hide HeaderBytes, PublishStart, HeaderAt, PublishAt;
    var h, t := HeaderBytes(p.header), PublishStart(p);
    assert PublishBytes(p) == h + (t + p.payload) == h + t + p.payload;
    HeaderLayout(p.header, t + p.payload);
    SameHeaderSize(p.header);
    PublishBodyLayout(p, h);
  }

  lemma PublishBodyLayout(p: Publish, h: seq<Byte>)
    requires PublishFits(p)
    ensures PublishAt(h + PublishStart(p) + p.payload, |h|, p.header.flags, p.topic, p.packetId, p.payload)
  {
    hide BufferBytes, Be16, FieldAt, NumberAt;
    var t, d := BufferBytes(p.topic), p.payload;
    var b := h + PublishStart(p) + d;
    BufferSize(p.topic);
    if QosOf(p) > 0 {
      var id := Be16(p.packetId);
      assert b == h + t + (id + d);
      BufferLayout(p.topic, h, id + d);
      assert b == (h + t) + id + d;
      NumberLayout(p.packetId, h + t, d);
      assert b[|h| + |t| + 2..] == d;
    } else {
      assert b == h + t + d;
      BufferLayout(p.topic, h, d);
      assert b[|h| + |t|..] == d;
    }
  }

  lemma SameHeaderSize(h: FixedHeader)
    requires h.packetType < 16
    ensures forall t: nat | t < 16 :: |HeaderBytes(FixedHeader(t, 0, h.remainingLength))| == |HeaderBytes(h)|
  {
  }

  /** What aws_mqtt_packet_publish_decode reads: a size that does not match the packet, and
      an empty payload, are refused. */
  function ParsePublish(s: seq<Byte>): Parse<Publish> {
    var (h, s) :- ParseHeader(s);
    var (topic, s) :- ReadBuffer(s);
    var hasId := h.flags / 2 % 4 > 0;
    var (packetId, s) :- if hasId then ReadBe16From(s) else Ok(0, s);
    var size := h.remainingLength - (2 + |topic|) - (if hasId then 2 else 0);
    if 0 < size <= |s| then Ok(Publish(h, topic, packetId, s[..size]), s[size..]) else Err(ShortBuffer)
  }

  /** Section 3.3: the round trip works for every PUBLISH with a payload, and for no other.
      A packet without quality of service carries no identifier. */
  lemma PublishRoundTrip(p: Publish, rest: seq<Byte>)
    requires PublishFits(p) && GoodHeader(p.header) && p.header.packetType == PUBLISH
    requires p.header.remainingLength == |PublishStart(p)| + |p.payload|
    requires QosOf(p) == 0 ==> p.packetId == 0
    ensures ParsePublish(PublishBytes(p) + rest) == if p.payload != [] then Ok(p, rest) else Err(ShortBuffer)
  {
    hide HeaderBytes, ParseHeader, BufferBytes, ReadBuffer;
    var s3 := p.payload + rest;
    var s2 := (if QosOf(p) > 0 then Be16(p.packetId) else []) + s3;
    var s1 := BufferBytes(p.topic) + s2;
    assert PublishBytes(p) + rest == HeaderBytes(p.header) + s1;
    ParseHeaderBytes(p.header, s1);
    BufferRoundTrip(p.topic, s2);
    Be16RoundTrip(p.packetId, s3);
    assert s3[..|p.payload|] == p.payload && s3[|p.payload|..] == rest;
    if QosOf(p) == 0 { assert s2 == s3; }
  }

  /** 64-bit unsigned arithmetic. */
  const WORD := 0x1_0000_0000_0000_0000

  /** aws_mqtt_packet_publish_decode. The subtractions wrap around. */
  method DecodePublish(cur: Cursor) returns (r: Result<Publish>)
    requires |cur.rest| < 0x4000_0000_0000_0000
    modifies cur
    ensures Agrees(r, cur.rest, ParsePublish(old(cur.rest)))
  {
    hide ReadHeader, ReadBuffer;
    var header := DecodeHeader(cur);
    match header {
      case HeaderShort(_, _) => return Failure(ShortBuffer);
      case HeaderBad(e) => return Failure(e);
      case Header(h, _) =>
        var topic := DecodeBuffer(cur);
        if topic.Failure? { return Failure(topic.error); }
        var payloadSize := (h.remainingLength - (2 + |topic.value|)) % WORD;
        var packetId := 0;
        if h.flags / 2 % 4 > 0 {
          var id := cur.ReadBe16();
          if id.None? { return Failure(ShortBuffer); }
          packetId := id.value;
          payloadSize := (payloadSize - 2) % WORD;
        }
        ghost var s := cur.rest;
        WrappedSize(h.remainingLength, |topic.value|, h.flags / 2 % 4 > 0, |s|);
        var payload := cur.Advance(payloadSize);
        if |payload| == 0 { return Failure(ShortBuffer); }
        return Success(Publish(h, topic.value, packetId, payload));
    }
  }

  /** A difference that would be negative wraps to more than any cursor holds. */
  lemma WrappedSize(length: nat, topic: nat, hasId: bool, available: nat)
    requires length < WORD / 4 && topic < WORD / 4 && available < WORD / 2
    ensures var exact := length - (2 + topic) - (if hasId then 2 else 0);
            var w1 := (length - (2 + topic)) % WORD;
            var wrapped := if hasId then (w1 - 2) % WORD else w1;
            if exact >= 0 then wrapped == exact else wrapped > available
  {
  }

  // ----- acknowledgements -----

  datatype Ack = Ack(header: FixedHeader, packetId: nat)

  /** s_ack_init, and the flags that PUBREL adds. */
  function NewAck(packetType: nat, packetId: nat): Ack {
    Ack(FixedHeader(packetType, if packetType == PUBREL then 2 else 0, 2), packetId)
  }

  function AckBytes(a: Ack): seq<Byte>
    requires a.header.packetType < 16 && a.packetId < 65536
  {
    HeaderBytes(a.header) + Be16(a.packetId)
  }

  /** What aws_mqtt_packet_ack_decode reads. */
  function ParseAck(s: seq<Byte>): Parse<Ack> {
    var (h, s) :- ParseHeader(s);
    if h.flags != (if HasFlags(h.packetType) then 2 else 0) then Err(InvalidReservedBits)
    else
      var (packetId, s) :- ReadBe16From(s);
      Ok(Ack(h, packetId), s)
  }

  /** aws_mqtt_packet_ack_encode. */
  method EncodeAck(buf: ByteBuf, a: Ack) returns (error: Option<Error>)
    requires buf.Valid() && a.header.packetType < 16 && a.header.remainingLength < 0xFFFF_FFFF && a.packetId < 65536
    modifies buf
    ensures buf.Valid()
    ensures error.None? <==> FlagsAllowed(a.header) && |old(buf.bytes)| + |AckBytes(a)| <= buf.capacity
    ensures error.None? ==> buf.bytes == old(buf.bytes) + AckBytes(a)
  {
    hide HeaderBytes;
    error := EncodeHeader(buf, a.header);
    if error.Some? { return; }
    var ok := buf.Write(Be16(a.packetId));
    if !ok { return Some(ShortBuffer); }
    assert buf.bytes == old(buf.bytes) + AckBytes(a);
  }

  /** aws_mqtt_packet_ack_decode. */
  method DecodeAck(cur: Cursor) returns (r: Result<Ack>)
    modifies cur
    ensures Agrees(r, cur.rest, ParseAck(old(cur.rest)))
  {
    hide ReadHeader;
    var header := DecodeHeader(cur);
    match header {
      case HeaderShort(_, _) => return Failure(ShortBuffer);
      case HeaderBad(e) => return Failure(e);
      case Header(h, _) =>
        if h.flags != (if HasFlags(h.packetType) then 2 else 0) { return Failure(InvalidReservedBits); }
        var id := cur.ReadBe16();
        if id.None? { return Failure(ShortBuffer); }
        return Success(Ack(h, id.value));
    }
  }

  /** Every acknowledgement that the client makes reads back (sections 3.4 to 3.7, 3.9, 3.11). */
  lemma AckRoundTrip(packetType: nat, packetId: nat, rest: seq<Byte>)
    requires packetType in {PUBACK, PUBREC, PUBREL, PUBCOMP, SUBACK, UNSUBACK} && packetId < 65536
    ensures ParseAck(AckBytes(NewAck(packetType, packetId)) + rest) == Ok(NewAck(packetType, packetId), rest)
  {
    hide HeaderBytes, ParseHeader;
    var a := NewAck(packetType, packetId);
    assert AckBytes(a) + rest == HeaderBytes(a.header) + (Be16(packetId) + rest);
    ParseHeaderBytes(a.header, Be16(packetId) + rest);
    Be16RoundTrip(packetId, rest);
  }

  /** Four bytes, in numbers (tables 2.1 and 2.2 of the standard). */
  lemma AckLayout(packetType: nat, packetId: nat)
    requires packetType in {4, 5, 6, 7, 9, 11} && packetId < 65536
    ensures var b := AckBytes(NewAck(packetType, packetId));
            && |b| == 4 && b[0] == (if packetType == 6 then 98 else packetType * 16) && b[1] == 2
            && NumberAt(b, 2, packetId)
  {
    BigEndian(packetId, 0, 0, []);
    var b := AckBytes(NewAck(packetType, packetId));
    assert EncodeLength(2) == [2];
    assert b[2] == Be16(packetId)[0] && b[3] == Be16(packetId)[1];
  }

  /** An acknowledgement with any good header: read exactly when its flags are what its type demands. */
  lemma AckRead(h: FixedHeader, packetId: nat, rest: seq<Byte>)
    requires GoodHeader(h) && h.remainingLength <= 2 + |rest| && packetId < 65536
    ensures ParseAck(AckBytes(Ack(h, packetId)) + rest)
            == if h.flags == (if h.packetType in {3, 6, 8, 10} then 2 else 0) then Ok(Ack(h, packetId), rest)
               else Err(InvalidReservedBits)
  {
    hide HeaderBytes, ParseHeader;
    assert AckBytes(Ack(h, packetId)) + rest == HeaderBytes(h) + (Be16(packetId) + rest);
    ParseHeaderBytes(h, Be16(packetId) + rest);
    Be16RoundTrip(packetId, rest);
  }

  // ----- SUBSCRIBE -----

  datatype Subscription = Subscription(filter: seq<Byte>, qos: nat)

  predicate SubscriptionsFit(fs: seq<Subscription>) {
    forall i | 0 <= i < |fs| :: |fs[i].filter| <= 65535
  }

  function SubscriptionsBytes(fs: seq<Subscription>): seq<Byte>
    requires SubscriptionsFit(fs)
  {
    if fs == [] then []
    else SubscriptionsBytes(fs[..|fs| - 1]) + (BufferBytes(fs[|fs| - 1].filter) + [fs[|fs| - 1].qos % 4])
  }

  function SubscriptionsSize(fs: seq<Subscription>): nat {
    if fs == [] then 0 else SubscriptionsSize(fs[..|fs| - 1]) + |fs[|fs| - 1].filter| + 3
  }

  lemma {:induction false} SubscriptionsSizeIs(fs: seq<Subscription>)
    requires SubscriptionsFit(fs)
    ensures |SubscriptionsBytes(fs)| == SubscriptionsSize(fs)
  {
    if fs != [] { SubscriptionsSizeIs(fs[..|fs| - 1]); }
  }

  class SubscribePacket {
    var header: FixedHeader
    var packetId: nat
    var filters: seq<Subscription>

    /** The running length is the size of the packet behind its fixed header. */
    predicate Exact()
      reads this
    {
      header.packetType == SUBSCRIBE && header.flags == 2 && header.remainingLength == 2 + SubscriptionsSize(filters)
    }

    /** aws_mqtt_packet_subscribe_init. */
    constructor (packetId: nat)
      ensures Exact() && this.packetId == packetId && filters == []
    {
      header := FixedHeader(SUBSCRIBE, 2, 2);
      this.packetId := packetId;
      filters := [];
    }

    /** aws_mqtt_packet_subscribe_add_topic. */
    method AddTopic(filter: seq<Byte>, qos: nat)
      requires Exact()
      modifies this
      ensures Exact() && filters == old(filters) + [Subscription(filter, qos)] && packetId == old(packetId)
    {
      filters := filters + [Subscription(filter, qos)];
      assert filters[..|filters| - 1] == old(filters);
      header := header.(remainingLength := header.remainingLength + (2 + |filter|) + 1);
    }

    /** aws_mqtt_packet_subscribe_encode writes the whole packet exactly when every filter
        and the packet fit. Success alone does not say so: the results of the filters' own
        encoding are not looked at, and it is a success exactly when every QoS gets in. */
    method Encode(buf: ByteBuf) returns (error: Option<Error>)
      requires buf.Valid() && Exact() && header.remainingLength < 0xFFFF_FFFF && packetId < 65536
      modifies buf
      ensures buf.Valid()
      ensures var whole := |old(buf.bytes)| + |HeaderBytes(header)| + header.remainingLength;
              if SubscriptionsFit(filters) && whole <= buf.capacity
              then error.None? && buf.bytes == old(buf.bytes) + SubscribeBytes(header, packetId, filters)
              else error.Some? || |buf.bytes| < whole
      ensures var start := |old(buf.bytes)| + |HeaderBytes(header)| + 2;
              error.None? <==> start <= buf.capacity && Fill(filters, buf.capacity, start).Some?
    {
      hide HeaderBytes, BufferBytes, SubscriptionsBytes, SubscriptionsSize, Be16, Fill;
      error := EncodeHeader(buf, header);
      if error.Some? { return; }
      var ok := buf.Write(Be16(packetId));
      if !ok { return Some(ShortBuffer); }
      error := EncodeSubscriptions(buf, filters);
    }
  }

  /** How full a buffer is after the filters, or nothing when a byte for a QoS did not get in, which is
      the only failure that is looked at. */
  function Fill(fs: seq<Subscription>, capacity: nat, used: nat): Option<nat> {
    if fs == [] then Some(used)
    else
      match Fill(fs[..|fs| - 1], capacity, used)
      case None => None
      case Some(u) =>
        var after := FieldFill(|fs[|fs| - 1].filter|, capacity, u);
        if after + 1 <= capacity then Some(after + 1) else None
  }

  lemma FillMore(fs: seq<Subscription>, i: nat, capacity: nat, used: nat)
    requires i < |fs| && Fill(fs[..i], capacity, used).Some?
    ensures var after := FieldFill(|fs[i].filter|, capacity, Fill(fs[..i], capacity, used).value);
            Fill(fs[..i + 1], capacity, used) == if after + 1 <= capacity then Some(after + 1) else None
  {
    hide FieldFill;
    var fs' := fs[..i + 1];
    assert fs'[..i] == fs[..i] && fs'[i] == fs[i];
  }

  lemma {:induction false} FillFails(fs: seq<Subscription>, i: nat, capacity: nat, used: nat)
    requires i <= |fs| && Fill(fs[..i], capacity, used).None?
    ensures Fill(fs, capacity, used).None?
  {
    hide FieldFill;
    if i < |fs| {
      assert fs[..|fs| - 1][..i] == fs[..i];
      FillFails(fs[..|fs| - 1], i, capacity, used);
    } else {
      assert fs[..i] == fs;
    }
  }

  lemma NothingFilled(capacity: nat, used: nat)
    ensures Fill([], capacity, used) == Some(used)
  {
  }

  /** What has room is written whole. */
  lemma {:induction false} FillWhole(fs: seq<Subscription>, capacity: nat, used: nat)
    requires SubscriptionsFit(fs) && used + SubscriptionsSize(fs) <= capacity
    ensures Fill(fs, capacity, used) == Some(used + SubscriptionsSize(fs))
  {
    if fs != [] { FillWhole(fs[..|fs| - 1], capacity, used); }
  }

  method EncodeSubscriptions(buf: ByteBuf, filters: seq<Subscription>) returns (error: Option<Error>)
    requires buf.Valid()
    modifies buf
    ensures buf.Valid()
    ensures var whole := |old(buf.bytes)| + SubscriptionsSize(filters);
            if SubscriptionsFit(filters) && whole <= buf.capacity
            then error.None? && buf.bytes == old(buf.bytes) + SubscriptionsBytes(filters)
            else error.Some? || |buf.bytes| < whole
    ensures var fill := Fill(filters, buf.capacity, |old(buf.bytes)|);
            if error.None? then fill == Some(|buf.bytes|) else fill == None
  {
    hide BufferBytes, SubscriptionsBytes, SubscriptionsSize, SubscriptionsFit, Fill, FieldFill;
    ghost var start := buf.bytes;
    ghost var good := true;
    NoSubscriptions();
    NothingFilled(buf.capacity, |start|);
    assert filters[..0] == [];
    var i := 0;
    while i < |filters|
      invariant 0 <= i <= |filters| && buf.Valid()
      invariant good ==> SubscriptionsFit(filters[..i]) && buf.bytes == start + SubscriptionsBytes(filters[..i])
      invariant !good ==> |buf.bytes| < |start| + SubscriptionsSize(filters[..i])
      invariant SubscriptionsFit(filters) && |start| + SubscriptionsSize(filters) <= buf.capacity ==> good
      invariant Fill(filters[..i], buf.capacity, |start|) == Some(|buf.bytes|)
    {
      OneMoreSubscription(filters, i);
      FillMore(filters, i, buf.capacity, |start|);
      if good { SubscriptionsSizeIs(filters[..i]); }
      var ignored := EncodeBuffer(buf, filters[i].filter);
      ghost var middle := buf.bytes;
      var ok := buf.Write([filters[i].qos % 4]);
      if !ok {
        FillFails(filters, i + 1, buf.capacity, |start|);
        return Some(ShortBuffer);
      }
      good := good && ignored.None?;
      if good {
        var one := BufferBytes(filters[i].filter) + [filters[i].qos % 4];
        assert buf.bytes == start + (SubscriptionsBytes(filters[..i]) + one);
      }
      i := i + 1;
    }
    assert filters[..|filters|] == filters;
    if good { SubscriptionsSizeIs(filters); }
    return None;
  }

  function SubscribeBytes(h: FixedHeader, packetId: nat, fs: seq<Subscription>): seq<Byte>
    requires h.packetType < 16 && packetId < 65536 && SubscriptionsFit(fs)
  {
    HeaderBytes(h) + (Be16(packetId) + SubscriptionsBytes(fs))
  }

  lemma NoSubscriptions()
    ensures SubscriptionsFit([]) && SubscriptionsBytes([]) == [] && SubscriptionsSize([]) == 0
  {
  }

  lemma OneMoreSubscription(fs: seq<Subscription>, i: nat)
    requires i < |fs|
    ensures SubscriptionsSize(fs[..i + 1]) == SubscriptionsSize(fs[..i]) + |fs[i].filter| + 3
    ensures SubscriptionsSize(fs[..i + 1]) <= SubscriptionsSize(fs)
    ensures SubscriptionsFit(fs) ==> |fs[i].filter| <= 65535
    ensures SubscriptionsFit(fs[..i]) && |fs[i].filter| <= 65535 ==>
              (SubscriptionsFit(fs[..i + 1])
               && SubscriptionsBytes(fs[..i + 1]) == SubscriptionsBytes(fs[..i])
                  + (BufferBytes(fs[i].filter) + [fs[i].qos % 4]))
  {
    hide BufferBytes, SubscriptionsBytes, SubscriptionsSize;
    var fs' := fs[..i + 1];
    assert fs'[..i] == fs[..i] && fs'[i] == fs[i];
    LastSubscription(fs');
    SizeOfPrefix(fs, i + 1);
  }

  lemma {:induction false} SizeOfPrefix(fs: seq<Subscription>, i: nat)
    requires i <= |fs|
    ensures SubscriptionsSize(fs[..i]) <= SubscriptionsSize(fs)
  {
    if i < |fs| {
      SizeOfPrefix(fs[..|fs| - 1], i);
      assert fs[..|fs| - 1][..i] == fs[..i];
    } else {
      assert fs[..i] == fs;
    }
  }

  datatype Subscribe = Subscribe(header: FixedHeader, packetId: nat, filters: seq<Subscription>)

  /** What aws_mqtt_packet_subscribe_decode reads. The length still to go is taken down by
      each filter, and wraps around if that is too much. */
  function ParseSubscribe(s: seq<Byte>): Parse<Subscribe> {
    var (h, s) :- ParseHeader(s);
    var (packetId, s) :- ReadBe16From(s);
    var (fs, s) :- ParseSubscriptions(s, (h.remainingLength - 2) % WORD);
    Ok(Subscribe(h, packetId, fs), s)
  }

  function ParseSubscriptions(s: seq<Byte>, remaining: nat): Parse<seq<Subscription>>
    decreases |s|
  {
    if remaining == 0 then Ok([], s)
    else
      var (f, s1) :- ParseSubscription(s);
      var (fs, s2) :- ParseSubscriptions(s1, (remaining - (2 + |f.filter| + 1)) % WORD);
      Ok([f] + fs, s2)
  }

  function ParseSubscription(s: seq<Byte>): (r: Parse<Subscription>)
    ensures r.Ok? ==> |r.rest| < |s| && r.value.qos < 3
  {
    var (filter, s) :- ReadBuffer(s);
    var (qos, s) :- ReadU8From(s);
    if qos / 4 != 0 then Err(InvalidReservedBits)
    else if qos == 3 then Err(InvalidQoS)
    else Ok(Subscription(filter, qos), s)
  }

  ghost function Prepend<T>(acc: seq<T>, p: Parse<seq<T>>): Parse<seq<T>> {
    match p
    case Ok(fs, rest) => Ok(acc + fs, rest)
    case Err(e) => Err(e)
  }

  lemma PrependEmpty<T>(p: Parse<seq<T>>)
    ensures Prepend([], p) == p
  {
    if p.Ok? { assert [] + p.value == p.value; }
  }

  lemma PrependOne<T>(acc: seq<T>, f: T, p: Parse<seq<T>>)
    ensures Prepend(acc, Prepend([f], p)) == Prepend(acc + [f], p)
  {
    if p.Ok? { assert acc + ([f] + p.value) == acc + [f] + p.value; }
  }

  lemma ParseSubscriptionsStep(s: seq<Byte>, remaining: nat, acc: seq<Subscription>)
    requires remaining != 0
    ensures match ParseSubscription(s)
            case Ok(f, s1) => Prepend(acc, ParseSubscriptions(s, remaining))
                              == Prepend(acc + [f], ParseSubscriptions(s1, (remaining - (2 + |f.filter| + 1)) % WORD))
            case Err(e) => Prepend(acc, ParseSubscriptions(s, remaining)) == Err(e)
  {
    hide ParseSubscription;
    match ParseSubscription(s)
    case Ok(f, s1) =>
      var p := ParseSubscriptions(s1, (remaining - (2 + |f.filter| + 1)) % WORD);
      assert ParseSubscriptions(s, remaining) == Prepend([f], p);
      PrependOne(acc, f, p);
    case Err(_) =>
  }

  /** aws_mqtt_packet_subscribe_decode. Every round of the loop consumes bytes, so it ends on
      every input, even when the length to go never comes out at zero. */
  method DecodeSubscribe(cur: Cursor) returns (r: Result<Subscribe>)
    modifies cur
    ensures Agrees(r, cur.rest, ParseSubscribe(old(cur.rest)))
  {
    hide ReadHeader, ParseSubscriptions;
    var header := DecodeHeader(cur);
    match header {
      case HeaderShort(_, _) => return Failure(ShortBuffer);
      case HeaderBad(e) => return Failure(e);
      case Header(h, _) =>
        var id := cur.ReadBe16();
        if id.None? { return Failure(ShortBuffer); }
        var fs := DecodeSubscriptions(cur, (h.remainingLength - 2) % WORD);
        if fs.Failure? { return Failure(fs.error); }
        return Success(Subscribe(h, id.value, fs.value));
    }
  }

  method DecodeSubscriptions(cur: Cursor, length: nat) returns (r: Result<seq<Subscription>>)
    modifies cur
    ensures Agrees(r, cur.rest, ParseSubscriptions(old(cur.rest), length))
  {
    hide ParseSubscriptions, Prepend;
    var fs: seq<Subscription>, remaining: nat := [], length;
    ghost var want := ParseSubscriptions(cur.rest, length);
    PrependEmpty(want);
    while remaining != 0
      invariant want == Prepend(fs, ParseSubscriptions(cur.rest, remaining))
      decreases |cur.rest|
    {
      ParseSubscriptionsStep(cur.rest, remaining, fs);
      var filter := DecodeBuffer(cur);
      if filter.Failure? { return Failure(filter.error); }
      var qos := cur.ReadU8();
      if qos.None? { return Failure(ShortBuffer); }
      if qos.value / 4 != 0 { return Failure(InvalidReservedBits); }
      if qos.value == 3 { return Failure(InvalidQoS); }
      fs := fs + [Subscription(filter.value, qos.value)];
      remaining := (remaining - (2 + |filter.value| + 1)) % WORD;
    }
    ParsedAll(cur.rest, fs);
    return Success(fs);
  }

  lemma ParsedAll(s: seq<Byte>, fs: seq<Subscription>)
    ensures Prepend(fs, ParseSubscriptions(s, 0)) == Ok(fs, s)
  {
    assert fs + [] == fs;
  }

  predicate QosValid(fs: seq<Subscription>) {
    forall i | 0 <= i < |fs| :: fs[i].qos < 3
  }

  /** Section 3.8: any number of filters, exactly when every QoS is a valid one. */
  lemma SubscribeRoundTrip(h: FixedHeader, packetId: nat, fs: seq<Subscription>, rest: seq<Byte>)
    requires GoodHeader(h) && h.packetType == SUBSCRIBE && h.remainingLength == 2 + SubscriptionsSize(fs)
    requires packetId < 65536 && SubscriptionsFit(fs)
    ensures ParseSubscribe(SubscribeBytes(h, packetId, fs) + rest) == Ok(Subscribe(h, packetId, fs), rest) <==>
            QosValid(fs)
  {
    hide HeaderBytes, ParseHeader, SubscriptionsBytes, SubscriptionsSize, SubscriptionsFit, QosValid,
         ParseSubscriptions, ReadBe16From, Be16;
    var s2 := SubscriptionsBytes(fs) + rest;
    var s1 := Be16(packetId) + s2;
    SubscriptionsSizeIs(fs);
    assert SubscribeBytes(h, packetId, fs) + rest == HeaderBytes(h) + s1;
    ParseHeaderBytes(h, s1);
    Be16RoundTrip(packetId, s2);
    if QosValid(fs) { SubscriptionsRoundTrip(fs, rest); }
    OnlyValidQosIsRead(s2, SubscriptionsSize(fs));
  }

  lemma {:induction false} OnlyValidQosIsRead(s: seq<Byte>, remaining: nat)
    ensures ParseSubscriptions(s, remaining).Ok? ==> QosValid(ParseSubscriptions(s, remaining).value)
    decreases |s|
  {
    hide ParseSubscription;
    if remaining != 0 {
      match ParseSubscription(s)
      case Ok(f, s1) => OnlyValidQosIsRead(s1, (remaining - (2 + |f.filter| + 1)) % WORD);
      case Err(_) =>
    }
  }

  /** The byte behind a filter: more than two bits are reserved, and 3 is no QoS. */
  lemma SubscriptionRead(filter: seq<Byte>, qos: Byte, rest: seq<Byte>)
    requires |filter| <= 65535
    ensures ParseSubscription(BufferBytes(filter) + ([qos] + rest))
            == if qos >= 4 then Err(InvalidReservedBits)
               else if qos == 3 then Err(InvalidQoS)
               else Ok(Subscription(filter, qos), rest)
  {
    hide BufferBytes, ReadBuffer;
    var s1: seq<Byte> := [qos] + rest;
    BufferRoundTrip(filter, s1);
    assert s1[1..] == rest;
  }

  /** The bytes of a SUBSCRIBE: the identifier, then each filter with the byte of its QoS behind it. */
  predicate IsSubscribe(b: seq<Byte>, h: FixedHeader, packetId: nat, fs: seq<Subscription>) {
    var o := |HeaderBytes(FixedHeader(SUBSCRIBE, 2, h.remainingLength))|;
    && HeaderAt(b, o, 130, h.remainingLength) && NumberAt(b, o, packetId)
    && |b| == o + 2 + SubscriptionsSize(fs)
    && forall k | 0 <= k < |fs| :: SubscriptionAt(b, o + 2 + SubscriptionsSize(fs[..k]), fs[k])
  }

  predicate SubscriptionAt(b: seq<Byte>, i: nat, f: Subscription) {
    FieldAt(b, i, f.filter) && i + 2 + |f.filter| < |b| && b[i + 2 + |f.filter|] as int == f.qos % 4
  }

  lemma SubscribeLayout(h: FixedHeader, packetId: nat, fs: seq<Subscription>)
    requires h.packetType == SUBSCRIBE && h.flags == 2 && packetId < 65536 && SubscriptionsFit(fs)
    ensures IsSubscribe(SubscribeBytes(h, packetId, fs), h, packetId, fs)
  {
    hide HeaderBytes, Be16, SubscriptionsBytes, SubscriptionsSize, HeaderAt, NumberAt, SubscriptionAt;
    var a, id, d := HeaderBytes(h), Be16(packetId), SubscriptionsBytes(fs);
    var b := SubscribeBytes(h, packetId, fs);
    assert b == a + (id + d) == a + id + d;
    HeaderLayout(h, id + d);
    NumberLayout(packetId, a, d);
    SubscriptionsSizeIs(fs);
    assert h == FixedHeader(SUBSCRIBE, 2, h.remainingLength);
    forall k | 0 <= k < |fs| ensures SubscriptionAt(b, |a| + 2 + SubscriptionsSize(fs[..k]), fs[k]) {
      SubscriptionLayout(fs, k, a + id);
    }
  }

  lemma {:induction false} SubscriptionLayout(fs: seq<Subscription>, k: nat, before: seq<Byte>)
    requires SubscriptionsFit(fs) && k < |fs|
    ensures SubscriptionAt(before + SubscriptionsBytes(fs), |before| + SubscriptionsSize(fs[..k]), fs[k])
    decreases |fs|
  {
    hide BufferBytes, SubscriptionsBytes, SubscriptionsSize, FieldAt;
    var n := |fs| - 1;
    var init, f := SubscriptionsBytes(fs[..n]), fs[n];
    LastSubscription(fs);
    SubscriptionsSizeIs(fs[..n]);
    var q: seq<Byte> := [f.qos % 4];
    var b := before + SubscriptionsBytes(fs);
    if k == n {
      BufferLayout(f.filter, before + init, q);
      BufferSize(f.filter);
      assert b == before + init + BufferBytes(f.filter) + q;
    } else {
      SubscriptionLayout(fs[..n], k, before);
      assert fs[..n][..k] == fs[..k] && fs[..n][k] == fs[k];
      assert b == (before + init) + (BufferBytes(f.filter) + q);
      SubscriptionStays(before + init, BufferBytes(f.filter) + q, |before| + SubscriptionsSize(fs[..k]), fs[k]);
    }
  }

  lemma SubscriptionStays(b: seq<Byte>, more: seq<Byte>, i: nat, f: Subscription)
    requires SubscriptionAt(b, i, f)
    ensures SubscriptionAt(b + more, i, f)
  {
    var j, n := i + 2, |f.filter|;
    assert (b + more)[j..j + n] == b[j..j + n];
  }

  lemma OneSubscription(f: Subscription, rest: seq<Byte>)
    requires |f.filter| <= 65535 && f.qos < 3
    ensures ParseSubscription(BufferBytes(f.filter) + ([f.qos % 4] + rest)) == Ok(f, rest)
  {
    hide BufferBytes, ReadBuffer;
    var s1: seq<Byte> := [f.qos % 4] + rest;
    BufferRoundTrip(f.filter, s1);
    assert s1[1..] == rest;
  }

  lemma {:induction false} SubscriptionsRoundTrip(fs: seq<Subscription>, rest: seq<Byte>)
    requires SubscriptionsFit(fs) && SubscriptionsSize(fs) < WORD && QosValid(fs)
    ensures ParseSubscriptions(SubscriptionsBytes(fs) + rest, SubscriptionsSize(fs)) == Ok(fs, rest)
  {
    hide BufferBytes, ReadBuffer, SubscriptionsBytes, SubscriptionsSize, ParseSubscription;
    NoSubscriptions();
    if fs == [] {
      assert SubscriptionsBytes(fs) + rest == rest;
    } else {
      var f, tail := fs[0], fs[1..];
      FirstSubscription(fs);
      var s1 := SubscriptionsBytes(tail) + rest;
      assert SubscriptionsBytes(fs) + rest == BufferBytes(f.filter) + ([f.qos % 4] + s1);
      OneSubscription(f, s1);
      SubscriptionsRoundTrip(tail, rest);
      assert [f] + tail == fs;
    }
  }

  lemma {:induction false} FirstSubscription(fs: seq<Subscription>)
    requires SubscriptionsFit(fs) && fs != []
    ensures SubscriptionsFit(fs[1..])
    ensures SubscriptionsBytes(fs) == BufferBytes(fs[0].filter) + [fs[0].qos % 4] + SubscriptionsBytes(fs[1..])
    ensures SubscriptionsSize(fs) == |fs[0].filter| + 3 + SubscriptionsSize(fs[1..])
  {
    hide BufferBytes, SubscriptionsBytes, SubscriptionsSize;
    var n := |fs| - 1;
    LastSubscription(fs);
    if n > 0 {
      FirstSubscription(fs[..n]);
      LastSubscription(fs[1..]);
      assert fs[..n][1..] == fs[1..][..n - 1];
    } else {
      NoSubscriptions();
      assert fs[..0] == [] && fs[1..] == [];
    }
  }

  lemma LastSubscription(fs: seq<Subscription>)
    requires fs != []
    ensures var n := |fs| - 1;
            SubscriptionsSize(fs) == SubscriptionsSize(fs[..n]) + |fs[n].filter| + 3
            && (SubscriptionsFit(fs) ==>
                  SubscriptionsBytes(fs) == SubscriptionsBytes(fs[..n]) + (BufferBytes(fs[n].filter) + [fs[n].qos % 4]))
  {
    hide BufferBytes;
  }

  // ----- UNSUBSCRIBE -----

  predicate FiltersFit(fs: seq<seq<Byte>>) {
    forall i | 0 <= i < |fs| :: |fs[i]| <= 65535
  }

  function FiltersBytes(fs: seq<seq<Byte>>): seq<Byte>
    requires FiltersFit(fs)
  {
    if fs == [] then [] else FiltersBytes(fs[..|fs| - 1]) + BufferBytes(fs[|fs| - 1])
  }

  function FiltersSize(fs: seq<seq<Byte>>): nat {
    if fs == [] then 0 else FiltersSize(fs[..|fs| - 1]) + |fs[|fs| - 1]| + 2
  }

  lemma {:induction false} FiltersSizeIs(fs: seq<seq<Byte>>)
    requires FiltersFit(fs)
    ensures |FiltersBytes(fs)| == FiltersSize(fs)
  {
    if fs != [] { FiltersSizeIs(fs[..|fs| - 1]); }
  }

  function UnsubscribeBytes(h: FixedHeader, packetId: nat, fs: seq<seq<Byte>>): seq<Byte>
    requires h.packetType < 16 && packetId < 65536 && FiltersFit(fs)
  {
    HeaderBytes(h) + (Be16(packetId) + FiltersBytes(fs))
  }

  class UnsubscribePacket {
    var header: FixedHeader
    var packetId: nat
    var filters: seq<seq<Byte>>

    predicate Exact()
      reads this
    {
      header.packetType == UNSUBSCRIBE && header.flags == 2 && header.remainingLength == 2 + FiltersSize(filters)
    }

    /** aws_mqtt_packet_unsubscribe_init. */
    constructor (packetId: nat)
      ensures Exact() && this.packetId == packetId && filters == []
    {
      header := FixedHeader(UNSUBSCRIBE, 2, 2);
      this.packetId := packetId;
      filters := [];
    }

    /** aws_mqtt_packet_unsubscribe_add_topic. */
    method AddTopic(filter: seq<Byte>)
      requires Exact()
      modifies this
      ensures Exact() && filters == old(filters) + [filter] && packetId == old(packetId)
    {
      filters := filters + [filter];
      assert filters[..|filters| - 1] == old(filters);
      header := header.(remainingLength := header.remainingLength + (2 + |filter|));
    }

    /** aws_mqtt_packet_unsubscribe_encode reports success as soon as the identifier fits,
        and writes the whole packet exactly when every filter and the packet fit. */
    method Encode(buf: ByteBuf) returns (error: Option<Error>)
      requires buf.Valid() && Exact() && header.remainingLength < 0xFFFF_FFFF && packetId < 65536
      modifies buf
      ensures buf.Valid()
      ensures error.None? <==> |old(buf.bytes)| + |HeaderBytes(header)| + 2 <= buf.capacity
      ensures var whole := |old(buf.bytes)| + |HeaderBytes(header)| + header.remainingLength;
              if FiltersFit(filters) && whole <= buf.capacity
              then buf.bytes == old(buf.bytes) + UnsubscribeBytes(header, packetId, filters)
              else error.Some? || |buf.bytes| < whole
    {
      hide HeaderBytes, BufferBytes, FiltersBytes, FiltersSize, Be16;
      error := EncodeHeader(buf, header);
      if error.Some? { return; }
      var ok := buf.Write(Be16(packetId));
      if !ok { return Some(ShortBuffer); }
      EncodeFilters(buf, filters);
    }
  }

  method EncodeFilters(buf: ByteBuf, filters: seq<seq<Byte>>)
    requires buf.Valid()
    modifies buf
    ensures buf.Valid()
    ensures var whole := |old(buf.bytes)| + FiltersSize(filters);
            if FiltersFit(filters) && whole <= buf.capacity
            then buf.bytes == old(buf.bytes) + FiltersBytes(filters)
            else |buf.bytes| < whole
  {
    hide BufferBytes, FiltersBytes, FiltersSize;
    ghost var start := buf.bytes;
    ghost var good := true;
    NoFilters();
    assert filters[..0] == [];
    var i := 0;
    while i < |filters|
      invariant 0 <= i <= |filters| && buf.Valid()
      invariant good ==> FiltersFit(filters[..i]) && buf.bytes == start + FiltersBytes(filters[..i])
      invariant !good ==> |buf.bytes| < |start| + FiltersSize(filters[..i])
      invariant FiltersFit(filters) && |start| + FiltersSize(filters) <= buf.capacity ==> good
    {
      OneMoreFilter(filters, i);
      if good { FiltersSizeIs(filters[..i]); }
      var ignored := EncodeBuffer(buf, filters[i]);
      good := good && ignored.None?;
      if good {
        assert buf.bytes == start + (FiltersBytes(filters[..i]) + BufferBytes(filters[i]));
      }
      i := i + 1;
    }
    assert filters[..|filters|] == filters;
    if good { FiltersSizeIs(filters); }
  }

  lemma NoFilters()
    ensures FiltersBytes([]) == [] && FiltersSize([]) == 0
  {
  }

  lemma OneMoreFilter(fs: seq<seq<Byte>>, i: nat)
    requires i < |fs|
    ensures FiltersSize(fs[..i + 1]) == FiltersSize(fs[..i]) + |fs[i]| + 2
    ensures FiltersSize(fs[..i + 1]) <= FiltersSize(fs)
    ensures FiltersFit(fs[..i]) && |fs[i]| <= 65535 ==>
              FiltersFit(fs[..i + 1]) && FiltersBytes(fs[..i + 1]) == FiltersBytes(fs[..i]) + BufferBytes(fs[i])
  {
    hide BufferBytes, FiltersBytes, FiltersSize;
    var fs' := fs[..i + 1];
    assert fs'[..i] == fs[..i] && fs'[i] == fs[i];
    LastFilter(fs');
    FiltersSizeOfPrefix(fs, i + 1);
  }

  lemma {:induction false} FiltersSizeOfPrefix(fs: seq<seq<Byte>>, i: nat)
    requires i <= |fs|
    ensures FiltersSize(fs[..i]) <= FiltersSize(fs)
  {
    if i < |fs| {
      FiltersSizeOfPrefix(fs[..|fs| - 1], i);
      assert fs[..|fs| - 1][..i] == fs[..i];
    } else {
      assert fs[..i] == fs;
    }
  }

  datatype Unsubscribe = Unsubscribe(header: FixedHeader, packetId: nat, filters: seq<seq<Byte>>)

  /** What aws_mqtt_packet_unsubscribe_decode reads. */
  function ParseUnsubscribe(s: seq<Byte>): Parse<Unsubscribe> {
    var (h, s) :- ParseHeader(s);
    var (packetId, s) :- ReadBe16From(s);
    var (fs, s) :- ParseFilters(s, (h.remainingLength - 2) % WORD);
    Ok(Unsubscribe(h, packetId, fs), s)
  }

  function ParseFilters(s: seq<Byte>, remaining: nat): Parse<seq<seq<Byte>>>
    decreases |s|
  {
    if remaining == 0 then Ok([], s)
    else
      var (f, s1) :- ReadBuffer(s);
      var (fs, s2) :- ParseFilters(s1, (remaining - (2 + |f|)) % WORD);
      Ok([f] + fs, s2)
  }

  lemma ParseFiltersStep(s: seq<Byte>, remaining: nat, acc: seq<seq<Byte>>)
    requires remaining != 0
    ensures match ReadBuffer(s)
            case Ok(f, s1) => Prepend(acc, ParseFilters(s, remaining))
                              == Prepend(acc + [f], ParseFilters(s1, (remaining - (2 + |f|)) % WORD))
            case Err(e) => Prepend(acc, ParseFilters(s, remaining)) == Err(e)
  {
    hide ReadBuffer;
    match ReadBuffer(s)
    case Ok(f, s1) =>
      var p := ParseFilters(s1, (remaining - (2 + |f|)) % WORD);
      assert ParseFilters(s, remaining) == Prepend([f], p);
      PrependOne(acc, f, p);
    case Err(_) =>
  }

  /** aws_mqtt_packet_unsubscribe_decode. */
  method DecodeUnsubscribe(cur: Cursor) returns (r: Result<Unsubscribe>)
    modifies cur
    ensures Agrees(r, cur.rest, ParseUnsubscribe(old(cur.rest)))
  {
    hide ReadHeader, ParseFilters;
    var header := DecodeHeader(cur);
    match header {
      case HeaderShort(_, _) => return Failure(ShortBuffer);
      case HeaderBad(e) => return Failure(e);
      case Header(h, _) =>
        var id := cur.ReadBe16();
        if id.None? { return Failure(ShortBuffer); }
        var fs := DecodeFilters(cur, (h.remainingLength - 2) % WORD);
        if fs.Failure? { return Failure(fs.error); }
        return Success(Unsubscribe(h, id.value, fs.value));
    }
  }

  method DecodeFilters(cur: Cursor, length: nat) returns (r: Result<seq<seq<Byte>>>)
    modifies cur
    ensures Agrees(r, cur.rest, ParseFilters(old(cur.rest), length))
  {
    hide ParseFilters, Prepend, ReadBuffer;
    var fs: seq<seq<Byte>>, remaining: nat := [], length;
    ghost var want := ParseFilters(cur.rest, length);
    PrependEmpty(want);
    while remaining != 0
      invariant want == Prepend(fs, ParseFilters(cur.rest, remaining))
      decreases |cur.rest|
    {
      ParseFiltersStep(cur.rest, remaining, fs);
      var filter := DecodeBuffer(cur);
      if filter.Failure? { return Failure(filter.error); }
      fs := fs + [filter.value];
      remaining := (remaining - (2 + |filter.value|)) % WORD;
    }
    ParsedAllFilters(cur.rest, fs);
    return Success(fs);
  }

  lemma ParsedAllFilters(s: seq<Byte>, fs: seq<seq<Byte>>)
    ensures Prepend(fs, ParseFilters(s, 0)) == Ok(fs, s)
  {
    assert fs + [] == fs;
  }

  /** Section 3.10: any number of filters. */
  lemma UnsubscribeRoundTrip(h: FixedHeader, packetId: nat, fs: seq<seq<Byte>>, rest: seq<Byte>)
    requires GoodHeader(h) && h.packetType == UNSUBSCRIBE && h.remainingLength == 2 + FiltersSize(fs)
    requires packetId < 65536 && FiltersFit(fs)
    ensures ParseUnsubscribe(UnsubscribeBytes(h, packetId, fs) + rest) == Ok(Unsubscribe(h, packetId, fs), rest)
  {
    hide HeaderBytes, ParseHeader, FiltersBytes, FiltersSize, ParseFilters, ReadBe16From, Be16;
    var s2 := FiltersBytes(fs) + rest;
    var s1 := Be16(packetId) + s2;
    FiltersSizeIs(fs);
    assert UnsubscribeBytes(h, packetId, fs) + rest == HeaderBytes(h) + s1;
    ParseHeaderBytes(h, s1);
    Be16RoundTrip(packetId, s2);
    FiltersRoundTrip(fs, rest);
  }

  lemma {:induction false} FiltersRoundTrip(fs: seq<seq<Byte>>, rest: seq<Byte>)
    requires FiltersFit(fs) && FiltersSize(fs) < WORD
    ensures ParseFilters(FiltersBytes(fs) + rest, FiltersSize(fs)) == Ok(fs, rest)
  {
    hide BufferBytes, ReadBuffer;
    if fs == [] {
      assert FiltersBytes(fs) + rest == rest;
    } else {
      var f, tail := fs[0], fs[1..];
      FirstFilter(fs);
      var s1 := FiltersBytes(tail) + rest;
      assert FiltersBytes(fs) + rest == BufferBytes(f) + s1;
      BufferRoundTrip(f, s1);
      FiltersRoundTrip(tail, rest);
      assert [f] + tail == fs;
    }
  }

  lemma {:induction false} FirstFilter(fs: seq<seq<Byte>>)
    requires FiltersFit(fs) && fs != []
    ensures FiltersFit(fs[1..])
    ensures FiltersBytes(fs) == BufferBytes(fs[0]) + FiltersBytes(fs[1..])
    ensures FiltersSize(fs) == |fs[0]| + 2 + FiltersSize(fs[1..])
  {
    hide BufferBytes, FiltersBytes, FiltersSize;
    var n := |fs| - 1;
    LastFilter(fs);
    if n > 0 {
      FirstFilter(fs[..n]);
      LastFilter(fs[1..]);
      assert fs[..n][1..] == fs[1..][..n - 1];
    } else {
      NoFilters();
      assert fs[..0] == [] && fs[1..] == [];
    }
  }

  lemma LastFilter(fs: seq<seq<Byte>>)
    requires fs != []
    ensures var n := |fs| - 1;
            FiltersSize(fs) == FiltersSize(fs[..n]) + |fs[n]| + 2
            && (FiltersFit(fs) ==> FiltersBytes(fs) == FiltersBytes(fs[..n]) + BufferBytes(fs[n]))
  {
    hide BufferBytes;
  }

  /** The bytes of an UNSUBSCRIBE: the identifier and the filters. */
  predicate IsUnsubscribe(b: seq<Byte>, h: FixedHeader, packetId: nat, fs: seq<seq<Byte>>) {
    var o := |HeaderBytes(FixedHeader(UNSUBSCRIBE, 2, h.remainingLength))|;
    && HeaderAt(b, o, 162, h.remainingLength) && NumberAt(b, o, packetId)
    && |b| == o + 2 + FiltersSize(fs)
    && forall k | 0 <= k < |fs| :: FieldAt(b, o + 2 + FiltersSize(fs[..k]), fs[k])
  }

  lemma UnsubscribeLayout(h: FixedHeader, packetId: nat, fs: seq<seq<Byte>>)
    requires h.packetType == UNSUBSCRIBE && h.flags == 2 && packetId < 65536 && FiltersFit(fs)
    ensures IsUnsubscribe(UnsubscribeBytes(h, packetId, fs), h, packetId, fs)
  {
    hide HeaderBytes, Be16, FiltersBytes, FiltersSize, HeaderAt, NumberAt, FieldAt;
    var a, id, d := HeaderBytes(h), Be16(packetId), FiltersBytes(fs);
    var b := UnsubscribeBytes(h, packetId, fs);
    assert b == a + (id + d) == a + id + d;
    HeaderLayout(h, id + d);
    NumberLayout(packetId, a, d);
    FiltersSizeIs(fs);
    assert h == FixedHeader(UNSUBSCRIBE, 2, h.remainingLength);
    forall k | 0 <= k < |fs| ensures FieldAt(b, |a| + 2 + FiltersSize(fs[..k]), fs[k]) {
      FilterLayout(fs, k, a + id);
    }
  }

  lemma {:induction false} FilterLayout(fs: seq<seq<Byte>>, k: nat, before: seq<Byte>)
    requires FiltersFit(fs) && k < |fs|
    ensures FieldAt(before + FiltersBytes(fs), |before| + FiltersSize(fs[..k]), fs[k])
    decreases |fs|
  {
    hide BufferBytes, FiltersBytes, FiltersSize, FieldAt;
    var n := |fs| - 1;
    var init := FiltersBytes(fs[..n]);
    LastFilter(fs);
    FiltersSizeIs(fs[..n]);
    var b := before + FiltersBytes(fs);
    if k == n {
      BufferLayout(fs[n], before + init, []);
      assert b == before + init + BufferBytes(fs[n]) + [];
    } else {
      FilterLayout(fs[..n], k, before);
      assert fs[..n][..k] == fs[..k] && fs[..n][k] == fs[k];
      assert b == (before + init) + BufferBytes(fs[n]);
      FieldStays(before + init, BufferBytes(fs[n]), |before| + FiltersSize(fs[..k]), fs[k]);
    }
  }

  lemma FieldStays(b: seq<Byte>, more: seq<Byte>, i: nat, data: seq<Byte>)
    requires FieldAt(b, i, data)
    ensures FieldAt(b + more, i, data)
  {
    assert (b + more)[i + 2..i + 2 + |data|] == b[i + 2..i + 2 + |data|];
  }

  // ----- messages from the pool -----

  /** mqtt_get_message_for_packet: the capacity that is asked for. The pool may hand out less. */
  function MessageCapacity(h: FixedHeader): nat { 3 + h.remainingLength }

  /** A packet whose running length is exact fits such a message exactly when the size field
      takes at most two bytes. */
  lemma PacketFitsMessage(h: FixedHeader)
    requires h.packetType < 16
    ensures |HeaderBytes(h)| + h.remainingLength <= MessageCapacity(h) <==> h.remainingLength <= 16383
  {
    LengthSize(h.remainingLength);
  }

  /** An UNSUBSCRIBE of one valid filter, in a message of any capacity: a success as soon as the
      identifier fits, and a whole packet only when all of it does. So in a message of the capacity that is asked for,
      every such packet is reported as a success, and those of 16380 bytes and more are cut. */
  method UnsubscribeIsCut(filter: seq<Byte>, packetId: nat, capacity: nat)
    returns (p: UnsubscribePacket, buf: ByteBuf, error: Option<Error>)
    requires |filter| <= 65535 && packetId < 65536
    ensures p.Exact() && p.filters == [filter] && buf.capacity == capacity
    ensures error.None? <==> |HeaderBytes(p.header)| + 2 <= capacity
    ensures buf.bytes == UnsubscribeBytes(p.header, packetId, [filter])
            <==> |HeaderBytes(p.header)| + p.header.remainingLength <= capacity
    ensures capacity == MessageCapacity(p.header) ==>
              error.None? && (buf.bytes == UnsubscribeBytes(p.header, packetId, [filter]) <==> |filter| < 16380)
  {
    hide HeaderBytes, BufferBytes, FiltersBytes, FiltersSize;
    p := new UnsubscribePacket(packetId);
    p.AddTopic(filter);
    assert p.filters == [filter];
    SizeOfOne(filter);
    FiltersSizeIs([filter]);
    PacketFitsMessage(p.header);
    HeaderSizeAtMost(p.header);
    buf := new ByteBuf(capacity);
    error := p.Encode(buf);
    assert [] + UnsubscribeBytes(p.header, packetId, [filter]) == UnsubscribeBytes(p.header, packetId, [filter]);
  }

  /** A SUBSCRIBE of one valid filter of n bytes, behind o bytes of header, in a message of any
      capacity: a success unless the message ends just before the QoS, behind the identifier, the length
      or the filter. So in a smaller message it is cut too and reported as a success. In one of the
      capacity that is asked for it is not: there a success is a whole packet. */
  method SubscribeIsCut(filter: seq<Byte>, qos: nat, packetId: nat, capacity: nat)
    returns (p: SubscribePacket, buf: ByteBuf, error: Option<Error>)
    requires |filter| <= 65535 && packetId < 65536
    ensures p.Exact() && p.filters == [Subscription(filter, qos)] && buf.capacity == capacity
    ensures var o, n := |HeaderBytes(p.header)|, |filter|;
            && (error.None? <==> o + 3 <= capacity && capacity != o + 4 && capacity != o + 4 + n)
            && (error.None? && buf.bytes == SubscribeBytes(p.header, packetId, p.filters) <==> o + 5 + n <= capacity)
    ensures capacity == MessageCapacity(p.header) ==>
              (error.None? <==> |filter| <= 16378)
              && (error.None? ==> buf.bytes == SubscribeBytes(p.header, packetId, p.filters))
  {
    hide HeaderBytes, BufferBytes, SubscriptionsBytes, SubscriptionsSize, Fill;
    p := new SubscribePacket(packetId);
    p.AddTopic(filter, qos);
    var fs := [Subscription(filter, qos)];
    assert p.filters == fs && SubscriptionsFit(fs);
    OneSubscriptionSize(fs[0]);
    SubscriptionsSizeIs(fs);
    PacketFitsMessage(p.header);
    SubscribeHeaderSize(p.header);
    OneFill(fs[0], capacity, |HeaderBytes(p.header)| + 2);
    buf := new ByteBuf(capacity);
    error := p.Encode(buf);
    assert [] + SubscribeBytes(p.header, packetId, fs) == SubscribeBytes(p.header, packetId, fs);
  }

  lemma OneSubscriptionSize(f: Subscription)
    ensures SubscriptionsSize([f]) == 3 + |f.filter|
  {
    assert [f][..0] == [];
  }

  lemma OneFill(f: Subscription, capacity: nat, used: nat)
    ensures var after := FieldFill(|f.filter|, capacity, used);
            Fill([f], capacity, used) == if after + 1 <= capacity then Some(after + 1) else None
  {
    FillMore([f], 0, capacity, used);
    assert [f][..1] == [f] && [f][..0] == [];
  }

  lemma SubscribeHeaderSize(h: FixedHeader)
    requires h.packetType < 16 && 5 <= h.remainingLength <= 65535 + 5
    ensures |HeaderBytes(h)| == if h.remainingLength < 128 then 2 else if h.remainingLength < 16384 then 3 else 4
  {
    LengthSize(h.remainingLength);
    SizeAtMost(h.remainingLength, 0);
    SizeAtMost(h.remainingLength, 1);
    SizeAtMost(h.remainingLength, 2);
  }

  /** Any number of filters in a message of the capacity that is asked for. Behind a header of five bytes,
      which is a request of two megabytes and more, the packet is cut and reported as a success, unless the last filter
      is one byte; behind one of four bytes it fails. */
  lemma SubscribeInItsMessage(h: FixedHeader, fs: seq<Subscription>)
    requires h.packetType < 16 && h.remainingLength < 0x1000_0000 && h.remainingLength == 2 + SubscriptionsSize(fs)
    requires SubscriptionsFit(fs) && fs != []
    ensures var o := |HeaderBytes(h)|;
            && (o <= 3 <==> o + h.remainingLength <= MessageCapacity(h))
            && (Fill(fs, MessageCapacity(h), o + 2).Some? <==> o <= 3 || (o == 5 && |fs[|fs| - 1].filter| != 1))
  {
    var o, n := |HeaderBytes(h)|, |fs| - 1;
    SizeAtMost(h.remainingLength, 3);
    if o <= 3 {
      FillWhole(fs, MessageCapacity(h), o + 2);
    } else {
      assert fs[..n + 1] == fs;
      LastSubscription(fs);
      FillWhole(fs[..n], MessageCapacity(h), o + 2);
      FillMore(fs, n, MessageCapacity(h), o + 2);
    }
  }

  lemma SizeOfOne(filter: seq<Byte>)
    ensures FiltersSize([filter]) == 2 + |filter|
  {
    assert [filter][..0] == [];
  }

  lemma HeaderSizeAtMost(h: FixedHeader)
    requires h.packetType < 16 && 2 <= h.remainingLength <= 65535 + 4
    ensures |HeaderBytes(h)| + 2 <= MessageCapacity(h)
  {
    SizeAtMost(h.remainingLength, 2);
  }
}
