/**
 What packets look like on the wire, byte by byte and in plain numbers, apart from how
 they are put together (sections 2 and 3 of MQTT 3.1.1).
 */
module Wire {
  import opened Bytes

  /** The bytes at i and i + 1 are the number n, the most significant first. */
  predicate NumberAt(b: seq<Byte>, i: nat, n: nat) {
    i + 2 <= |b| && b[i] as int * 256 + b[i + 1] as int == n
  }

  /** At i there is a length of two bytes, and behind it the data (section 1.5.3). */
  predicate FieldAt(b: seq<Byte>, i: nat, data: seq<Byte>) {
    NumberAt(b, i, |data|) && i + 2 + |data| <= |b| && b[i + 2..i + 2 + |data|] == data
  }

  predicate OptionalAt(b: seq<Byte>, i: nat, present: bool, data: seq<Byte>) {
    present ==> FieldAt(b, i, data)
  }

  function Behind(i: nat, present: bool, data: seq<Byte>): nat {
    if present then i + 2 + |data| else i
  }

  /** Seven bits of each byte, those of the first the least significant. */
  function Value(s: seq<Byte>): nat {
    if s == [] then 0 else s[0] as int % 128 + 128 * Value(s[1..])
  }

  /** A size field: the top bit of every byte but the last tells that more follow (section 2.2.3). */
  predicate IsSize(s: seq<Byte>, n: nat) {
    && s != [] && s[|s| - 1] < 128 && (forall i | 0 <= i < |s| - 1 :: s[i] >= 128)
    && Value(s) == n
  }

  /** A fixed header of o bytes (section 2.2). */
  predicate HeaderAt(b: seq<Byte>, o: nat, first: nat, length: nat) {
    1 < o <= |b| && b[0] as int == first && IsSize(b[1..o], length)
  }

  /** Section 3.1: the name, the level, the flags and the keep-alive; then the fields of the payload. */
  predicate ConnectStartAt(b: seq<Byte>, o: nat, flags: nat, keepAlive: nat) {
    && o + 10 <= |b|
    && b[o..o + 7] == [0, 4, 77, 81, 84, 84, 4]
    && b[o + 7] as int == flags
    && NumberAt(b, o + 8, keepAlive)
  }

  predicate ConnectPayloadAt(b: seq<Byte>, i: nat, clientId: seq<Byte>,
                             hasWill: bool, willTopic: seq<Byte>, willMessage: seq<Byte>,
                             hasUsername: bool, username: seq<Byte>, hasPassword: bool, password: seq<Byte>)
  {
    var i1 := Behind(i, true, clientId);
    var i2 := Behind(i1, hasWill, willTopic);
    var i3 := Behind(i2, hasWill, willMessage);
    var i4 := Behind(i3, hasUsername, username);
    && FieldAt(b, i, clientId)
    && OptionalAt(b, i1, hasWill, willTopic) && OptionalAt(b, i2, hasWill, willMessage)
    && OptionalAt(b, i3, hasUsername, username) && OptionalAt(b, i4, hasPassword, password)
    && |b| == Behind(i4, hasPassword, password)
  }

  /** Section 3.3: the topic, the identifier if there is a QoS, and the payload. */
  predicate PublishAt(b: seq<Byte>, o: nat, flags: nat, topic: seq<Byte>, packetId: nat, payload: seq<Byte>) {
    && FieldAt(b, o, topic)
    && var i := o + 2 + |topic|;
       if flags / 2 % 4 > 0 then NumberAt(b, i, packetId) && b[i + 2..] == payload
       else i <= |b| && b[i..] == payload
  }
}
