/**
 Byte buffers and byte cursors as the codec uses them: a bounded buffer that
 refuses a write that does not fit, and a cursor that does not move on a read
 that runs past its end.
 */
module Bytes {
  import opened Options

  type Byte = b: int | 0 <= b < 256

  datatype Error =
    | ShortBuffer
    | InvalidReservedBits
    | BufferTooBig
    | InvalidRemainingLength
    | UnsupportedProtocolName
    | UnsupportedProtocolLevel
    | InvalidCredentials
    | InvalidQoS

  /** The outcome of reading from a sequence of bytes, with what is left of it. */
  datatype Parse<+T> = Ok(value: T, rest: seq<Byte>) | Err(error: Error) {
    predicate IsFailure() { Err? }

    function PropagateFailure<U>(): Parse<U>
      requires Err?
    {
      Err(error)
    }

    function Extract(): (T, seq<Byte>)
      requires Ok?
    {
      (value, rest)
    }
  }

  /** The same, where the cursor keeps what is left. */
  datatype Result<+T> = Success(value: T) | Failure(error: Error)

  /** A decoder that read the bytes s and left rest did what the parse p says. */
  ghost predicate Agrees<T>(r: Result<T>, rest: seq<Byte>, p: Parse<T>) {
    match p
    case Ok(v, left) => r == Success(v) && rest == left
    case Err(e) => r == Failure(e)
  }

  class ByteBuf {
    var bytes: seq<Byte>
    const capacity: nat

    ghost predicate Valid()
      reads this
    {
      |bytes| <= capacity
    }

    constructor (capacity: nat)
      ensures Valid() && bytes == [] && this.capacity == capacity
    {
      this.capacity := capacity;
      bytes := [];
    }

    /** aws_byte_buf_write: all or nothing. */
    method Write(data: seq<Byte>) returns (ok: bool)
      requires Valid()
      modifies this
      ensures Valid()
      ensures ok <==> |old(bytes)| + |data| <= capacity
      ensures bytes == if ok then old(bytes) + data else old(bytes)
    {
      ok := |bytes| + |data| <= capacity;
      if ok { bytes := bytes + data; }
    }
  }

  class Cursor {
    var rest: seq<Byte>

    constructor (data: seq<Byte>)
      ensures rest == data
    {
      rest := data;
    }

    method ReadU8() returns (r: Option<Byte>)
      modifies this
      ensures match ReadU8From(old(rest))
              case Ok(v, s) => r == Some(v) && rest == s
              case Err(_) => r == None && rest == old(rest)
    {
      if |rest| < 1 { return None; }
      r := Some(rest[0]);
      rest := rest[1..];
    }

    method ReadBe16() returns (r: Option<nat>)
      modifies this
      ensures match ReadBe16From(old(rest))
              case Ok(v, s) => r == Some(v) && rest == s
              case Err(_) => r == None && rest == old(rest)
    {
      if |rest| < 2 { return None; }
      r := Some(rest[0] as int * 256 + rest[1] as int);
      rest := rest[2..];
    }

    /** aws_byte_cursor_advance: the bytes passed over, or none of them if there are too few. */
    method Advance(n: nat) returns (data: seq<Byte>)
      modifies this
      ensures if n <= |old(rest)| then data == old(rest)[..n] && rest == old(rest)[n..]
              else data == [] && rest == old(rest)
    {
      if n > |rest| { return []; }
      data := rest[..n];
      rest := rest[n..];
    }
  }

  function ReadU8From(s: seq<Byte>): Parse<Byte> {
    if |s| < 1 then Err(ShortBuffer) else Ok(s[0], s[1..])
  }

  function ReadBe16From(s: seq<Byte>): Parse<nat> {
    if |s| < 2 then Err(ShortBuffer) else Ok(s[0] as int * 256 + s[1] as int, s[2..])
  }

  /** A 16-bit number, most significant byte first. */
  function Be16(n: nat): (s: seq<Byte>)
    requires n < 65536
    ensures |s| == 2
  {
    [n / 256, n % 256]
  }

  /** The most significant byte comes first, in what is written and in what is read. */
  lemma BigEndian(n: nat, a: Byte, b: Byte, rest: seq<Byte>)
    requires n < 65536
    ensures Be16(n)[0] as int * 256 + Be16(n)[1] as int == n
    ensures ReadBe16From([a, b] + rest) == Ok(a as int * 256 + b as int, rest)
  {
    assert ([a, b] + rest)[2..] == rest;
  }

  lemma Be16RoundTrip(n: nat, rest: seq<Byte>)
    requires n < 65536
    ensures ReadBe16From(Be16(n) + rest) == Ok(n, rest)
  {
    assert (Be16(n) + rest)[2..] == rest;
  }

  /** The bytes of several messages or packets, one after the other. */
  function Flat(parts: seq<seq<Byte>>): seq<Byte> {
    if parts == [] then [] else Flat(parts[..|parts| - 1]) + parts[|parts| - 1]
  }
}
