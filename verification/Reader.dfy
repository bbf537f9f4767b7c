/**
 Reassembling control packets from the messages of a channel
 (s_process_read_message in source/client_channel_handler.c).

 The handler that a packet is handed to may refuse it. Which packets it refuses can
 depend on everything that it has seen, so its answers are given as a function of how
 many packets were handed over before and of the packet itself.
 */
module Readers {
  import opened Bytes
  import opened FixedHeaders

  type Handler = (nat, seq<Byte>) -> bool

  /** The packet being put together, the size it is taken to have, the packets handed to
      the handler so far, and whether every message was read without an error. */
  datatype State = State(pending: seq<Byte>, capacity: nat, delivered: seq<seq<Byte>>, ok: bool) {
    predicate Fits() { |pending| <= capacity }
  }

  const START := State([], 0, [], true)

  /** The packets that begin in s, when none is pending. */
  function Drain(st: State, s: seq<Byte>): (r: State)
    requires st.pending == []
    ensures r.Fits() && st.delivered <= r.delivered
    decreases |s|
  {
    if s == [] then st
    else
      match ReadHeader(s)
      case HeaderBad(_) => st.(ok := false)
      case HeaderShort(consumed, length) => st.(pending := s, capacity := consumed + length)
      case Header(h, size) =>
        var n := size + h.remainingLength;
        Drain(st.(delivered := st.delivered + [s[..n]]), s[n..])
  }

  /** What reading one message does. */
  function Process(st: State, message: seq<Byte>, accepts: Handler): (r: State)
    requires st.Fits()
    ensures r.Fits() && st.delivered <= r.delivered
  {
    if message == [] then st.(ok := false)
    else if st.pending == [] then Drain(st, message)
    else
      var toRead := st.capacity - |st.pending|;
      if toRead > |message| then st.(pending := st.pending + message)
      else
        var packet := st.pending + message[..toRead];
        var done := st.(pending := [], capacity := 0, delivered := st.delivered + [packet]);
        if accepts(|st.delivered|, packet) then Drain(done, message[toRead..])
        else done.(ok := false)
  }

  /** A channel reads its messages in order, up to the first that fails. It begins with what
      the channel before it left pending, which nothing clears. */
  function RunFrom(start: State, messages: seq<seq<Byte>>, accepts: Handler): (r: State)
    requires start.Fits()
    ensures r.Fits()
  {
    if messages == [] then start
    else
      var st := RunFrom(start, messages[..|messages| - 1], accepts);
      if st.ok then Process(st, messages[|messages| - 1], accepts) else st
  }

  /** The first channel of a connection. */
  function Run(messages: seq<seq<Byte>>, accepts: Handler): State {
    RunFrom(START, messages, accepts)
  }

  class Reader {
    var pending: seq<Byte>
    var capacity: nat
    var delivered: seq<seq<Byte>>

    function View(ok: bool): State
      reads this
    {
      State(pending, capacity, delivered, ok)
    }

    constructor ()
      ensures View(true) == START
    {
      pending, capacity, delivered := [], 0, [];
    }

    /** s_process_read_message. Writing to the pending buffer never runs out of space. */
    method ProcessRead(message: seq<Byte>, accepts: Handler) returns (ok: bool)
      requires |pending| <= capacity
      modifies this
      ensures View(ok) == Process(old(View(true)), message, accepts)
    {
      hide Drain;
      if |message| < 1 { return false; }
      var cursor := message;
      if |pending| > 0 {
        var toRead := capacity - |pending|;
        var complete := true;
        if toRead > |cursor| {
          toRead := |cursor|;
          complete := false;
        }
        assert |pending| + toRead <= capacity;
        pending, cursor := pending + cursor[..toRead], cursor[toRead..];
        if !complete { return true; }
        var packet := pending;
        var accepted := accepts(|delivered|, packet);
        delivered := delivered + [packet];
        pending, capacity := [], 0;
        if !accepted { return false; }
      }
      ok := ReadPackets(cursor);
    }

    /** The loop over the packets of a message. */
    method ReadPackets(bytes: seq<Byte>) returns (ok: bool)
      requires pending == []
      modifies this
      ensures View(ok) == Drain(old(View(true)), bytes)
    {
      hide ReadHeader;
      var cursor := bytes;
      while |cursor| > 0
        invariant pending == []
        invariant Drain(View(true), cursor) == Drain(old(View(true)), bytes)
      {
        var decode := new Cursor(cursor);
        var header := DecodeHeader(decode);
        var size := |cursor| - |decode.rest|;
        match header {
          case HeaderBad(_) => return false;
          case HeaderShort(_, length) =>
            capacity := size + length;
            assert |cursor| <= capacity;
            pending := cursor;
            return true;
          case Header(h, _) =>
            var n := size + h.remainingLength;
            delivered, cursor := delivered + [cursor[..n]], cursor[n..];
        }
      }
      return true;
    }
  }

  lemma Glue(s: seq<Byte>, a: nat, b: nat, c: nat)
    requires a <= b <= c <= |s|
    ensures s[a..b] + s[b..c] == s[a..c]
  {
  }

  // ----- packets and the stream they make -----

  /** A header, and as many bytes behind it as it says. */
  predicate IsPacket(p: seq<Byte>) {
    var r := ReadHeader(p);
    r.Header? && r.size + r.header.remainingLength == |p|
  }

  function HeaderSize(p: seq<Byte>): nat
    requires IsPacket(p)
  {
    ReadHeader(p).size
  }

  predicate ArePackets(packets: seq<seq<Byte>>) {
    forall k | 0 <= k < |packets| :: IsPacket(packets[k])
  }

  /** Where part k begins. */
  function Offset(parts: seq<seq<Byte>>, k: nat): nat
    requires k <= |parts|
  {
    |Flat(parts[..k])|
  }

  lemma PartAt(parts: seq<seq<Byte>>, k: nat)
    requires k < |parts|
    ensures Offset(parts, k + 1) == Offset(parts, k) + |parts[k]| <= |Flat(parts)|
    ensures Flat(parts)[Offset(parts, k)..Offset(parts, k + 1)] == parts[k]
  {
    assert parts[..k + 1][..k] == parts[..k];
    FlatPrefix(parts, k + 1);
  }

  lemma {:induction false} FlatPrefix(parts: seq<seq<Byte>>, k: nat)
    requires k <= |parts|
    ensures Flat(parts[..k]) <= Flat(parts)
    decreases |parts|
  {
    if k == |parts| {
      assert parts[..k] == parts;
    } else {
      FlatPrefix(parts[..|parts| - 1], k);
      assert parts[..|parts| - 1][..k] == parts[..k];
    }
  }

  lemma {:induction false} OffsetsGrow(parts: seq<seq<Byte>>, j: nat, k: nat)
    requires j <= k <= |parts|
    ensures Offset(parts, j) <= Offset(parts, k) <= |Flat(parts)|
    decreases k - j
  {
    if j < k {
      PartAt(parts, k - 1);
      OffsetsGrow(parts, j, k - 1);
    } else {
      FlatPrefix(parts, k);
    }
  }

  /** Of n bytes of the stream, k packets are whole. */
  predicate Whole(packets: seq<seq<Byte>>, n: nat, k: nat) {
    k <= |packets| && Offset(packets, k) <= n <= |Flat(packets)| && (k < |packets| ==> n < Offset(packets, k + 1))
  }

  lemma {:induction false} Locate(packets: seq<seq<Byte>>, n: nat, from: nat) returns (k: nat)
    requires from <= |packets| && Offset(packets, from) <= n <= |Flat(packets)|
    ensures from <= k && Whole(packets, n, k)
    decreases |packets| - from
  {
    if from < |packets| && Offset(packets, from + 1) <= n {
      k := Locate(packets, n, from + 1);
    } else {
      k := from;
    }
  }

  /** Packet k is the one that the n-th byte cuts. */
  predicate Cuts(packets: seq<seq<Byte>>, n: nat, k: nat) {
    k < |packets| && Offset(packets, k) < n < Offset(packets, k + 1)
  }

  lemma CutIsWhole(packets: seq<seq<Byte>>, n: nat, j: nat, k: nat)
    requires Cuts(packets, n, j) && Whole(packets, n, k)
    ensures j == k
  {
    if j < k { OffsetsGrow(packets, j + 1, k); }
    if k < j { OffsetsGrow(packets, k + 1, j); }
  }

  // ----- headers that arrive in parts -----

  lemma {:induction false} LengthOfMore(s: seq<Byte>, more: seq<Byte>, bytesRead: nat)
    requires bytesRead <= 3
    ensures ReadLength(s, bytesRead).Length? ==> ReadLength(s + more, bytesRead) == ReadLength(s, bytesRead)
    ensures ReadLength(s, bytesRead).Partial? && ReadLength(s + more, bytesRead).Length? ==>
              ReadLength(s, bytesRead).value <= ReadLength(s + more, bytesRead).value
                && |s| < ReadLength(s + more, bytesRead).size
    ensures ReadLength(s, bytesRead).Malformed? ==> ReadLength(s + more, bytesRead).Malformed?
    decreases 4 - bytesRead
  {
    if s != [] && s[0] >= 128 && bytesRead < 3 {
      LengthOfMore(s[1..], more, bytesRead + 1);
      assert (s + more)[1..] == s[1..] + more;
    }
  }

  /** A packet is read as itself, whatever follows it. */
  lemma HeaderOfMore(p: seq<Byte>, more: seq<Byte>)
    requires IsPacket(p)
    ensures ReadHeader(p + more) == ReadHeader(p)
  {
    LengthOfMore(p[1..], more, 0);
    assert (p + more)[1..] == p[1..] + more;
  }

  /** Of a part of a packet, the size is known exactly when the header is there; before
      that it is taken for less. */
  lemma HeaderOfPart(p: seq<Byte>, n: nat)
    requires IsPacket(p) && 0 < n < |p|
    ensures var r := ReadHeader(p[..n]);
            r.HeaderShort?
            && (if HeaderSize(p) <= n then r.consumed + r.remainingLength == |p|
                else r.consumed + r.remainingLength < |p|)
  {
    LengthOfMore(p[1..n], p[n..], 0);
    assert p[1..n] + p[n..] == p[1..] && p[..n][1..] == p[1..n];
  }

  // ----- reading the stream -----

  /** What a reader should hold after n bytes, k packets of which are whole. */
  function Expected(packets: seq<seq<Byte>>, n: nat, k: nat): (st: State)
    requires Whole(packets, n, k)
    ensures st.Fits()
  {
    var pending := Flat(packets)[Offset(packets, k)..n];
    if k < |packets| then
      PartAt(packets, k);
      State(pending, if pending == [] then 0 else |packets[k]|, packets[..k], true)
    else
      EndOfPackets(packets);
      State(pending, 0, packets, true)
  }

  /** The n-th byte cuts no packet, or one with a whole header that the handler will accept. */
  ghost predicate GoodCut(packets: seq<seq<Byte>>, n: nat, accepts: Handler)
    requires ArePackets(packets)
  {
    forall k: nat | Cuts(packets, n, k) :: Offset(packets, k) + HeaderSize(packets[k]) <= n && accepts(k, packets[k])
  }

  /** Packet k can no longer be delivered. */
  predicate Lost(st: State, packets: seq<seq<Byte>>, k: nat) {
    k < |packets|
    && if |st.delivered| == k then st.pending != [] && st.capacity < |packets[k]|
       else |st.delivered| > k && |st.delivered[k]| < |packets[k]|
  }

  /** What is pending is a packet that will be refused. */
  ghost predicate Refusing(st: State, packets: seq<seq<Byte>>, n: nat, k: nat, accepts: Handler) {
    Cuts(packets, n, k) && Whole(packets, n, k) && st == Expected(packets, n, k) && !accepts(k, packets[k])
  }

  /** The run cannot succeed. */
  ghost predicate Doomed(st: State, packets: seq<seq<Byte>>, n: nat, accepts: Handler) {
    || !st.ok
    || (exists k: nat :: Lost(st, packets, k))
    || (exists k: nat :: Refusing(st, packets, n, k, accepts))
  }

  lemma DrainOne(delivered: seq<seq<Byte>>, p: seq<Byte>, rest: seq<Byte>)
    requires IsPacket(p)
    ensures Drain(State([], 0, delivered, true), p + rest) == Drain(State([], 0, delivered + [p], true), rest)
  {
    hide ReadHeader;
    HeaderOfMore(p, rest);
    assert (p + rest)[..|p|] == p && (p + rest)[|p|..] == rest;
  }

  lemma DrainPart(delivered: seq<seq<Byte>>, p: seq<Byte>, n: nat)
    requires IsPacket(p) && 0 < n < |p|
    ensures var st := Drain(State([], 0, delivered, true), p[..n]);
            && st == State(p[..n], st.capacity, delivered, true)
            && if HeaderSize(p) <= n then st.capacity == |p| else st.capacity < |p|
  {
    hide ReadHeader;
    HeaderOfPart(p, n);
  }

  lemma {:induction false} DrainPackets(packets: seq<seq<Byte>>, n: nat, j: nat, k: nat)
    requires ArePackets(packets) && j <= k && Whole(packets, n, k) && Offset(packets, j) <= n
    ensures Settled(Drain(State([], 0, packets[..j], true), Flat(packets)[Offset(packets, j)..n]), packets, n, k)
    decreases k - j
  {
    hide Flat, Offset, ReadHeader, IsPacket, HeaderSize;
    if j < k {
      PartAt(packets, j);
      OffsetsGrow(packets, j + 1, k);
      var rest := Flat(packets)[Offset(packets, j + 1)..n];
      assert Flat(packets)[Offset(packets, j)..n] == packets[j] + rest;
      DrainOne(packets[..j], packets[j], rest);
      assert packets[..j] + [packets[j]] == packets[..j + 1];
      DrainPackets(packets, n, j + 1, k);
    } else if Cuts(packets, n, k) {
      PartAt(packets, k);
      var flat, o, o' := Flat(packets), Offset(packets, k), Offset(packets, k + 1);
      assert flat[o..o'][..n - o] == flat[o..n];
      DrainPart(packets[..k], packets[k], n - o);
    } else {
      EndOfPackets(packets);
    }
  }

  lemma EndOfPackets(packets: seq<seq<Byte>>)
    ensures Offset(packets, |packets|) == |Flat(packets)|
  {
    assert packets[..|packets|] == packets;
  }

  /** One message, when all was well before it. */
  lemma FineStep(packets: seq<seq<Byte>>, n: nat, k: nat, message: seq<Byte>, accepts: Handler, k': nat)
    requires ArePackets(packets) && Whole(packets, n, k) && GoodCut(packets, n, accepts) && message != []
    requires n + |message| <= |Flat(packets)| && message == Flat(packets)[n..n + |message|]
    requires Whole(packets, n + |message|, k')
    ensures var st := Process(Expected(packets, n, k), message, accepts);
            if GoodCut(packets, n + |message|, accepts) then st == Expected(packets, n + |message|, k')
            else Doomed(st, packets, n + |message|, accepts)
  {
    hide Flat, Offset, ReadHeader, IsPacket, HeaderSize, Drain, Expected, Process, Lost;
    var n' := n + |message|;
    var st := Process(Expected(packets, n, k), message, accepts);
    WholeGrows(packets, n, k, n', k');
    if !Cuts(packets, n, k) {
      FineStart(packets, n, k, message, accepts, k');
    } else if Offset(packets, k + 1) <= n' {
      FineEnd(packets, n, k, message, accepts, k');
    } else {
      CutIsWhole(packets, n', k, k');
      FineMiddle(packets, n, k, message, accepts);
    }
    BadCut(packets, n', k', accepts);
    assert !GoodCut(packets, n', accepts) ==> Lost(st, packets, k') || Refusing(st, packets, n', k', accepts);
  }

  /** The outcome at a place that k packets are whole before. */
  ghost predicate Settled(st: State, packets: seq<seq<Byte>>, n: nat, k: nat)
    requires ArePackets(packets) && Whole(packets, n, k)
  {
    if Cuts(packets, n, k) && n < Offset(packets, k) + HeaderSize(packets[k]) then Lost(st, packets, k)
    else st == Expected(packets, n, k)
  }

  lemma FineStart(packets: seq<seq<Byte>>, n: nat, k: nat, message: seq<Byte>, accepts: Handler, k': nat)
    requires ArePackets(packets) && Whole(packets, n, k) && !Cuts(packets, n, k) && message != [] && k <= k'
    requires n + |message| <= |Flat(packets)| && message == Flat(packets)[n..n + |message|]
    requires Whole(packets, n + |message|, k')
    ensures Settled(Process(Expected(packets, n, k), message, accepts), packets, n + |message|, k')
  {
    hide Flat, Offset, ReadHeader, IsPacket, HeaderSize, Drain, Lost;
    EndOfPackets(packets);
    DrainPackets(packets, n + |message|, k, k');
  }

  lemma FineEnd(packets: seq<seq<Byte>>, n: nat, k: nat, message: seq<Byte>, accepts: Handler, k': nat)
    requires ArePackets(packets) && Whole(packets, n, k) && Cuts(packets, n, k) && accepts(k, packets[k]) && k < k'
    requires n + |message| <= |Flat(packets)| && message == Flat(packets)[n..n + |message|]
    requires Offset(packets, k + 1) <= n + |message| && Whole(packets, n + |message|, k')
    ensures Settled(Process(Expected(packets, n, k), message, accepts), packets, n + |message|, k')
  {
    hide Flat, Offset, ReadHeader, IsPacket, HeaderSize, Drain, Lost;
    PartAt(packets, k);
    var toRead := Offset(packets, k + 1) - n;
    assert message[..toRead] == Flat(packets)[n..Offset(packets, k + 1)];
    Glue(Flat(packets), Offset(packets, k), n, Offset(packets, k + 1));
    assert message[toRead..] == Flat(packets)[Offset(packets, k + 1)..n + |message|];
    assert packets[..k] + [packets[k]] == packets[..k + 1];
    DrainPackets(packets, n + |message|, k + 1, k');
  }

  lemma FineMiddle(packets: seq<seq<Byte>>, n: nat, k: nat, message: seq<Byte>, accepts: Handler)
    requires Whole(packets, n, k) && Cuts(packets, n, k) && message != []
    requires n + |message| <= |Flat(packets)| && message == Flat(packets)[n..n + |message|]
    requires Cuts(packets, n + |message|, k)
    ensures Process(Expected(packets, n, k), message, accepts) == Expected(packets, n + |message|, k)
  {
    hide Flat, Offset, Drain;
    PartAt(packets, k);
    assert Flat(packets)[Offset(packets, k)..n] + message == Flat(packets)[Offset(packets, k)..n + |message|];
  }

  lemma WholeGrows(packets: seq<seq<Byte>>, n: nat, k: nat, n': nat, k': nat)
    requires Whole(packets, n, k) && Whole(packets, n', k') && n <= n'
    ensures k <= k' && (k < |packets| && Offset(packets, k + 1) <= n' ==> k < k')
  {
    if k' < k { OffsetsGrow(packets, k' + 1, k); }
  }

  lemma BadCut(packets: seq<seq<Byte>>, n: nat, k: nat, accepts: Handler)
    requires ArePackets(packets) && Whole(packets, n, k)
    ensures !GoodCut(packets, n, accepts) ==>
              Cuts(packets, n, k) && (n < Offset(packets, k) + HeaderSize(packets[k]) || !accepts(k, packets[k]))
  {
    if !GoodCut(packets, n, accepts) {
      var c: nat :| Cuts(packets, n, c) && !(Offset(packets, c) + HeaderSize(packets[c]) <= n
        && accepts(c, packets[c]));
      CutIsWhole(packets, n, c, k);
    }
  }

  /** One message, when all was already lost. */
  lemma DoomedStep(packets: seq<seq<Byte>>, st: State, n: nat, message: seq<Byte>, accepts: Handler)
    requires ArePackets(packets) && st.Fits() && Doomed(st, packets, n, accepts) && st.ok && message != []
    requires n + |message| <= |Flat(packets)| && message == Flat(packets)[n..n + |message|]
    ensures Doomed(Process(st, message, accepts), packets, n + |message|, accepts)
  {
    hide Flat, Offset, ReadHeader, IsPacket, HeaderSize, Drain;
    var n' := n + |message|;
    if k: nat :| Lost(st, packets, k) {
      LostStep(packets, st, k, message, accepts);
    } else {
      var k: nat :| Refusing(st, packets, n, k, accepts);
      PartAt(packets, k);
      var toRead := Offset(packets, k + 1) - n;
      if toRead <= |message| {
        assert message[..toRead] == Flat(packets)[n..Offset(packets, k + 1)];
        Glue(Flat(packets), Offset(packets, k), n, Offset(packets, k + 1));
      } else {
        assert Flat(packets)[Offset(packets, k)..n] + message == Flat(packets)[Offset(packets, k)..n'];
        assert Refusing(Process(st, message, accepts), packets, n', k, accepts);
      }
    }
  }

  lemma LostStep(packets: seq<seq<Byte>>, st: State, k: nat, message: seq<Byte>, accepts: Handler)
    requires st.Fits() && Lost(st, packets, k) && message != []
    ensures Lost(Process(st, message, accepts), packets, k)
  {
    hide Drain;
  }

  // ----- whole runs -----

  /** Every message holds something, and every place where one ends is a good cut. */
  ghost predicate Clean(packets: seq<seq<Byte>>, messages: seq<seq<Byte>>, accepts: Handler, i: nat)
    requires ArePackets(packets) && i <= |messages|
  {
    && (forall m | 0 <= m < i :: messages[m] != [])
    && (forall m | 0 <= m <= i :: GoodCut(packets, Offset(messages, m), accepts))
  }

  lemma Nothing(packets: seq<seq<Byte>>, accepts: Handler, k: nat)
    requires ArePackets(packets) && Whole(packets, 0, k)
    ensures GoodCut(packets, 0, accepts) && START == Expected(packets, 0, k)
  {
    if k > 0 {
      PartAt(packets, 0);
      OffsetsGrow(packets, 1, k);
    }
  }

  lemma StartOfParts(parts: seq<seq<Byte>>)
    ensures Offset(parts, 0) == 0
  {
  }

  lemma EmptyMessage(st: State, accepts: Handler)
    requires st.Fits()
    ensures !Process(st, [], accepts).ok
  {
  }

  lemma NotOk(packets: seq<seq<Byte>>, st: State, n: nat, accepts: Handler)
    requires !st.ok
    ensures Doomed(st, packets, n, accepts)
  {
  }

  lemma ExpectedOk(packets: seq<seq<Byte>>, n: nat, k: nat)
    requires Whole(packets, n, k)
    ensures Expected(packets, n, k).ok && Expected(packets, n, k).delivered == packets[..k]
  {
  }

  /** Between messages, a reader whose messages were cut well has delivered exactly the packets that
      are whole, in order, and holds what there is of the next with its full size. */
  lemma {:induction false} BetweenMessages(packets: seq<seq<Byte>>, messages: seq<seq<Byte>>, accepts: Handler,
                                           i: nat, k: nat)
    requires ArePackets(packets) && Flat(messages) == Flat(packets) && i <= |messages|
    requires Whole(packets, Offset(messages, i), k)
    ensures if Clean(packets, messages, accepts, i)
            then Run(messages[..i], accepts) == Expected(packets, Offset(messages, i), k)
            else Doomed(Run(messages[..i], accepts), packets, Offset(messages, i), accepts)
  {
    hide Flat, Offset, ReadHeader, IsPacket, HeaderSize, Process, Whole, Expected, Doomed, GoodCut;
    if i == 0 {
      StartOfParts(messages);
      Nothing(packets, accepts, k);
    } else {
      var n, n', message := Offset(messages, i - 1), Offset(messages, i), messages[i - 1];
      PartAt(messages, i - 1);
      StartOfParts(packets);
      var j := Locate(packets, n, 0);
      BetweenMessages(packets, messages, accepts, i - 1, j);
      assert messages[..i][..i - 1] == messages[..i - 1];
      var st := Run(messages[..i - 1], accepts);
      assert message == Flat(packets)[n..n'];
      if message == [] {
        EmptyMessage(st, accepts);
        NotOk(packets, Process(st, message, accepts), n', accepts);
        if !st.ok { NotOk(packets, st, n', accepts); }
      } else if Clean(packets, messages, accepts, i - 1) {
        FineStep(packets, n, j, message, accepts, k);
        ExpectedOk(packets, n, j);
      } else if st.ok {
        DoomedStep(packets, st, n, message, accepts);
      } else {
        NotOk(packets, st, n', accepts);
      }
    }
  }

  /** The reader hands over exactly the packets that were sent, however they were split,
      if and only if no message is empty and every packet that a message ends in has its
      fixed header whole by then and is not refused. */
  lemma Reassembly(packets: seq<seq<Byte>>, messages: seq<seq<Byte>>, accepts: Handler)
    requires ArePackets(packets) && Flat(messages) == Flat(packets)
    ensures var st := Run(messages, accepts);
            && (st.ok && st.delivered == packets <==> Clean(packets, messages, accepts, |messages|))
            && (st.ok && st.delivered == packets ==> st == State([], 0, packets, true))
  {
    hide Flat, Offset, ReadHeader, IsPacket, HeaderSize;
    var n := |messages|;
    EndOfPackets(packets);
    EndOfPackets(messages);
    assert messages[..n] == messages && packets[..|packets|] == packets;
    BetweenMessages(packets, messages, accepts, n, |packets|);
    if !Clean(packets, messages, accepts, n) { DoomedAtEnd(packets, Run(messages, accepts), accepts); }
  }

  lemma DoomedAtEnd(packets: seq<seq<Byte>>, st: State, accepts: Handler)
    requires Doomed(st, packets, |Flat(packets)|, accepts)
    ensures !(st.ok && st.delivered == packets)
  {
    hide Flat, Offset;
    forall k: nat | k < |packets| ensures !Cuts(packets, |Flat(packets)|, k) { PartAt(packets, k); }
  }

  /** Packet k begins in message i and goes on behind it, its header is there by then, and it will be refused. */
  ghost predicate RefusedFrom(packets: seq<seq<Byte>>, messages: seq<seq<Byte>>, accepts: Handler, i: nat, k: nat)
    requires ArePackets(packets)
  {
    && i < |messages| && k < |packets| && !accepts(k, packets[k])
    && Offset(messages, i) <= Offset(packets, k)
    && Offset(packets, k) + HeaderSize(packets[k]) <= Offset(messages, i + 1) < Offset(packets, k + 1)
  }

  lemma HeaderIsThere(p: seq<Byte>)
    requires IsPacket(p)
    ensures 0 < HeaderSize(p) <= |p|
  {
  }

  lemma RefusedFirst(packets: seq<seq<Byte>>, messages: seq<seq<Byte>>, accepts: Handler, i: nat, k: nat)
    requires ArePackets(packets) && Flat(messages) == Flat(packets) && RefusedFrom(packets, messages, accepts, i, k)
    requires messages[i] != [] && Clean(packets, messages, accepts, i)
    ensures Whole(packets, Offset(messages, i + 1), k) && Cuts(packets, Offset(messages, i + 1), k)
    ensures Run(messages[..i + 1], accepts) == Expected(packets, Offset(messages, i + 1), k)
  {
    hide Flat, Offset, ReadHeader, IsPacket, HeaderSize, Process, Expected, Doomed, GoodCut;
    var n, n', message := Offset(messages, i), Offset(messages, i + 1), messages[i];
    PartAt(messages, i);
    PartAt(packets, k);
    HeaderIsThere(packets[k]);
    StartOfParts(packets);
    var j := Locate(packets, n, 0);
    BetweenMessages(packets, messages, accepts, i, j);
    assert messages[..i + 1][..i] == messages[..i];
    ExpectedOk(packets, n, j);
    WholeGrows(packets, n, j, n', k);
    if Cuts(packets, n, j) {
      BeginsBehind(packets, n, j, k);
      CutAccepted(packets, n, accepts, j);
      FineEnd(packets, n, j, message, accepts, k);
    } else {
      FineStart(packets, n, j, message, accepts, k);
    }
  }

  lemma BeginsBehind(packets: seq<seq<Byte>>, n: nat, j: nat, k: nat)
    requires Cuts(packets, n, j) && k < |packets| && n <= Offset(packets, k)
    ensures j < k && Offset(packets, j + 1) <= Offset(packets, k)
  {
    hide Offset;
    if k <= j { OffsetsGrow(packets, k, j); } else { OffsetsGrow(packets, j + 1, k); }
  }

  lemma CutAccepted(packets: seq<seq<Byte>>, n: nat, accepts: Handler, j: nat)
    requires ArePackets(packets) && GoodCut(packets, n, accepts) && Cuts(packets, n, j)
    ensures accepts(j, packets[j])
  {
  }

  /** One message, while a packet that will be refused is pending. */
  lemma RefusedStep(packets: seq<seq<Byte>>, n: nat, message: seq<Byte>, accepts: Handler, k: nat)
    requires Whole(packets, n, k) && Cuts(packets, n, k) && !accepts(k, packets[k]) && message != []
    requires n + |message| <= |Flat(packets)| && message == Flat(packets)[n..n + |message|]
    ensures var st := Process(Expected(packets, n, k), message, accepts);
            if n + |message| < Offset(packets, k + 1)
            then Whole(packets, n + |message|, k) && st == Expected(packets, n + |message|, k)
            else st == State([], 0, packets[..k + 1], false)
  {
    hide Flat, Offset, Drain;
    if n + |message| < Offset(packets, k + 1) {
      FineMiddle(packets, n, k, message, accepts);
    } else {
      PartAt(packets, k);
      var toRead := Offset(packets, k + 1) - n;
      assert message[..toRead] == Flat(packets)[n..Offset(packets, k + 1)];
      Glue(Flat(packets), Offset(packets, k), n, Offset(packets, k + 1));
      assert packets[..k] + [packets[k]] == packets[..k + 1];
    }
  }

  lemma {:induction false} RefusedRun(packets: seq<seq<Byte>>, messages: seq<seq<Byte>>, accepts: Handler, i: nat,
                                      k: nat, t: nat)
    requires ArePackets(packets) && Flat(messages) == Flat(packets) && RefusedFrom(packets, messages, accepts, i, k)
    requires (forall m | 0 <= m < |messages| :: messages[m] != []) && Clean(packets, messages, accepts, i)
    requires i < t <= |messages|
    ensures var n := Offset(messages, t);
            if n < Offset(packets, k + 1)
            then Whole(packets, n, k) && Cuts(packets, n, k) && Run(messages[..t], accepts) == Expected(packets, n, k)
            else Run(messages[..t], accepts) == State([], 0, packets[..k + 1], false)
    decreases t
  {
    hide Flat, Offset, ReadHeader, IsPacket, HeaderSize, Process, Expected, Clean;
    if t == i + 1 {
      RefusedFirst(packets, messages, accepts, i, k);
    } else {
      var n, message := Offset(messages, t - 1), messages[t - 1];
      RefusedRun(packets, messages, accepts, i, k, t - 1);
      assert messages[..t][..t - 1] == messages[..t - 1];
      PartAt(messages, t - 1);
      if n < Offset(packets, k + 1) {
        ExpectedOk(packets, n, k);
        RefusedStep(packets, n, message, accepts, k);
      }
    }
  }

  /** The first packet in several messages that the handler refuses is the last to be handed over: the message
      that completes it fails, whatever else is in it. */
  lemma RefusedPacketIsLast(packets: seq<seq<Byte>>, messages: seq<seq<Byte>>, accepts: Handler, i: nat, k: nat)
    requires ArePackets(packets) && Flat(messages) == Flat(packets) && RefusedFrom(packets, messages, accepts, i, k)
    requires (forall m | 0 <= m < |messages| :: messages[m] != []) && Clean(packets, messages, accepts, i)
    ensures Run(messages, accepts) == State([], 0, packets[..k + 1], false)
  {
    hide Flat, Offset, ReadHeader, IsPacket, HeaderSize, Process, Expected, Clean, Run, RunFrom;
    RefusedRun(packets, messages, accepts, i, k, |messages|);
    assert messages[..|messages|] == messages;
    EndOfPackets(messages);
    PartAt(packets, k);
  }

  // ----- several channels -----

  /** No byte is lost or made up: as long as no message fails, what was handed over and what
      is pending are, in order, what was pending at first and what came. */
  lemma {:induction false} BytesAreKept(start: State, messages: seq<seq<Byte>>, accepts: Handler)
    requires start.Fits()
    ensures var st := RunFrom(start, messages, accepts);
            st.ok ==> Flat(st.delivered) + st.pending == Flat(start.delivered) + start.pending + Flat(messages)
  {
    hide Process;
    if messages == [] {
      NoParts();
    } else {
      var n := |messages| - 1;
      var st := RunFrom(start, messages[..n], accepts);
      BytesAreKept(start, messages[..n], accepts);
      if st.ok {
        ProcessKeeps(st, messages[n], accepts);
        var a, b, c := Flat(start.delivered) + start.pending, Flat(messages[..n]), messages[n];
        assert (a + b) + c == a + (b + c);
      }
    }
  }

  lemma ProcessKeeps(st: State, message: seq<Byte>, accepts: Handler)
    requires st.Fits()
    ensures var r := Process(st, message, accepts);
            && (r.ok ==> st.ok)
            && (r.ok ==> Flat(r.delivered) + r.pending == Flat(st.delivered) + st.pending + message)
  {
    hide Drain, Flat;
    if message != [] {
      if st.pending == [] {
        DrainKeeps(st, message);
      } else if st.capacity - |st.pending| <= |message| {
        var toRead := st.capacity - |st.pending|;
        var packet, rest := st.pending + message[..toRead], message[toRead..];
        var done := st.(pending := [], capacity := 0, delivered := st.delivered + [packet]);
        FlatAppend(st.delivered, packet);
        DrainKeeps(done, rest);
        assert message == message[..toRead] + rest;
      }
    }
  }

  lemma {:induction false} DrainKeeps(st: State, s: seq<Byte>)
    requires st.pending == []
    ensures var r := Drain(st, s);
            && (r.ok ==> st.ok)
            && (r.ok ==> Flat(r.delivered) + r.pending == Flat(st.delivered) + s)
    decreases |s|
  {
    hide ReadHeader, Flat;
    if s != [] {
      match ReadHeader(s)
      case Header(h, size) =>
        var n := size + h.remainingLength;
        FlatAppend(st.delivered, s[..n]);
        DrainKeeps(st.(delivered := st.delivered + [s[..n]]), s[n..]);
        assert s == s[..n] + s[n..];
      case _ =>
    }
  }

  lemma FlatAppend(parts: seq<seq<Byte>>, part: seq<Byte>)
    ensures Flat(parts + [part]) == Flat(parts) + part
  {
    assert (parts + [part])[..|parts|] == parts;
  }

  lemma NoParts()
    ensures Flat([]) == []
  {
  }

  /** A channel that begins with a packet cut by the end of another hands over its own packets,
      and nothing else, if and only if nothing was pending and its messages are cut well. */
  lemma NextChannel(start: State, packets: seq<seq<Byte>>, messages: seq<seq<Byte>>, accepts: Handler)
    requires start.Fits() && start.ok && start.delivered == [] && (start.pending == [] ==> start.capacity == 0)
    requires ArePackets(packets) && Flat(messages) == Flat(packets)
    ensures RunFrom(start, messages, accepts) == State([], 0, packets, true)
            <==> start.pending == [] && Clean(packets, messages, accepts, |messages|)
  {
    hide Flat, Clean, RunFrom;
    Reassembly(packets, messages, accepts);
    BytesAreKept(start, messages, accepts);
    NoParts();
    var st := RunFrom(start, messages, accepts);
    assert st.ok ==> |Flat(st.delivered)| + |st.pending| == |start.pending| + |Flat(messages)|;
  }

  /** Whatever the encoder writes is a packet to the reader. */
  lemma EncodedIsPacket(h: FixedHeader, body: seq<Byte>)
    requires GoodHeader(h) && |body| == h.remainingLength
    ensures IsPacket(HeaderBytes(h) + body)
  {
    HeaderRoundTrip(h, body);
  }

  /** A ping response whose two bytes come in two messages is handed over as one byte. */
  lemma CutPingResponse(accepts: Handler)
    ensures IsPacket([PINGRESP * 16, 0])
    ensures Run([[PINGRESP * 16], [0]], accepts).delivered == [[PINGRESP * 16]]
  {
    hide ReadHeader, Run;
    var first: seq<Byte>, second: seq<Byte> := [PINGRESP * 16], [0];
    PingHeaders();
    RunTwo(first, second, accepts);
    var st := Process(START, first, accepts);
    assert st == State(first, 1, [], true);
    assert first + second[..0] == first && second[0..] == second;
    assert Process(st, second, accepts).delivered == [first];
  }

  lemma RunTwo(first: seq<Byte>, second: seq<Byte>, accepts: Handler)
    ensures var st := Process(START, first, accepts);
            Run([first, second], accepts) == if st.ok then Process(st, second, accepts) else st
  {
    hide Process;
    var messages := [first, second];
    assert messages[..1] == [first] && [first][..0] == [];
    assert Run([], accepts) == START;
    assert Run([first], accepts) == Process(START, first, accepts);
  }

  lemma PingHeaders()
    ensures IsPacket([PINGRESP * 16, 0])
    ensures ReadHeader([PINGRESP * 16]) == HeaderShort(1, 0) && ReadHeader([0]) == HeaderShort(1, 0)
  {
    var whole: seq<Byte> := [PINGRESP * 16, 0];
    assert whole[1..] == [0];
  }
}
