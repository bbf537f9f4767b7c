/**
 Sending a PUBLISH in as many messages as it takes (s_publish_send in source/client.c).
 */
module Publishing {
  import opened Options
  import opened Bytes
  import opened FixedHeaders
  import opened Packets
  import Requests

  /** The packet's headers go into the first message, and can. */
  predicate HeadersFit(p: Publish, capacity: nat) {
    FlagsAllowed(p.header) && p.header.packetType < 16 && PublishFits(p) && |PublishHeaders(p)| <= capacity
  }

  lemma FlatMore(sent: seq<seq<Byte>>, message: seq<Byte>)
    ensures Flat(sent + [message]) == Flat(sent) + message
  {
    assert (sent + [message])[..|sent|] == sent;
  }

  /** Messages that were taken, none empty or beyond its capacity, the first ones full. */
  ghost predicate Pieces(sent: seq<seq<Byte>>, capacity: nat -> nat, takes: nat -> bool, full: int) {
    && (forall i | 0 <= i < |sent| :: takes(i) && 0 < |sent[i]| <= capacity(i))
    && (forall i | 0 <= i < |sent| && i < full :: |sent[i]| == capacity(i))
  }

  lemma NoPieces(capacity: nat -> nat, takes: nat -> bool)
    ensures Pieces([], capacity, takes, 0)
  {
  }

  lemma PiecesMore(sent: seq<seq<Byte>>, message: seq<Byte>, capacity: nat -> nat, takes: nat -> bool)
    requires Pieces(sent, capacity, takes, |sent|) && takes(|sent|) && 0 < |message| <= capacity(|sent|)
    ensures Pieces(sent + [message], capacity, takes, |sent|)
    ensures |message| == capacity(|sent|) ==> Pieces(sent + [message], capacity, takes, |sent| + 1)
  {
  }

  /** s_publish_send after the packet was made. The channel hands out messages of the given capacities,
      each of at least one byte, and takes them or not. Whatever the capacities, the messages are the
      one-buffer encoding cut in pieces: all of it on success, a beginning of it if a message is not taken.
      None is empty, and every one but the last of a whole packet is full. */
  method Send(p: Publish, capacity: nat -> nat, takes: nat -> bool)
    returns (sent: seq<seq<Byte>>, outcome: Requests.Outcome)
    requires p.header.packetType == PUBLISH && p.header.remainingLength < 0xFFFF_FFFF && p.packetId < 65536
    requires forall i: nat :: i > 0 ==> capacity(i) > 0
    ensures Pieces(sent, capacity, takes, if outcome == Requests.SendError then |sent| else |sent| - 1)
    ensures if HeadersFit(p, capacity(0))
            then Flat(sent) <= PublishBytes(p) && (outcome == Requests.SendError <==> Flat(sent) != PublishBytes(p))
            else sent == [] && outcome == Requests.SendError
    ensures HeadersFit(p, capacity(0)) && outcome == Requests.SendError ==> !takes(|sent|)
    ensures outcome != Requests.SendError ==>
              outcome == if p.header.flags / 2 % 4 == 0 then Requests.SendComplete else Requests.SendOngoing
  {
    hide PublishHeaders, PublishBytes, PublishFits, Flat, Pieces;
    sent := [];
    NoMessages();
    NoPieces(capacity, takes);
    var message := new ByteBuf(capacity(0));
    var error := EncodePublishHeaders(message, p);
    if error.Some? { return sent, Requests.SendError; }
    WholeIs(p);
    var payload := new Cursor(p.payload);
    var more := true;
    while more
      invariant fresh(message) && fresh(payload)
      invariant message.Valid() && (more ==> message.capacity == capacity(|sent|)) && PublishFits(p)
      invariant Pieces(sent, capacity, takes, if more then |sent| else |sent| - 1)
      invariant Flat(sent) + message.bytes + payload.rest == PublishBytes(p) || !more
      invariant if more then |message.bytes| + |payload.rest| > 0 else Flat(sent) == PublishBytes(p)
      invariant more ==> message.capacity > 0
      decreases more, |payload.rest|, |message.bytes|
    {
      ghost var before, rest := message.bytes, payload.rest;
      WriteChunk(message, payload);
      Regroup(Flat(sent), before, rest, message.bytes, payload.rest);
      if !takes(|sent|) { return sent, Requests.SendError; }
      FlatMore(sent, message.bytes);
      PiecesMore(sent, message.bytes, capacity, takes);
      sent := sent + [message.bytes];
      more := |payload.rest| > 0;
      if more {
        message := new ByteBuf(capacity(|sent|));
      }
    }
    return sent, if QosOf(p) == 0 then Requests.SendComplete else Requests.SendOngoing;
  }

  /** As much of the payload as the message has room for. */
  method WriteChunk(message: ByteBuf, payload: Cursor)
    requires message.Valid()
    modifies message, payload
    ensures message.Valid() && message.bytes + payload.rest == old(message.bytes) + old(payload.rest)
    ensures payload.rest == [] || |message.bytes| == message.capacity
  {
    var left := message.capacity - |message.bytes|;
    var toWrite := if |payload.rest| < left then |payload.rest| else left;
    if toWrite > 0 {
      var chunk := payload.Advance(toWrite);
      var written := message.Write(chunk);
      assert written;
    }
  }

  lemma Regroup(a: seq<Byte>, b: seq<Byte>, c: seq<Byte>, b': seq<Byte>, c': seq<Byte>)
    requires b + c == b' + c'
    ensures a + b + c == a + b' + c' && |b| + |c| == |b'| + |c'|
  {
    assert a + b + c == a + (b + c) && a + b' + c' == a + (b' + c');
    assert |b + c| == |b' + c'|;
  }

  lemma NoMessages()
    ensures Flat([]) == []
  {
  }

  lemma WholeIs(p: Publish)
    requires PublishFits(p)
    ensures [] + PublishHeaders(p) == PublishHeaders(p) != [] && [] + PublishHeaders(p) + p.payload == PublishBytes(p)
  {
  }
}
