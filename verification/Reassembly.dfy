/**
 TCP stream reassembly in ClusterGatewayActor: the loop that decodes packets from the front
 of a receive buffer until the buffer holds no complete packet.
 */
module Reassembly {
  import opened Bytes
  import opened ClusterCodec

  // What one run of the receive loop leaves: the packets in order, the rest of the buffer, and
  // whether it stopped on a protocol error, where the buffer is discarded.
  datatype Outcome = Outcome(packets: seq<ClusterPacket>, rest: bytes, error: bool)

  function Drain(b: bytes): Outcome
    decreases |b|
  {
    match Parse(b)
    case NeedMore => Outcome([], b, false)
    case ProtocolError => Outcome([], [], true)
    case Parsed(p, n) =>
      var r := Drain(b[n..]);
      r.(packets := [p] + r.packets)
  }

  // A receiver over a list of chunks that would end with the connection at the first error. The
  // program does not: see Handled.
  function DrainChunks(b: bytes, chunks: seq<bytes>): Outcome
    decreases |chunks|
  {
    if chunks == [] then Outcome([], b, false)
    else
      var first := Drain(b + chunks[0]);
      if first.error then first
      else
        var others := DrainChunks(first.rest, chunks[1..]);
        others.(packets := first.packets + others.packets)
  }

  // What the loop leaves holds no complete packet, and is shorter than the largest frame.
  lemma {:induction false} RestIsIncomplete(b: bytes)
    ensures !Drain(b).error ==> Parse(Drain(b).rest) == NeedMore && |Drain(b).rest| < 4 + MAX_BODY
    decreases |b|
  {
    hide Parse;
    match Parse(b) {
      case NeedMore => WaitingIsBounded(b);
      case ProtocolError =>
      case Parsed(p, n) =>
        ParseShrinks(b);
        RestIsIncomplete(b[n..]);
    }
  }

  lemma ParseShrinks(b: bytes)
    ensures Parse(b).Parsed? ==> 0 < Parse(b).consumed <= |b|
  {
  }

  lemma DrainStep(b: bytes)
    ensures Parse(b).NeedMore? ==> Drain(b) == Outcome([], b, false)
    ensures Parse(b).ProtocolError? ==> Drain(b) == Outcome([], [], true)
    ensures Parse(b).Parsed? ==>
              && 0 < Parse(b).consumed <= |b|
              && var r := Drain(b[Parse(b).consumed..]);
                 Drain(b) == r.(packets := [Parse(b).packet] + r.packets)
  {
    hide Parse;
    ParseShrinks(b);
  }

  // Bytes that arrive later are decoded after what is already in the buffer.
  lemma {:induction false} DrainAppend(b: bytes, more: bytes)
    ensures Drain(b).error ==> Drain(b + more) == Drain(b)
    ensures !Drain(b).error ==>
              var first := Drain(b);
              var second := Drain(first.rest + more);
              Drain(b + more) == second.(packets := first.packets + second.packets)
    decreases |b|
  {
    hide Parse, Drain;
    DrainStep(b);
    match Parse(b) {
      case NeedMore =>
        assert [] + Drain(b + more).packets == Drain(b + more).packets;
      case ProtocolError =>
        ParseExtends(b, more);
        DrainStep(b + more);
      case Parsed(p, n) =>
        ParseExtends(b, more);
        DrainStep(b + more);
        assert (b + more)[n..] == b[n..] + more;
        DrainAppend(b[n..], more);
        var first := Drain(b[n..]);
        var second := Drain(first.rest + more);
        assert [p] + (first.packets + second.packets) == ([p] + first.packets) + second.packets;
    }
  }

  // Up to the first error chunking never matters, on any byte stream: the packets handled, the
  // bytes left over and the error verdict are those of the whole stream received at once.
  lemma {:induction false} ChunkingIrrelevant(b: bytes, chunks: seq<bytes>)
    requires Parse(b) == NeedMore
    ensures DrainChunks(b, chunks) == Drain(b + Concat(chunks))
    decreases |chunks|
  {
    hide Parse;
    if chunks == [] {
      assert b + Concat(chunks) == b;
    } else {
      var first := Drain(b + chunks[0]);
      assert b + Concat(chunks) == (b + chunks[0]) + Concat(chunks[1..]);
      DrainAppend(b + chunks[0], Concat(chunks[1..]));
      RestIsIncomplete(b + chunks[0]);
      if !first.error {
        ChunkingIrrelevant(first.rest, chunks[1..]);
      }
    }
  }

  ghost predicate AllEncodable(ps: seq<ClusterPacket>) {
    forall p :: p in ps ==> Encodable(p)
  }

  // Decoding any prefix of an encoded packet stream: no error, a prefix of the packets in
  // order, and their encodings followed by the rest are the bytes received.
  ghost predicate Decodes(ps: seq<ClusterPacket>, received: bytes, r: Outcome) {
    && !r.error
    && r.packets <= ps
    && WireAll(r.packets) + r.rest == received
    && (received == WireAll(ps) ==> r.packets == ps && r.rest == [])
  }

  lemma {:induction false} DrainsStream(ps: seq<ClusterPacket>, received: bytes)
    requires AllEncodable(ps) && received <= WireAll(ps)
    ensures Decodes(ps, received, Drain(received))
    decreases |ps|
  {
    hide Parse, Wire, Decodes, Encodable;
    if ps == [] {
      EmptyIsIncomplete();
      DecodesNothing(ps, received);
    } else {
      var head := Wire(ps[0]);
      WireLength(ps[0]);
      if |received| < |head| {
        assert received == head[..|received|];
        PrefixIsIncomplete(ps[0], |received|);
        DecodesNothing(ps, received);
      } else {
        var tail := received[|head|..];
        assert received == head + tail;
        assert tail <= WireAll(ps[1..]);
        RoundTrip(ps[0], tail);
        DrainsStream(ps[1..], tail);
        DecodesOneMore(ps, tail, Drain(tail));
      }
    }
  }

  lemma DecodesNothing(ps: seq<ClusterPacket>, received: bytes)
    requires ps == [] ==> received == []
    requires ps != [] ==> received != WireAll(ps)
    ensures Decodes(ps, received, Outcome([], received, false))
  {
    assert [] + received == received;
  }

  lemma DecodesOneMore(ps: seq<ClusterPacket>, tail: bytes, r: Outcome)
    requires ps != [] && Decodes(ps[1..], tail, r)
    ensures Decodes(ps, Wire(ps[0]) + tail, r.(packets := [ps[0]] + r.packets))
  {
    hide Wire;
    var head := Wire(ps[0]);
    assert ([ps[0]] + r.packets)[1..] == r.packets;
    assert head + (WireAll(r.packets) + r.rest) == head + WireAll(r.packets) + r.rest;
    if head + tail == WireAll(ps) {
      assert tail == (head + tail)[|head|..];
      assert WireAll(ps[1..]) == (head + WireAll(ps[1..]))[|head|..];
    }
  }

  lemma WireLength(p: ClusterPacket)
    ensures |Wire(p)| == 4 + BodyLen(p)
  {
  }

  lemma EmptyIsIncomplete()
    ensures Parse([]) == NeedMore
  {
  }

  // Every split of a stream of encodable packets into chunks is reassembled into exactly the
  // packets sent; of a stream cut short, into a prefix of them.
  lemma ReassemblesPackets(ps: seq<ClusterPacket>, chunks: seq<bytes>)
    requires AllEncodable(ps) && Concat(chunks) <= WireAll(ps)
    ensures Decodes(ps, Concat(chunks), DrainChunks([], chunks))
  {
    hide Parse;
    EmptyIsIncomplete();
    ChunkingIrrelevant([], chunks);
    assert [] + Concat(chunks) == Concat(chunks);
    DrainsStream(ps, Concat(chunks));
  }

  // --------------------------------------------------------------------------------------
  // Behind an error
  // --------------------------------------------------------------------------------------

  // The packets that the program handles from a list of chunks. After an error it drops the
  // buffer, and parses the chunks that are still in its mailbox with a fresh one.
  function Handled(b: bytes, chunks: seq<bytes>): seq<ClusterPacket>
    decreases |chunks|
  {
    if chunks == [] then []
    else
      var r := Drain(b + chunks[0]);
      r.packets + Handled(r.rest, chunks[1..])
  }

  // The chunk in which the first error is found; the number of chunks if there is none.
  function FirstError(b: bytes, chunks: seq<bytes>): (k: nat)
    ensures k <= |chunks|
    decreases |chunks|
  {
    if chunks == [] || Drain(b + chunks[0]).error then 0
    else 1 + FirstError(Drain(b + chunks[0]).rest, chunks[1..])
  }

  // The packets handled from the chunks that follow the first error.
  function HandledBehindError(b: bytes, chunks: seq<bytes>): seq<ClusterPacket> {
    var k := FirstError(b, chunks);
    if k < |chunks| then Handled([], chunks[k + 1..]) else []
  }

  lemma {:induction false} ErrorDiscards(b: bytes)
    requires Drain(b).error
    ensures Drain(b).rest == []
    decreases |b|
  {
    hide Parse;
    ParseShrinks(b);
    if Parse(b).Parsed? {
      ErrorDiscards(b[Parse(b).consumed..]);
    }
  }

  // On any bytes and any chunks, the program handles the packets of the whole stream, and behind
  // them those of the chunks that follow the first error.
  lemma {:induction false} HandledSplits(b: bytes, chunks: seq<bytes>)
    requires Parse(b) == NeedMore
    ensures FirstError(b, chunks) < |chunks| <==> Drain(b + Concat(chunks)).error
    ensures Handled(b, chunks) == Drain(b + Concat(chunks)).packets + HandledBehindError(b, chunks)
    decreases |chunks|
  {
    hide Parse, Drain, HandledBehindError;
    if chunks == [] {
      assert b + Concat(chunks) == b;
      NothingHandled(b);
    } else {
      var first := Drain(b + chunks[0]);
      assert b + Concat(chunks) == (b + chunks[0]) + Concat(chunks[1..]);
      DrainAppend(b + chunks[0], Concat(chunks[1..]));
      BehindError(b, chunks);
      if !first.error {
        RestIsIncomplete(b + chunks[0]);
        HandledSplits(first.rest, chunks[1..]);
      }
    }
  }

  lemma NothingHandled(b: bytes)
    requires Parse(b) == NeedMore
    ensures Drain(b) == Outcome([], b, false) && HandledBehindError(b, []) == []
  {
  }

  lemma BehindError(b: bytes, chunks: seq<bytes>)
    requires chunks != []
    ensures var first := Drain(b + chunks[0]);
            && HandledBehindError(b, chunks) == (if first.error then Handled([], chunks[1..])
                                                 else HandledBehindError(first.rest, chunks[1..]))
            && (first.error ==> first.rest == [])
  {
    hide Parse, Drain, Handled;
    var first := Drain(b + chunks[0]);
    if first.error {
      ErrorDiscards(b + chunks[0]);
    } else {
      var k := FirstError(first.rest, chunks[1..]);
      assert k + 2 <= |chunks| ==> chunks[1..][k + 1..] == chunks[k + 2..];
    }
  }

  // The packets handled do not depend on the chunks exactly when those behind the first error
  // hold none.
  lemma ChunkingIrrelevantIff(b: bytes, chunks: seq<bytes>)
    requires Parse(b) == NeedMore
    ensures Handled(b, chunks) == Drain(b + Concat(chunks)).packets <==> HandledBehindError(b, chunks) == []
  {
    hide Parse, Handled, HandledBehindError;
    HandledSplits(b, chunks);
  }
}
