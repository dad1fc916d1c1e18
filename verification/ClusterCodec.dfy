/**
 The cluster wire protocol v2: ClusterPacketCodec.

 Wire and Parse specify the byte format; the methods of ByteString and Cursor are the in-place
 writers and pointer-advancing readers of the program, proved against them.
 */
module ClusterCodec {
  import opened Bytes
  import opened Wrappers

  datatype ClusterPacket = ClusterPacket(
    sourceNodeId: bytes,
    targetNodeId: bytes,
    sourceActorName: bytes,
    targetActorName: bytes,
    sessionId: uint32,
    isResponse: bool,
    data: bytes)

  const MAX_BODY: nat := 16 * 1024 * 1024
  const MIN_BODY: nat := 2 + 2 + 2 + 2 + 4 + 1 + 4

  // --------------------------------------------------------------------------------------
  // The format
  // --------------------------------------------------------------------------------------

  function U16(v: nat): (r: bytes)
    ensures |r| == 2
  {
    [(v / 0x100) % 0x100, v % 0x100]
  }

  function U32(v: nat): (r: bytes)
    ensures |r| == 4
  {
    [(v / 0x100_0000) % 0x100, (v / 0x1_0000) % 0x100, (v / 0x100) % 0x100, v % 0x100]
  }

  // The length is cast to 16 bits, the characters are all written.
  function Str16(s: bytes): (r: bytes)
    ensures |r| == 2 + |s|
  {
    U16(|s| % 0x1_0000) + s
  }

  function Str32(s: bytes): (r: bytes)
    ensures |r| == 4 + |s|
  {
    U32(|s| % 0x1_0000_0000) + s
  }

  function BodyLen(p: ClusterPacket): nat {
    MIN_BODY + |p.sourceNodeId| + |p.targetNodeId| + |p.sourceActorName| + |p.targetActorName| + |p.data|
  }

  function Body(p: ClusterPacket): (r: bytes)
    ensures |r| == BodyLen(p)
  {
    Str16(p.sourceNodeId) + (Str16(p.targetNodeId) + (Str16(p.sourceActorName) + (Str16(p.targetActorName)
    + (U32(p.sessionId) + ([if p.isResponse then 1 else 0] + Str32(p.data))))))
  }

  function Wire(p: ClusterPacket): (r: bytes)
    ensures |r| == 4 + BodyLen(p)
  {
    U32(BodyLen(p) % 0x1_0000_0000) + Body(p)
  }

  function WireAll(ps: seq<ClusterPacket>): bytes {
    if ps == [] then [] else Wire(ps[0]) + WireAll(ps[1..])
  }

  // --------------------------------------------------------------------------------------
  // Reading
  // --------------------------------------------------------------------------------------

  // A field read from position `next`'s predecessor, and where the following field starts.
  datatype Field<+T> = Field(value: T, next: nat)

  function Peek32(b: bytes, p: nat): uint32
    requires p + 4 <= |b|
  {
    b[p] as int * 0x100_0000 + b[p + 1] as int * 0x1_0000 + b[p + 2] as int * 0x100 + b[p + 3] as int
  }

  function Read8(b: bytes, p: nat, end: nat): (r: Option<Field<byte>>)
    requires end <= |b|
    ensures r.Some? ==> p <= r.value.next <= end
  {
    if p + 1 > end then None else Some(Field(b[p], p + 1))
  }

  function Read32(b: bytes, p: nat, end: nat): (r: Option<Field<uint32>>)
    requires end <= |b|
    ensures r.Some? ==> p <= r.value.next <= end
  {
    if p + 4 > end then None else Some(Field(Peek32(b, p), p + 4))
  }

  function ReadStr16(b: bytes, p: nat, end: nat): (r: Option<Field<bytes>>)
    requires end <= |b|
    ensures r.Some? ==> p <= r.value.next <= end && |r.value.value| <= 0xFFFF
  {
    if p + 2 > end then None
    else
      var n := b[p] as int * 0x100 + b[p + 1] as int;
      if p + 2 + n > end then None else Some(Field(b[p + 2..p + 2 + n], p + 2 + n))
  }

  function ReadStr32(b: bytes, p: nat, end: nat): (r: Option<Field<bytes>>)
    requires end <= |b|
    ensures r.Some? ==> p <= r.value.next <= end
  {
    if p + 4 > end then None
    else
      var n := Peek32(b, p);
      if p + 4 + n > end then None else Some(Field(b[p + 4..p + 4 + n], p + 4 + n))
  }

  // The seven fields of a body that starts at p and ends at end. Bytes after the last field
  // and the upper seven flag bits are not looked at.
  function ParseBody(b: bytes, p: nat, end: nat): Option<ClusterPacket>
    requires end <= |b|
  {
    var sourceNode :- ReadStr16(b, p, end);
    var targetNode :- ReadStr16(b, sourceNode.next, end);
    var sourceName :- ReadStr16(b, targetNode.next, end);
    var targetName :- ReadStr16(b, sourceName.next, end);
    var session :- Read32(b, targetName.next, end);
    var flags :- Read8(b, session.next, end);
    var data :- ReadStr32(b, flags.next, end);
    Some(ClusterPacket(sourceNode.value, targetNode.value, sourceName.value, targetName.value,
                       session.value, flags.value % 2 == 1, data.value))
  }

  datatype ParseResult =
    | NeedMore
    | ProtocolError
    | Parsed(packet: ClusterPacket, consumed: nat)

  function Parse(b: bytes): (r: ParseResult)
    ensures r.Parsed? ==> 4 + MIN_BODY <= r.consumed <= 4 + MAX_BODY && r.consumed <= |b|
  {
    if |b| < 4 then NeedMore
    else
      var bodyLen := Peek32(b, 0);
      if bodyLen > MAX_BODY then ProtocolError
      else if bodyLen < MIN_BODY then ProtocolError
      else if |b| < 4 + bodyLen then NeedMore
      else
        match ParseBody(b, 4, 4 + bodyLen)
        case None => ProtocolError
        case Some(p) => Parsed(p, 4 + bodyLen)
  }

  // --------------------------------------------------------------------------------------
  // Decoding what was encoded
  // --------------------------------------------------------------------------------------

  // The packets the codec carries: names within 16 bits, body within 16 MiB.
  predicate Encodable(p: ClusterPacket) {
    && |p.sourceNodeId| <= 0xFFFF && |p.targetNodeId| <= 0xFFFF
    && |p.sourceActorName| <= 0xFFFF && |p.targetActorName| <= 0xFFFF
    && BodyLen(p) <= MAX_BODY
  }

  lemma Digits(v: uint32)
    ensures (v / 0x100_0000) % 0x100 * 0x100_0000 + (v / 0x1_0000) % 0x100 * 0x1_0000
            + (v / 0x100) % 0x100 * 0x100 + v % 0x100 == v
  {
    var a := v / 0x100;
    var b := a / 0x100;
    assert v / 0x1_0000 == b;
    assert v / 0x100_0000 == b / 0x100;
  }

  lemma ReadsU32(b: bytes, p: nat, v: uint32)
    requires At(b, p, U32(v))
    ensures Peek32(b, p) == v
  {
    var piece := b[p..p + 4];
    assert b[p] == piece[0] && b[p + 1] == piece[1] && b[p + 2] == piece[2] && b[p + 3] == piece[3];
    Digits(v);
  }

  lemma ReadsStr16(b: bytes, p: nat, s: bytes, end: nat)
    requires At(b, p, Str16(s)) && |s| <= 0xFFFF && p + 2 + |s| <= end <= |b|
    ensures ReadStr16(b, p, end) == Some(Field(s, p + 2 + |s|))
  {
    AtSplit(b, p, U16(|s|), s);
    var piece := b[p..p + 2];
    assert b[p] == piece[0] && b[p + 1] == piece[1];
  }

  lemma ReadsStr32(b: bytes, p: nat, s: bytes, end: nat)
    requires At(b, p, Str32(s)) && |s| < 0x1_0000_0000 && p + 4 + |s| <= end <= |b|
    ensures ReadStr32(b, p, end) == Some(Field(s, p + 4 + |s|))
  {
    hide Peek32, U32;
    AtSplit(b, p, U32(|s|), s);
    ReadsU32(b, p, |s|);
  }

  // Where the fields of a body start.
  function Starts(pkt: ClusterPacket, p: nat): (r: seq<nat>)
    ensures |r| == 7
  {
    var p1 := p + 2 + |pkt.sourceNodeId|;
    var p2 := p1 + 2 + |pkt.targetNodeId|;
    var p3 := p2 + 2 + |pkt.sourceActorName|;
    var p4 := p3 + 2 + |pkt.targetActorName|;
    [p, p1, p2, p3, p4, p4 + 4, p4 + 5]
  }

  lemma NamesAt(b: bytes, p: nat, pkt: ClusterPacket)
    requires At(b, p, Body(pkt))
    ensures var q := Starts(pkt, p);
            && At(b, q[0], Str16(pkt.sourceNodeId)) && At(b, q[1], Str16(pkt.targetNodeId))
            && At(b, q[2], Str16(pkt.sourceActorName)) && At(b, q[3], Str16(pkt.targetActorName))
            && At(b, q[4], U32(pkt.sessionId) + ([if pkt.isResponse then 1 else 0] + Str32(pkt.data)))
  {
    hide Str16, Str32, U32;
    var q := Starts(pkt, p);
    var r5 := U32(pkt.sessionId) + ([if pkt.isResponse then 1 else 0] + Str32(pkt.data));
    var r4 := Str16(pkt.targetActorName) + r5;
    var r3 := Str16(pkt.sourceActorName) + r4;
    var r2 := Str16(pkt.targetNodeId) + r3;
    AtSplit(b, q[0], Str16(pkt.sourceNodeId), r2);
    AtSplit(b, q[1], Str16(pkt.targetNodeId), r3);
    AtSplit(b, q[2], Str16(pkt.sourceActorName), r4);
    AtSplit(b, q[3], Str16(pkt.targetActorName), r5);
  }

  lemma ReadsTail(b: bytes, p: nat, pkt: ClusterPacket, end: nat)
    requires At(b, p, U32(pkt.sessionId) + ([if pkt.isResponse then 1 else 0] + Str32(pkt.data)))
    requires |pkt.data| < 0x1_0000_0000 && p + 9 + |pkt.data| <= end <= |b|
    ensures Read32(b, p, end) == Some(Field(pkt.sessionId, p + 4))
    ensures Read8(b, p + 4, end) == Some(Field(if pkt.isResponse then 1 else 0, p + 5))
    ensures ReadStr32(b, p + 5, end) == Some(Field(pkt.data, p + 9 + |pkt.data|))
  {
    var flag: bytes := [if pkt.isResponse then 1 else 0];
    AtSplit(b, p, U32(pkt.sessionId), flag + Str32(pkt.data));
    AtSplit(b, p + 4, flag, Str32(pkt.data));
    ReadsU32(b, p, pkt.sessionId);
    assert b[p + 4] == b[p + 4..p + 5][0];
    ReadsStr32(b, p + 5, pkt.data, end);
  }

  lemma ReadsNames(b: bytes, p: nat, pkt: ClusterPacket, end: nat)
    requires Encodable(pkt) && At(b, p, Body(pkt)) && end == p + BodyLen(pkt)
    ensures var q := Starts(pkt, p);
            && ReadStr16(b, q[0], end) == Some(Field(pkt.sourceNodeId, q[1]))
            && ReadStr16(b, q[1], end) == Some(Field(pkt.targetNodeId, q[2]))
            && ReadStr16(b, q[2], end) == Some(Field(pkt.sourceActorName, q[3]))
            && ReadStr16(b, q[3], end) == Some(Field(pkt.targetActorName, q[4]))
  {
    hide ReadStr16;
    var q := Starts(pkt, p);
    NamesAt(b, p, pkt);
    ReadsStr16(b, q[0], pkt.sourceNodeId, end);
    ReadsStr16(b, q[1], pkt.targetNodeId, end);
    ReadsStr16(b, q[2], pkt.sourceActorName, end);
    ReadsStr16(b, q[3], pkt.targetActorName, end);
  }

  lemma ReadsBody(b: bytes, p: nat, pkt: ClusterPacket)
    requires Encodable(pkt) && At(b, p, Body(pkt))
    ensures ParseBody(b, p, p + BodyLen(pkt)) == Some(pkt)
  {
    hide ReadStr16, ReadStr32, Read32, Read8, Str16, Str32, U32;
    var end := p + BodyLen(pkt);
    ReadsNames(b, p, pkt, end);
    NamesAt(b, p, pkt);
    ReadsTail(b, Starts(pkt, p)[4], pkt, end);
  }

  // A buffer that starts with a frame of legal length is parsed by its body alone.
  lemma ParsesFrame(b: bytes, n: nat)
    requires At(b, 0, U32(n)) && 4 + n <= |b| && MIN_BODY <= n <= MAX_BODY
    ensures Parse(b) == match ParseBody(b, 4, 4 + n)
                        case None => ProtocolError
                        case Some(p) => Parsed(p, 4 + n)
  {
    hide ParseBody;
    ReadsU32(b, 0, n);
  }

  lemma FrameAt(head: bytes, body: bytes, rest: bytes)
    ensures At(head + body + rest, 0, head) && At(head + body + rest, |head|, body)
  {
    var b := head + body + rest;
    assert b[0..|head|] == head;
    assert b[|head|..|head| + |body|] == body;
  }

  // Decode after Encode, whatever follows in the buffer.
  lemma RoundTrip(p: ClusterPacket, rest: bytes)
    requires Encodable(p)
    ensures Parse(Wire(p) + rest) == Parsed(p, |Wire(p)|)
  {
    hide Parse, ParseBody, U32, At, Body;
    var b := Wire(p) + rest;
    FrameAt(U32(BodyLen(p)), Body(p), rest);
    ReadsBody(b, 4, p);
    ParsesFrame(b, BodyLen(p));
  }

  // Every proper prefix of an encoded packet is recognised as incomplete.
  lemma PrefixIsIncomplete(p: ClusterPacket, k: nat)
    requires Encodable(p) && k < 4 + BodyLen(p)
    ensures Parse(Wire(p)[..k]) == NeedMore
  {
    hide U32, Body, ParseBody;
    if 4 <= k {
      var b := Wire(p)[..k];
      assert b[0..4] == U32(BodyLen(p));
      ReadsU32(b, 0, BodyLen(p));
    }
  }

  lemma ParsedNames(b: bytes, p: nat, end: nat)
    requires end <= |b| && ParseBody(b, p, end).Some?
    ensures var q := ParseBody(b, p, end).value;
            && |q.sourceNodeId| <= 0xFFFF && |q.targetNodeId| <= 0xFFFF
            && |q.sourceActorName| <= 0xFFFF && |q.targetActorName| <= 0xFFFF
  {
    hide ReadStr16, ReadStr32, Read32, Read8;
  }

  // The codec carries a packet exactly when its names fit 16 bits and its body 16 MiB.
  lemma RoundTripIffEncodable(p: ClusterPacket, rest: bytes)
    ensures Parse(Wire(p) + rest) == Parsed(p, |Wire(p)|) <==> Encodable(p)
    ensures Encodable(p) <==>
              && |p.sourceNodeId| < 0x1_0000 && |p.targetNodeId| < 0x1_0000
              && |p.sourceActorName| < 0x1_0000 && |p.targetActorName| < 0x1_0000
              && 17 + |p.sourceNodeId| + |p.targetNodeId| + |p.sourceActorName| + |p.targetActorName| + |p.data|
                 <= 16 * 1024 * 1024
  {
    hide ParseBody, Wire;
    var b := Wire(p) + rest;
    if Encodable(p) {
      RoundTrip(p, rest);
    } else if Parse(b) == Parsed(p, |Wire(p)|) {
      ParsedNames(b, 4, |Wire(p)|);
      assert false;
    }
  }

  lemma Peek32Extends(b: bytes, more: bytes, p: nat)
    requires p + 4 <= |b|
    ensures Peek32(b + more, p) == Peek32(b, p)
  {
  }

  lemma Str16Extends(b: bytes, more: bytes, p: nat, end: nat)
    requires end <= |b|
    ensures ReadStr16(b + more, p, end) == ReadStr16(b, p, end)
  {
    if p + 2 <= end {
      var n := b[p] as int * 0x100 + b[p + 1] as int;
      if p + 2 + n <= end {
        assert (b + more)[p + 2..p + 2 + n] == b[p + 2..p + 2 + n];
      }
    }
  }

  lemma Str32Extends(b: bytes, more: bytes, p: nat, end: nat)
    requires end <= |b|
    ensures ReadStr32(b + more, p, end) == ReadStr32(b, p, end)
  {
    if p + 4 <= end {
      var n := Peek32(b, p);
      Peek32Extends(b, more, p);
      if p + 4 + n <= end {
        assert (b + more)[p + 4..p + 4 + n] == b[p + 4..p + 4 + n];
      }
    }
  }

  lemma FieldsExtend(b: bytes, more: bytes, p: nat, end: nat)
    requires end <= |b|
    ensures ReadStr16(b + more, p, end) == ReadStr16(b, p, end)
    ensures ReadStr32(b + more, p, end) == ReadStr32(b, p, end)
    ensures Read32(b + more, p, end) == Read32(b, p, end)
    ensures Read8(b + more, p, end) == Read8(b, p, end)
  {
    Str16Extends(b, more, p, end);
    Str32Extends(b, more, p, end);
    if p + 4 <= end {
      Peek32Extends(b, more, p);
    }
  }

  lemma BodyExtends(b: bytes, more: bytes, p: nat, end: nat)
    requires end <= |b|
    ensures ParseBody(b + more, p, end) == ParseBody(b, p, end)
  {
    hide ReadStr16, ReadStr32, Read32, Read8;
    forall q: nat
      ensures ReadStr16(b + more, q, end) == ReadStr16(b, q, end)
      ensures ReadStr32(b + more, q, end) == ReadStr32(b, q, end)
      ensures Read32(b + more, q, end) == Read32(b, q, end)
      ensures Read8(b + more, q, end) == Read8(b, q, end)
    {
      FieldsExtend(b, more, q, end);
    }
  }

  // The verdict on a buffer does not change when more bytes arrive.
  lemma ParseExtends(b: bytes, more: bytes)
    requires Parse(b) != NeedMore
    ensures Parse(b + more) == Parse(b)
  {
    hide ParseBody, Peek32;
    var bodyLen := Peek32(b, 0);
    Peek32Extends(b, more, 0);
    if MIN_BODY <= bodyLen <= MAX_BODY {
      BodyExtends(b, more, 4, 4 + bodyLen);
    }
  }

  // A buffer that is waiting for more bytes is shorter than the largest frame.
  lemma WaitingIsBounded(b: bytes)
    requires Parse(b) == NeedMore
    ensures |b| < 4 + 16 * 1024 * 1024
  {
    hide ParseBody, Peek32;
  }

  // The number that stands big-endian in these bytes.
  function BigEndian(b: bytes): nat {
    if b == [] then 0 else BigEndian(b[..|b| - 1]) * 0x100 + b[|b| - 1]
  }

  lemma U16IsBigEndian(v: nat)
    requires v < 0x1_0000
    ensures BigEndian(U16(v)) == v
  {
    var b := U16(v);
    assert b[..1][..0] == [] && b[..1][0] == b[0];
    assert BigEndian(b[..1]) == b[0];
  }

  lemma U32IsBigEndian(v: uint32)
    ensures BigEndian(U32(v)) == v
  {
    var b := U32(v);
    assert b[..3][..2] == b[..2] && b[..2][..1] == b[..1] && b[..1][..0] == [];
    assert BigEndian(b[..1]) == b[0];
    assert BigEndian(b[..2]) == b[0] as int * 0x100 + b[1];
    assert BigEndian(b[..3]) == b[0] as int * 0x1_0000 + b[1] as int * 0x100 + b[2];
    Digits(v);
  }

  // How a packet stands on the wire, byte by byte: length, the two node ids, the two names,
  // session, flags, data; all numbers big-endian.
  lemma WireLayout(p: ClusterPacket)
    requires Encodable(p)
    ensures var w := Wire(p);
            var q := Starts(p, 4);
            && BigEndian(w[0..4]) == |w| - 4
            && BigEndian(w[4..6]) == |p.sourceNodeId| && w[6..6 + |p.sourceNodeId|] == p.sourceNodeId
            && q[1] == 6 + |p.sourceNodeId| && BigEndian(w[q[1]..q[1] + 2]) == |p.targetNodeId|
            && w[q[1] + 2..q[1] + 2 + |p.targetNodeId|] == p.targetNodeId
            && q[2] == q[1] + 2 + |p.targetNodeId| && BigEndian(w[q[2]..q[2] + 2]) == |p.sourceActorName|
            && w[q[2] + 2..q[2] + 2 + |p.sourceActorName|] == p.sourceActorName
            && q[3] == q[2] + 2 + |p.sourceActorName| && BigEndian(w[q[3]..q[3] + 2]) == |p.targetActorName|
            && w[q[3] + 2..q[3] + 2 + |p.targetActorName|] == p.targetActorName
            && q[4] == q[3] + 2 + |p.targetActorName| && BigEndian(w[q[4]..q[4] + 4]) == p.sessionId
            && w[q[4] + 4] == (if p.isResponse then 1 else 0)
            && BigEndian(w[q[4] + 5..q[4] + 9]) == |p.data| && w[q[4] + 9..] == p.data
  {
    hide Str16, Str32, U32, U16, BigEndian, Body, Wire, At;
    var w, q := Wire(p), Starts(p, 4);
    BodyStands(p);
    NamesAt(w, 4, p);
    NameStands(w, q[0], p.sourceNodeId);
    NameStands(w, q[1], p.targetNodeId);
    NameStands(w, q[2], p.sourceActorName);
    NameStands(w, q[3], p.targetActorName);
    TailStands(w, q[4], p);
  }

  lemma BodyStands(p: ClusterPacket)
    requires Encodable(p)
    ensures At(Wire(p), 4, Body(p)) && BigEndian(Wire(p)[0..4]) == BodyLen(p)
  {
    hide U32, BigEndian, Body;
    FrameAt(U32(BodyLen(p)), Body(p), []);
    assert U32(BodyLen(p)) + Body(p) + [] == Wire(p);
    U32IsBigEndian(BodyLen(p));
  }

  lemma NameStands(w: bytes, pos: nat, s: bytes)
    requires At(w, pos, Str16(s)) && |s| < 0x1_0000
    ensures pos + 2 + |s| <= |w| && BigEndian(w[pos..pos + 2]) == |s| && w[pos + 2..pos + 2 + |s|] == s
  {
    hide U16, BigEndian;
    AtSplit(w, pos, U16(|s|), s);
    U16IsBigEndian(|s|);
  }

  lemma TailStands(w: bytes, pos: nat, p: ClusterPacket)
    requires At(w, pos, U32(p.sessionId) + ([if p.isResponse then 1 else 0] + Str32(p.data)))
    requires |w| == pos + 9 + |p.data| && |p.data| < 0x1_0000_0000
    ensures BigEndian(w[pos..pos + 4]) == p.sessionId && w[pos + 4] == (if p.isResponse then 1 else 0)
    ensures BigEndian(w[pos + 5..pos + 9]) == |p.data| && w[pos + 9..] == p.data
  {
    hide U32, BigEndian;
    var flag: bytes := [if p.isResponse then 1 else 0];
    AtSplit(w, pos, U32(p.sessionId), flag + Str32(p.data));
    AtSplit(w, pos + 4, flag, Str32(p.data));
    AtSplit(w, pos + 5, U32(|p.data|), p.data);
    assert w[pos + 4..pos + 5][0] == flag[0];
    U32IsBigEndian(p.sessionId);
    U32IsBigEndian(|p.data|);
  }

  // --------------------------------------------------------------------------------------
  // Encoding what was decoded
  // --------------------------------------------------------------------------------------

  lemma Peeked(b: bytes, p: nat)
    requires p + 4 <= |b|
    ensures At(b, p, U32(Peek32(b, p)))
  {
    var v := Peek32(b, p);
    var low: int := b[p + 2] as int * 0x100 + b[p + 3];
    assert v / 0x100 == b[p] as int * 0x1_0000 + b[p + 1] as int * 0x100 + b[p + 2];
    assert v / 0x1_0000 == b[p] as int * 0x100 + b[p + 1] && v / 0x100_0000 == b[p];
    assert b[p..p + 4] == U32(v);
  }

  lemma TwoDigits(high: byte, low: byte)
    ensures U16(high as int * 0x100 + low as int) == [high, low]
  {
  }

  lemma WasStr16(b: bytes, p: nat, end: nat)
    requires end <= |b| && ReadStr16(b, p, end).Some?
    ensures var f := ReadStr16(b, p, end).value;
            At(b, p, Str16(f.value)) && f.next == p + 2 + |f.value|
  {
    hide U16;
    var s := ReadStr16(b, p, end).value.value;
    TwoDigits(b[p], b[p + 1]);
    assert b[p..p + 2] == U16(|s|);
    AtJoin(b, p, U16(|s|), s);
  }

  lemma WasStr32(b: bytes, p: nat, end: nat)
    requires end <= |b| && ReadStr32(b, p, end).Some?
    ensures var f := ReadStr32(b, p, end).value;
            At(b, p, Str32(f.value)) && f.next == p + 4 + |f.value|
  {
    hide U32, Peek32;
    var s := ReadStr32(b, p, end).value.value;
    Peeked(b, p);
    AtJoin(b, p, U32(|s|), s);
  }

  // The fields of a decoded packet stand in the buffer one after the other.
  lemma FieldsStand(b: bytes, p: nat, end: nat)
    requires end <= |b| && ParseBody(b, p, end).Some?
    ensures var pkt := ParseBody(b, p, end).value;
            var q := Starts(pkt, p);
            && At(b, q[0], Str16(pkt.sourceNodeId)) && At(b, q[1], Str16(pkt.targetNodeId))
            && At(b, q[2], Str16(pkt.sourceActorName)) && At(b, q[3], Str16(pkt.targetActorName))
            && At(b, q[4], U32(pkt.sessionId)) && q[5] < |b| && pkt.isResponse == (b[q[5]] % 2 == 1)
            && At(b, q[6], Str32(pkt.data))
  {
    hide ReadStr16, ReadStr32, Peek32, U32, Str16, Str32;
    var sourceNode := ReadStr16(b, p, end).value;
    var targetNode := ReadStr16(b, sourceNode.next, end).value;
    var sourceName := ReadStr16(b, targetNode.next, end).value;
    var targetName := ReadStr16(b, sourceName.next, end).value;
    WasStr16(b, p, end);
    WasStr16(b, sourceNode.next, end);
    WasStr16(b, targetNode.next, end);
    WasStr16(b, sourceName.next, end);
    Peeked(b, targetName.next);
    WasStr32(b, targetName.next + 5, end);
  }

  // The decoded body is an encoding exactly when its flag byte is 0 or 1.
  lemma BodyStandsIff(b: bytes, p: nat, end: nat)
    requires end <= |b| && ParseBody(b, p, end).Some?
    ensures var pkt := ParseBody(b, p, end).value;
            At(b, p, Body(pkt)) <==> b[Starts(pkt, p)[5]] <= 1
  {
    hide ParseBody, U32, Str16, Str32, Body;
    var pkt := ParseBody(b, p, end).value;
    var q := Starts(pkt, p);
    FieldsStand(b, p, end);
    if At(b, p, Body(pkt)) {
      FlagStands(b, p, pkt);
    }
    if b[q[5]] <= 1 {
      var flag: bytes := [if pkt.isResponse then 1 else 0];
      assert b[q[5]..q[5] + 1] == flag;
      AtJoin(b, q[5], flag, Str32(pkt.data));
      AtJoin(b, q[4], U32(pkt.sessionId), flag + Str32(pkt.data));
      NamesStand(b, p, pkt);
    }
  }

  lemma FlagStands(b: bytes, p: nat, pkt: ClusterPacket)
    requires At(b, p, Body(pkt))
    ensures Starts(pkt, p)[5] < |b| && b[Starts(pkt, p)[5]] <= 1
  {
    hide U32, Str16, Str32, Body;
    var q := Starts(pkt, p);
    var flag: bytes := [if pkt.isResponse then 1 else 0];
    NamesAt(b, p, pkt);
    AtSplit(b, q[4], U32(pkt.sessionId), flag + Str32(pkt.data));
    AtSplit(b, q[5], flag, Str32(pkt.data));
    assert b[q[5]..q[5] + 1][0] == flag[0];
  }

  lemma NamesStand(b: bytes, p: nat, pkt: ClusterPacket)
    requires var q := Starts(pkt, p);
             && At(b, q[0], Str16(pkt.sourceNodeId)) && At(b, q[1], Str16(pkt.targetNodeId))
             && At(b, q[2], Str16(pkt.sourceActorName)) && At(b, q[3], Str16(pkt.targetActorName))
             && At(b, q[4], U32(pkt.sessionId) + ([if pkt.isResponse then 1 else 0] + Str32(pkt.data)))
    ensures At(b, p, Body(pkt))
  {
    hide Str16, Str32, U32, At;
    var q := Starts(pkt, p);
    var r5 := U32(pkt.sessionId) + ([if pkt.isResponse then 1 else 0] + Str32(pkt.data));
    var r4 := Str16(pkt.targetActorName) + r5;
    var r3 := Str16(pkt.sourceActorName) + r4;
    var r2 := Str16(pkt.targetNodeId) + r3;
    AtJoin(b, q[3], Str16(pkt.targetActorName), r5);
    AtJoin(b, q[2], Str16(pkt.sourceActorName), r4);
    AtJoin(b, q[1], Str16(pkt.targetNodeId), r3);
    AtJoin(b, q[0], Str16(pkt.sourceNodeId), r2);
  }

  // Where the flags of a packet stand in its frame.
  function FlagsAt(p: ClusterPacket): nat {
    Starts(p, 4)[5]
  }

  // Encoding a decoded packet gives its bytes back exactly when the body has no trailing bytes
  // and the flags no bit but the first.
  lemma ReencodesIff(b: bytes)
    requires Parse(b).Parsed?
    ensures var p, n := Parse(b).packet, Parse(b).consumed;
            && FlagsAt(p) < n
            && (Wire(p) == b[..n] <==> n == 4 + BodyLen(p) && b[FlagsAt(p)] <= 1)
  {
    hide ParseBody, Peek32, U32, Body;
    var p, n := Parse(b).packet, Parse(b).consumed;
    FieldsFit(b, 4, n);
    Peeked(b, 0);
    BodyStandsIff(b, 4, n);
    if n == 4 + BodyLen(p) {
      assert b[..n] == b[0..4] + b[4..n];
      assert Wire(p)[..4] == U32(BodyLen(p)) && Wire(p)[4..] == Body(p);
      assert b[..n][4..] == b[4..n];
    }
  }

  lemma FieldsFit(b: bytes, p: nat, end: nat)
    requires end <= |b| && ParseBody(b, p, end).Some?
    ensures p + BodyLen(ParseBody(b, p, end).value) <= end
  {
    hide ReadStr16, ReadStr32, Peek32;
    var sourceNode := ReadStr16(b, p, end).value;
    var targetNode := ReadStr16(b, sourceNode.next, end).value;
    var sourceName := ReadStr16(b, targetNode.next, end).value;
    var targetName := ReadStr16(b, sourceName.next, end).value;
    WasStr16(b, p, end);
    WasStr16(b, sourceNode.next, end);
    WasStr16(b, targetNode.next, end);
    WasStr16(b, sourceName.next, end);
    WasStr32(b, targetName.next + 5, end);
  }

  // Two frames of the empty packet that are not its encoding: one with a second flag bit, one
  // with a byte behind the data.
  const WITH_FLAG_BIT: bytes := [0, 0, 0, 17, 0, 0, 0, 0, 0, 0, 0, 0, 0, 0, 0, 0, 2, 0, 0, 0, 0]
  const WITH_TRAILER: bytes := [0, 0, 0, 18, 0, 0, 0, 0, 0, 0, 0, 0, 0, 0, 0, 0, 0, 0, 0, 0, 0, 7]
  const EMPTY: ClusterPacket := ClusterPacket([], [], [], [], 0, false, [])

  lemma OtherFramesDecodeToo()
    ensures Parse(WITH_FLAG_BIT) == Parsed(EMPTY, 21) && Wire(EMPTY) != WITH_FLAG_BIT
    ensures Parse(WITH_TRAILER) == Parsed(EMPTY, 22) && Wire(EMPTY) != WITH_TRAILER
  {
    hide Parse, Wire;
    ParsesEmpty(WITH_FLAG_BIT, 21);
    ParsesEmpty(WITH_TRAILER, 22);
    ReencodesIff(WITH_FLAG_BIT);
    ReencodesIff(WITH_TRAILER);
    assert FlagsAt(EMPTY) == 16 && BodyLen(EMPTY) == 17;
    assert WITH_FLAG_BIT[..21] == WITH_FLAG_BIT && WITH_TRAILER[..22] == WITH_TRAILER;
  }

  lemma ParsesEmpty(b: bytes, n: nat)
    requires 21 <= n <= 22 && |b| == n && b[..4] == [0, 0, 0, n - 4]
    requires forall i :: 4 <= i < 21 && i != 16 ==> b[i] == 0
    requires b[16] % 2 == 0
    ensures Parse(b) == Parsed(EMPTY, n)
  {
    assert b[0] == b[..4][0] && b[1] == b[..4][1] && b[2] == b[..4][2] && b[3] == b[..4][3];
    assert ReadStr16(b, 4, n) == Some(Field([], 6)) && ReadStr16(b, 6, n) == Some(Field([], 8));
    assert ReadStr16(b, 8, n) == Some(Field([], 10)) && ReadStr16(b, 10, n) == Some(Field([], 12));
    assert Read32(b, 12, n) == Some(Field(0, 16));
    assert Peek32(b, 17) == 0 && b[21..21] == [];
    assert ReadStr32(b, 17, n) == Some(Field([], 21));
  }

  // --------------------------------------------------------------------------------------
  // The writers: each appends to a string in place
  // --------------------------------------------------------------------------------------

  class ByteString {
    var s: bytes

    constructor ()
      ensures s == []
    {
      s := [];
    }

    method PushBack(v: byte)
      modifies this
      ensures s == old(s) + [v]
    {
      s := s + [v];
    }

    method WriteU8(v: byte)
      modifies this
      ensures s == old(s) + [v]
    {
      PushBack(v);
    }

    method WriteU16(v: nat)
      modifies this
      ensures s == old(s) + U16(v)
    {
      PushBack((v / 0x100) % 0x100);
      PushBack(v % 0x100);
    }

    method WriteU32(v: nat)
      modifies this
      ensures s == old(s) + U32(v)
    {
      PushBack((v / 0x100_0000) % 0x100);
      PushBack((v / 0x1_0000) % 0x100);
      PushBack((v / 0x100) % 0x100);
      PushBack(v % 0x100);
    }

    method WriteStr16(t: bytes)
      modifies this
      ensures s == old(s) + Str16(t)
    {
      WriteU16(|t| % 0x1_0000);
      s := s + t;
    }

    method WriteStr32(t: bytes)
      modifies this
      ensures s == old(s) + Str32(t)
    {
      WriteU32(|t| % 0x1_0000_0000);
      s := s + t;
    }
  }

  lemma BodyAssociates(p: ClusterPacket)
    ensures [] + Str16(p.sourceNodeId) + Str16(p.targetNodeId) + Str16(p.sourceActorName)
            + Str16(p.targetActorName) + U32(p.sessionId) + [if p.isResponse then 1 else 0] + Str32(p.data)
            == Body(p)
  {
    hide Str16, Str32, U32;
  }

  method Encode(pkt: ClusterPacket) returns (result: bytes)
    ensures result == Wire(pkt)
  {
    hide Str16, Str32, U32, Body;
    var body := new ByteString();
    body.WriteStr16(pkt.sourceNodeId);
    body.WriteStr16(pkt.targetNodeId);
    body.WriteStr16(pkt.sourceActorName);
    body.WriteStr16(pkt.targetActorName);
    body.WriteU32(pkt.sessionId);
    body.WriteU8(if pkt.isResponse then 1 else 0);
    body.WriteStr32(pkt.data);
    BodyAssociates(pkt);
    var framed := new ByteString();
    framed.WriteU32(|body.s| % 0x1_0000_0000);
    result := framed.s + body.s;
  }

  // --------------------------------------------------------------------------------------
  // The readers: each advances a pointer, and returns false at the end of the body
  // --------------------------------------------------------------------------------------

  class Cursor {
    const data: bytes
    const end: nat
    var p: nat

    constructor (data: bytes, p: nat, end: nat)
      requires p <= end <= |data|
      ensures this.data == data && this.end == end && this.p == p
    {
      this.data, this.end, this.p := data, end, p;
    }

    ghost predicate Valid()
      reads this
    {
      p <= end <= |data|
    }

    method TakeU8() returns (ok: bool, v: byte)
      requires Valid()
      modifies this
      ensures Valid()
      ensures ok == Read8(data, old(p), end).Some?
      ensures ok ==> Read8(data, old(p), end).value == Field(v, p)
    {
      if p + 1 > end {
        return false, 0;
      }
      v := data[p];
      p := p + 1;
      ok := true;
    }

    method TakeU32() returns (ok: bool, v: uint32)
      requires Valid()
      modifies this
      ensures Valid()
      ensures ok == Read32(data, old(p), end).Some?
      ensures ok ==> Read32(data, old(p), end).value == Field(v, p)
    {
      if p + 4 > end {
        return false, 0;
      }
      v := Peek32(data, p);
      p := p + 4;
      ok := true;
    }

    method TakeStr16() returns (ok: bool, s: bytes)
      requires Valid()
      modifies this
      ensures Valid()
      ensures ok == ReadStr16(data, old(p), end).Some?
      ensures ok ==> ReadStr16(data, old(p), end).value == Field(s, p)
    {
      if p + 2 > end {
        return false, [];
      }
      var len := data[p] as int * 0x100 + data[p + 1] as int;
      p := p + 2;
      if p + len > end {
        return false, [];
      }
      s := data[p..p + len];
      p := p + len;
      ok := true;
    }

    method TakeStr32() returns (ok: bool, s: bytes)
      requires Valid()
      modifies this
      ensures Valid()
      ensures ok == ReadStr32(data, old(p), end).Some?
      ensures ok ==> ReadStr32(data, old(p), end).value == Field(s, p)
    {
      if p + 4 > end {
        return false, [];
      }
      var len := Peek32(data, p);
      p := p + 4;
      if p + len > end {
        return false, [];
      }
      s := data[p..p + len];
      p := p + len;
      ok := true;
    }
  }

  const NO_PACKET: ClusterPacket := ClusterPacket([], [], [], [], 0, false, [])

  // A positive result is the number of bytes consumed, zero asks for more data, and minus one
  // reports a protocol error.
  method Decode(data: bytes) returns (consumed: int, out: ClusterPacket)
    ensures match Parse(data)
            case NeedMore => consumed == 0
            case ProtocolError => consumed == -1
            case Parsed(p, n) => consumed == n && out == p
  {
    hide Peek32, ReadStr16, ReadStr32, Read32, Read8;
    out := NO_PACKET;
    if |data| < 4 {
      return 0, out;
    }
    var bodyLen := Peek32(data, 0);
    if bodyLen > MAX_BODY {
      return -1, out;
    }
    if bodyLen < MIN_BODY {
      return -1, out;
    }
    if |data| < 4 + bodyLen {
      return 0, out;
    }
    var c := new Cursor(data, 4, 4 + bodyLen);
    var ok, s := c.TakeStr16();
    if !ok { return -1, out; }
    out := out.(sourceNodeId := s);
    ok, s := c.TakeStr16();
    if !ok { return -1, out; }
    out := out.(targetNodeId := s);
    ok, s := c.TakeStr16();
    if !ok { return -1, out; }
    out := out.(sourceActorName := s);
    ok, s := c.TakeStr16();
    if !ok { return -1, out; }
    out := out.(targetActorName := s);
    var session: uint32;
    ok, session := c.TakeU32();
    if !ok { return -1, out; }
    var flags: byte;
    ok, flags := c.TakeU8();
    if !ok { return -1, out; }
    out := out.(sessionId := session, isResponse := flags % 2 == 1);
    ok, s := c.TakeStr32();
    if !ok { return -1, out; }
    out := out.(data := s);
    return 4 + bodyLen, out;
  }
}
