/** Byte strings, and the concatenation of a list of them. */
module Bytes {

  type byte = x: int | 0 <= x < 256
  type bytes = seq<byte>

  type uint32 = x: int | 0 <= x < 0x1_0000_0000

  function Concat(parts: seq<bytes>): bytes {
    if parts == [] then [] else parts[0] + Concat(parts[1..])
  }

  lemma {:induction false} ConcatAppend(front: seq<bytes>, back: seq<bytes>)
    ensures Concat(front + back) == Concat(front) + Concat(back)
  {
    if front == [] {
      assert front + back == back;
    } else {
      assert (front + back)[1..] == front[1..] + back;
      ConcatAppend(front[1..], back);
    }
  }

  // `piece` stands in `b` at position `pos`.
  ghost predicate At(b: bytes, pos: nat, piece: bytes) {
    pos + |piece| <= |b| && b[pos..pos + |piece|] == piece
  }

  lemma AtSplit(b: bytes, pos: nat, left: bytes, right: bytes)
    requires At(b, pos, left + right)
    ensures At(b, pos, left) && At(b, pos + |left|, right)
  {
    var whole := b[pos..pos + |left + right|];
    assert b[pos..pos + |left|] == whole[..|left|];
    assert b[pos + |left|..pos + |left| + |right|] == whole[|left|..];
  }

  lemma AtJoin(b: bytes, pos: nat, left: bytes, right: bytes)
    requires At(b, pos, left) && At(b, pos + |left|, right)
    ensures At(b, pos, left + right)
  {
    var end := pos + |left| + |right|;
    assert b[pos..end] == b[pos..pos + |left|] + b[pos + |left|..end];
  }
}
