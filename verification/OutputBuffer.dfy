/**
 Buffer: two cursors over one growing array, a byte queue.
 */
module OutputBuffer {
  import opened Bytes

  const CHEAP_PREPEND: nat := 8

  function Max(a: nat, b: nat): nat {
    if a < b then b else a
  }

  class Buffer {
    var buffer: array<byte>
    var readerIndex: nat
    var writerIndex: nat
    // The size asked for at construction, and the most bytes that ever waited.
    ghost const initialSize: nat
    ghost var peak: nat

    constructor (initialSize: nat)
      ensures Valid() && Readable() == [] && fresh(buffer)
      ensures this.initialSize == initialSize && peak == 0
    {
      buffer := new byte[CHEAP_PREPEND + initialSize](_ => 0);
      readerIndex, writerIndex := CHEAP_PREPEND, CHEAP_PREPEND;
      this.initialSize := initialSize;
      peak := 0;
    }

    // The cursors are ordered, and the capacity is bounded by what ever had to wait.
    ghost predicate Valid()
      reads this, buffer
    {
      && CHEAP_PREPEND <= readerIndex <= writerIndex <= buffer.Length
      && writerIndex - readerIndex <= peak
      && buffer.Length <= Max(CHEAP_PREPEND + initialSize, 2 * (peak + CHEAP_PREPEND))
    }

    ghost function Readable(): (r: bytes)
      requires Valid()
      reads this, buffer
      ensures |r| == writerIndex - readerIndex
    {
      buffer[readerIndex..writerIndex]
    }

    function ReadableBytes(): nat
      requires Valid()
      reads this, buffer
    {
      writerIndex - readerIndex
    }

    predicate Empty()
      reads this
    {
      readerIndex == writerIndex
    }

    // Moves the waiting bytes to the front, or, if that does not make room, at least doubles
    // the array.
    method MakeSpace(len: nat)
      requires Valid() && buffer.Length - writerIndex < len
      modifies this`buffer, this`readerIndex, this`writerIndex, this`peak, buffer
      ensures Valid() && Readable() == old(Readable())
      ensures peak == Max(old(peak), |Readable()| + len)
      ensures buffer.Length - writerIndex >= len
      ensures buffer == old(buffer) || fresh(buffer)
    {
      ghost var readable := buffer[readerIndex..writerIndex];
      peak := Max(peak, writerIndex - readerIndex + len);
      if (buffer.Length - writerIndex) + readerIndex < len + CHEAP_PREPEND {
        var needed := writerIndex + len;
        var newCap := Max(buffer.Length * 2, needed);
        var grown := new byte[newCap](_ => 0);
        forall i | 0 <= i < buffer.Length {
          grown[i] := buffer[i];
        }
        assert grown[readerIndex..writerIndex] == readable;
        buffer := grown;
      } else {
        assert CHEAP_PREPEND < readerIndex;
        SlideToFront();
      }
    }

    // The branch of MakeSpace that reuses the room in front.
    method SlideToFront()
      requires Valid()
      modifies this`readerIndex, this`writerIndex, buffer
      ensures Valid() && Readable() == old(Readable()) && readerIndex == CHEAP_PREPEND
    {
      ghost var waiting := buffer[readerIndex..writerIndex];
      var readable := writerIndex - readerIndex;
      forall i | 0 <= i < readable {
        buffer[CHEAP_PREPEND + i] := buffer[readerIndex + i];
      }
      assert buffer[CHEAP_PREPEND..CHEAP_PREPEND + readable] == waiting;
      readerIndex := CHEAP_PREPEND;
      writerIndex := readerIndex + readable;
    }

    method EnsureWritableBytes(len: nat)
      requires Valid()
      modifies this`buffer, this`readerIndex, this`writerIndex, this`peak, buffer
      ensures Valid() && Readable() == old(Readable())
      ensures peak == Max(old(peak), |Readable()| + len)
      ensures buffer.Length - writerIndex >= len
      ensures buffer == old(buffer) || fresh(buffer)
    {
      if buffer.Length - writerIndex < len {
        MakeSpace(len);
      } else {
        peak := Max(peak, writerIndex - readerIndex + len);
      }
      assert buffer.Length - writerIndex >= len;
    }

    method Append(data: bytes)
      requires Valid()
      modifies this, buffer
      ensures Valid() && Readable() == old(Readable()) + data
      ensures peak == Max(old(peak), |Readable()|)
      ensures buffer == old(buffer) || fresh(buffer)
    {
      hide Readable;
      if |data| == 0 {
        return;
      }
      EnsureWritableBytes(|data|);
      CopyIn(data);
    }

    method CopyIn(data: bytes)
      requires Valid() && |data| <= buffer.Length - writerIndex && writerIndex - readerIndex + |data| <= peak
      modifies this`writerIndex, buffer
      ensures Valid() && Readable() == old(Readable()) + data
    {
      ghost var readable := buffer[readerIndex..writerIndex];
      forall i | 0 <= i < |data| {
        buffer[writerIndex + i] := data[i];
      }
      assert buffer[readerIndex..writerIndex] == readable;
      assert buffer[writerIndex..writerIndex + |data|] == data;
      writerIndex := writerIndex + |data|;
    }

    // The sent bytes are dropped by moving a cursor; an empty buffer starts over.
    method Retrieve(len: nat)
      requires Valid() && len <= |Readable()|
      modifies this`readerIndex, this`writerIndex
      ensures Valid() && Readable() == old(Readable())[len..]
      ensures Readable() == [] ==> readerIndex == CHEAP_PREPEND
    {
      if len < ReadableBytes() {
        readerIndex := readerIndex + len;
      } else {
        RetrieveAll();
      }
    }

    method RetrieveAll()
      requires Valid()
      modifies this`readerIndex, this`writerIndex
      ensures Valid() && Readable() == [] && readerIndex == CHEAP_PREPEND
    {
      readerIndex := CHEAP_PREPEND;
      writerIndex := CHEAP_PREPEND;
    }
  }
}
