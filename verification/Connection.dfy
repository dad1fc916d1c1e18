/**
 ConnectionBase and Connector of net_actor: writes directly while nothing waits, and otherwise
 through the output buffer. All methods run in the thread of the event loop.
 */
module Connection {
  import opened Bytes
  import opened OutputBuffer
  import opened WriteStream

  // The socket: what was written, and the answers it will give.
  class Socket {
    var wire: bytes
    var script: seq<Answer>

    constructor (script: seq<Answer>)
      ensures wire == [] && this.script == script
    {
      wire, this.script := [], script;
    }

    // n > 0: bytes taken; 0: none taken; below 0: an error, told by its kind.
    method Write(data: bytes) returns (n: int, errno: Answer)
      requires data != []
      modifies this
      ensures errno == (if old(script) == [] then WouldBlock else old(script)[0])
      ensures script == if old(script) == [] then [] else old(script)[1..]
      ensures n == match errno
                   case Took(m) => Clip(m, |data|)
                   case TookNone => 0
                   case Interrupted => -1
                   case WouldBlock => -1
                   case Failed => -1
      ensures wire == if n > 0 then old(wire) + data[..n] else old(wire)
    {
      if |script| == 0 {
        return -1, WouldBlock;
      }
      errno := script[0];
      script := script[1..];
      match errno {
        case Took(m) =>
          n := Clip(m, |data|);
          wire := wire + data[..n];
        case TookNone => n := 0;
        case _ => n := -1;
      }
    }
  }

  class ConnectionBase {
    const socket: Socket
    const outputBuffer: Buffer
    var epollout: bool
    var connecting: bool

    constructor (socket: Socket, initialSize: nat, connecting: bool)
      ensures this.socket == socket && Valid() && fresh(outputBuffer) && fresh(outputBuffer.buffer)
      ensures State() == Conn(socket.wire, [], false, connecting, socket.script)
    {
      this.socket := socket;
      outputBuffer := new Buffer(initialSize);
      epollout := false;
      this.connecting := connecting;
    }

    ghost predicate Valid()
      reads this, outputBuffer, outputBuffer.buffer
    {
      outputBuffer.Valid()
    }

    ghost function State(): Conn
      requires Valid()
      reads this, socket, outputBuffer, outputBuffer.buffer
    {
      Conn(socket.wire, outputBuffer.Readable(), epollout, connecting, socket.script)
    }

    // The write loop of sendInLoop.
    method WriteDirectly(p: bytes) returns (offset: nat, failed: bool)
      modifies socket
      ensures var r := PushAll(old(socket.script), p);
              && offset == r.written && failed == r.stop.Broken?
              && socket.script == r.script && socket.wire == old(socket.wire) + p[..offset]
    {
      hide PushAll, Pushed;
      offset, failed := 0, false;
      PushStarts(socket.script, p);
      while offset < |p|
        invariant offset <= |p|
        invariant socket.wire == old(socket.wire) + p[..offset]
        invariant Pushed(old(socket.script), p, offset, socket.script)
        decreases |socket.script|, |p| - offset
      {
        PushTurn(old(socket.script), p, offset, socket.script);
        var n, errno := socket.Write(p[offset..]);
        if n > 0 {
          assert p[..offset] + p[offset..][..n] == p[..offset + n];
          offset := offset + n;
        } else if n < 0 {
          if errno == Interrupted {
            continue;
          }
          if errno == WouldBlock {
            return;
          }
          failed := true;
          return;
        } else {
          return;
        }
      }
      PushTurn(old(socket.script), p, offset, socket.script);
    }

    method sendInLoop(p: bytes)
      requires Valid()
      modifies this`epollout, socket, outputBuffer, outputBuffer.buffer
      ensures Valid() && State() == WriteStream.Send(old(State()), p)
      ensures outputBuffer.buffer == old(outputBuffer.buffer) || fresh(outputBuffer.buffer)
    {
      var offset := 0;
      if outputBuffer.Empty() && !connecting {
        var failed;
        offset, failed := WriteDirectly(p);
        if failed {
          return;
        }
      }
      if offset < |p| {
        outputBuffer.Append(p[offset..]);
        epollout := true;
      }
    }

    // The write loop of HandleWrite, and how it ended.
    method WriteBuffered() returns (stop: Stop)
      requires Valid()
      modifies socket, outputBuffer
      ensures Valid()
      ensures State() == WriteOut(old(State()))
      ensures stop == PushAll(old(socket.script), old(outputBuffer.Readable())).stop
    {
      hide PushAll, Pushed, Clip;
      hide Buffer.Readable, Buffer.Valid;
      ghost var all := outputBuffer.Readable();
      ghost var offset := 0;
      PushStarts(socket.script, all);
      while !outputBuffer.Empty()
        invariant Valid() && offset <= |all|
        invariant outputBuffer.buffer == old(outputBuffer.buffer)
        invariant outputBuffer.Readable() == all[offset..]
        invariant socket.wire == old(socket.wire) + all[..offset]
        invariant Pushed(old(socket.script), all, offset, socket.script)
        decreases |socket.script|, |all| - offset
      {
        PushTurn(old(socket.script), all, offset, socket.script);
        var n, errno := WriteOnce();
        if n < 0 {
          if errno == Interrupted {
            continue;
          }
          return if errno == WouldBlock then Full else Broken;
        } else if n == 0 {
          return Zeroed;
        }
        Advance(all, offset, n);
        offset := offset + n;
      }
      PushTurn(old(socket.script), all, offset, socket.script);
      stop := Done;
    }

    // One turn of the loop: whatever the socket takes leaves the buffer.
    method WriteOnce() returns (n: int, errno: Answer)
      requires Valid() && outputBuffer.Readable() != []
      modifies socket, outputBuffer
      ensures Valid() && outputBuffer.buffer == old(outputBuffer.buffer)
      ensures errno == (if old(socket.script) == [] then WouldBlock else old(socket.script)[0])
      ensures socket.script == if old(socket.script) == [] then [] else old(socket.script)[1..]
      ensures n == match errno
                   case Took(m) => Clip(m, |old(outputBuffer.Readable())|)
                   case TookNone => 0
                   case Interrupted => -1
                   case WouldBlock => -1
                   case Failed => -1
      ensures n > 0 ==>
                && socket.wire == old(socket.wire) + old(outputBuffer.Readable())[..n]
                && outputBuffer.Readable() == old(outputBuffer.Readable())[n..]
      ensures n <= 0 ==> socket.wire == old(socket.wire) && outputBuffer.Readable() == old(outputBuffer.Readable())
    {
      var data := outputBuffer.buffer[outputBuffer.readerIndex..outputBuffer.writerIndex];
      n, errno := socket.Write(data);
      if n > 0 {
        outputBuffer.Retrieve(n);
      }
    }

    // Only a full socket keeps EPOLLOUT watched; after a fatal error nothing is changed.
    method UpdateInterest(stop: Stop)
      requires Valid()
      modifies this`epollout
      ensures Valid() && State() == old(State()).(epollout := Interest(stop, old(epollout)))
    {
      match stop {
        case Full => epollout := true;
        case Broken =>
        case _ => epollout := false;
      }
    }

    method HandleWrite()
      requires Valid()
      modifies this`epollout, socket, outputBuffer
      ensures Valid() && State() == Flush(old(State()))
    {
      hide PushAll, WriteOut, Interest;
      var stop := WriteBuffered();
      UpdateInterest(stop);
    }

    // Connector::HandleWrite, when the connect succeeded.
    method ConnectorHandleWrite()
      requires Valid()
      modifies this`epollout, this`connecting, socket, outputBuffer
      ensures Valid() && State() == HandleWritable(old(State()))
    {
      hide Flush;
      hide Buffer.Readable;
      if connecting {
        connecting := false;
        epollout := !outputBuffer.Empty();
        return;
      }
      HandleWrite();
    }
  }

  lemma Advance(all: bytes, offset: nat, n: nat)
    requires offset + n <= |all|
    ensures all[..offset] + all[offset..][..n] == all[..offset + n]
    ensures all[offset..][n..] == all[offset + n..]
  {
  }
}
