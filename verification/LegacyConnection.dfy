/**
 ConnectionBase of the older net library: a queue of messages and a one-message remainder.
 */
module LegacyConnection {
  import opened Bytes
  import opened Wrappers
  import opened WriteStream
  import opened Connection
  import opened Queues

  datatype Legacy = Legacy(wire: bytes, cache: bytes, queue: seq<bytes>, epollout: bool, script: seq<Answer>)

  // All bytes on the way: written, cut off in the last write, and queued.
  function Stream(c: Legacy): bytes {
    c.wire + c.cache + Concat(c.queue)
  }

  // The message HandleWrite turns to next, and what remains.
  function NextMessage(c: Legacy): (bytes, Legacy)
    requires c.cache != [] || c.queue != []
  {
    if c.cache != [] then (c.cache, c.(cache := [])) else (c.queue[0], c.(queue := c.queue[1..]))
  }

  function Drain(c: Legacy): Legacy
    decreases |c.queue|, |c.cache|
  {
    if c.cache == [] && c.queue == [] then c.(epollout := false)
    else
      var (msg, d) := NextMessage(c);
      var p := PushAll(d.script, msg);
      var e := d.(wire := d.wire + msg[..p.written], script := p.script);
      match p.stop
      case Done => Drain(e)
      case Zeroed => Drain(e)
      case Full => e.(cache := msg[p.written..], epollout := true)
      case Broken => e
  }

  // A message is given up in this HandleWrite: after a zero answer or a fatal error.
  predicate GivesUp(c: Legacy)
    decreases |c.queue|, |c.cache|
  {
    if c.cache == [] && c.queue == [] then false
    else
      var (msg, d) := NextMessage(c);
      var p := PushAll(d.script, msg);
      var e := d.(wire := d.wire + msg[..p.written], script := p.script);
      p.stop.Zeroed? || p.stop.Broken? || (p.stop.Done? && GivesUp(e))
  }

  lemma NextMessageStream(c: Legacy)
    requires c.cache != [] || c.queue != []
    ensures var (msg, d) := NextMessage(c);
            d.cache == [] && d.wire == c.wire && c.wire + msg + Concat(d.queue) == Stream(c)
  {
    if c.cache == [] {
      assert c.wire + [] == c.wire;
      assert c.wire + (c.queue[0] + Concat(c.queue[1..])) == c.wire + c.queue[0] + Concat(c.queue[1..]);
    }
  }

  // After k bytes of the next message were written, the stream is whole if the rest of the
  // message is kept, and shorter if it is dropped.
  lemma WritesPart(c: Legacy, k: nat)
    requires c.cache != [] || c.queue != []
    requires k <= |NextMessage(c).0|
    ensures var (msg, d) := NextMessage(c);
            var e := d.(wire := d.wire + msg[..k]);
            && Stream(e.(cache := msg[k..])) == Stream(c)
            && |Stream(e)| == |Stream(c)| - (|msg| - k)
            && (k == |msg| ==> Stream(e) == Stream(c))
  {
    NextMessageStream(c);
    var (msg, d) := NextMessage(c);
    var rest := Concat(d.queue);
    assert c.wire + msg[..k] + msg[k..] + rest == c.wire + msg + rest;
    if k == |msg| {
      assert c.wire + msg[..k] + [] + rest == c.wire + msg + rest;
    }
  }

  lemma {:induction false} DrainNeverGrows(c: Legacy)
    ensures |Stream(Drain(c))| <= |Stream(c)|
    decreases |c.queue|, |c.cache|
  {
    hide PushAll, Stream;
    if c.cache == [] && c.queue == [] {
      OnlyStream(c, c.(epollout := false));
    } else {
      var (msg, d) := NextMessage(c);
      var p := PushAll(d.script, msg);
      var e := d.(wire := d.wire + msg[..p.written], script := p.script);
      WritesPart(c, p.written);
      OnlyStream(d.(wire := d.wire + msg[..p.written]), e);
      OnlyStream(d.(wire := d.wire + msg[..p.written], cache := msg[p.written..]),
                 e.(cache := msg[p.written..], epollout := true));
      if p.stop.Done? || p.stop.Zeroed? {
        DrainNeverGrows(e);
      }
    }
  }

  lemma OnlyStream(c: Legacy, d: Legacy)
    requires c.wire == d.wire && c.cache == d.cache && c.queue == d.queue
    ensures Stream(c) == Stream(d)
  {
  }

  // One HandleWrite conserves the stream exactly when it gives up no message.
  lemma {:induction false} DrainConservesIff(c: Legacy)
    ensures Stream(Drain(c)) == Stream(c) <==> !GivesUp(c)
    decreases |c.queue|, |c.cache|
  {
    hide PushAll, Stream;
    if c.cache == [] && c.queue == [] {
      OnlyStream(c, c.(epollout := false));
    } else {
      var (msg, d) := NextMessage(c);
      var p := PushAll(d.script, msg);
      var e := d.(wire := d.wire + msg[..p.written], script := p.script);
      WritesPart(c, p.written);
      OnlyStream(d.(wire := d.wire + msg[..p.written]), e);
      OnlyStream(d.(wire := d.wire + msg[..p.written], cache := msg[p.written..]),
                 e.(cache := msg[p.written..], epollout := true));
      match p.stop {
        case Done => DrainConservesIff(e);
        case Zeroed => DrainNeverGrows(e);
        case Full =>
        case Broken =>
      }
    }
  }

  lemma EnqueueExtends(c: Legacy, msg: bytes)
    ensures Stream(c.(queue := c.queue + [msg], epollout := true)) == Stream(c) + msg
  {
    ConcatAppend(c.queue, [msg]);
    assert Concat([msg]) == msg + [] == msg;
  }

  function ApplyLegacy(c: Legacy, op: Op): Legacy {
    match op
    case SendOp(data) => c.(queue := c.queue + [data], epollout := true)
    case FlushOp => Drain(c)
  }

  function LegacyAfter(c: Legacy, ops: seq<Op>): Legacy {
    if ops == [] then c else ApplyLegacy(LegacyAfter(c, ops[..|ops| - 1]), ops[|ops| - 1])
  }

  ghost predicate NeverGivesUp(c: Legacy, ops: seq<Op>) {
    forall k :: 0 <= k < |ops| && ops[k].FlushOp? ==> !GivesUp(LegacyAfter(c, ops[..k]))
  }

  // Whatever the partial writes, written, cached and queued bytes are all bytes sent, in order.
  lemma {:induction false} LegacyConserved(c: Legacy, ops: seq<Op>)
    requires NeverGivesUp(c, ops)
    ensures Stream(LegacyAfter(c, ops)) == Stream(c) + Payloads(ops)
  {
    if ops == [] {
      assert Stream(c) + [] == Stream(c);
    } else {
      var n := |ops| - 1;
      assert NeverGivesUp(c, ops[..n]) by {
        assert forall k :: 0 <= k < n ==> ops[..n][k] == ops[k] && ops[..n][..k] == ops[..k];
      }
      LegacyConserved(c, ops[..n]);
      var d := LegacyAfter(c, ops[..n]);
      match ops[n] {
        case SendOp(data) =>
          EnqueueExtends(d, data);
          assert Stream(c) + Payloads(ops[..n]) + data == Stream(c) + Payloads(ops);
        case FlushOp =>
          DrainConservesIff(d);
          assert Stream(c) + Payloads(ops) == Stream(c) + (Payloads(ops[..n]) + []);
      }
    }
  }

  // Something waits only while EPOLLOUT is watched.
  predicate LegacyArmed(c: Legacy) {
    c.cache != [] || c.queue != [] ==> c.epollout
  }

  lemma {:induction false} DrainArmed(c: Legacy)
    requires LegacyArmed(c)
    ensures LegacyArmed(Drain(c))
    ensures !GivesUp(c) ==> (Drain(c).epollout <==> Drain(c).cache != [] || Drain(c).queue != [])
    decreases |c.queue|, |c.cache|
  {
    hide PushAll;
    if c.cache != [] || c.queue != [] {
      var (msg, d) := NextMessage(c);
      var p := PushAll(d.script, msg);
      var e := d.(wire := d.wire + msg[..p.written], script := p.script);
      if p.stop.Done? || p.stop.Zeroed? {
        DrainArmed(e);
      }
    }
  }

  // From an armed state, whatever the socket answers, everything that waits has EPOLLOUT watched;
  // and as long as no message is given up it is watched for nothing else.
  lemma {:induction false} LegacyStaysArmed(c: Legacy, ops: seq<Op>)
    requires LegacyArmed(c)
    ensures LegacyArmed(LegacyAfter(c, ops))
    ensures NeverGivesUp(c, ops) && (c.epollout ==> c.cache != [] || c.queue != []) ==>
              var d := LegacyAfter(c, ops);
              d.epollout <==> d.cache != [] || d.queue != []
  {
    hide Drain, GivesUp;
    if ops != [] {
      var n := |ops| - 1;
      if NeverGivesUp(c, ops) {
        assert NeverGivesUp(c, ops[..n]) by {
          assert forall k :: 0 <= k < n ==> ops[..n][k] == ops[k] && ops[..n][..k] == ops[..k];
        }
      }
      LegacyStaysArmed(c, ops[..n]);
      DrainArmed(LegacyAfter(c, ops[..n]));
    }
  }

  // The old and the new writer put the same bytes on the wire for the same sends, whatever
  // their sockets answered and whenever they flushed, once both have nothing left to write.
  lemma WritersAgree(oldOps: seq<Op>, newOps: seq<Op>, oldScript: seq<Answer>,
                    newScript: seq<Answer>, connecting: bool)
    requires Payloads(oldOps) == Payloads(newOps)
    requires var c := Legacy([], [], [], false, oldScript);
             NeverGivesUp(c, oldOps) && LegacyAfter(c, oldOps).cache == [] && LegacyAfter(c, oldOps).queue == []
    requires var c := Conn([], [], false, connecting, newScript);
             NeverLoses(c, newOps) && ConnAfter(c, newOps).pending == []
    ensures LegacyAfter(Legacy([], [], [], false, oldScript), oldOps).wire
            == ConnAfter(Conn([], [], false, connecting, newScript), newOps).wire
  {
    var c := Legacy([], [], [], false, oldScript);
    var d := Conn([], [], false, connecting, newScript);
    LegacyConserved(c, oldOps);
    StreamConserved(d, newOps);
    var e := LegacyAfter(c, oldOps);
    var f := ConnAfter(d, newOps);
    assert Stream(e) == e.wire + [] + [] == e.wire;
    assert f.wire + [] == f.wire;
    assert Stream(c) + Payloads(oldOps) == Payloads(oldOps);
    assert [] + [] + Payloads(newOps) == Payloads(newOps);
  }

  class LegacyConnectionBase {
    const socket: Socket
    const sendMQ: SpinLockQueue<bytes>
    var lastMsgCache: bytes
    var epollout: bool

    constructor (socket: Socket)
      ensures this.socket == socket && fresh(sendMQ)
      ensures State() == Legacy(socket.wire, [], [], false, socket.script)
    {
      this.socket := socket;
      sendMQ := new SpinLockQueue();
      lastMsgCache, epollout := [], false;
    }

    ghost function State(): Legacy
      reads this, socket, sendMQ
    {
      Legacy(socket.wire, lastMsgCache, sendMQ.queue, epollout, socket.script)
    }

    method Send(data: bytes)
      modifies this`epollout, sendMQ
      ensures State() == ApplyLegacy(old(State()), SendOp(data))
    {
      sendMQ.push(data);
      epollout := true;
    }

    // The inner loop: writes one message, and tells where and why it stopped.
    method WriteMessage(strMsg: bytes) returns (offset: nat, stop: Stop)
      modifies socket
      ensures var r := PushAll(old(socket.script), strMsg);
              && offset == r.written && stop == r.stop
              && socket.script == r.script && socket.wire == old(socket.wire) + strMsg[..offset]
    {
      hide PushAll, Pushed;
      offset := 0;
      var len := |strMsg|;
      PushStarts(socket.script, strMsg);
      while len > 0
        invariant 0 <= len && offset + len == |strMsg|
        invariant socket.wire == old(socket.wire) + strMsg[..offset]
        invariant Pushed(old(socket.script), strMsg, offset, socket.script)
        decreases |socket.script|, len
      {
        PushTurn(old(socket.script), strMsg, offset, socket.script);
        var n, errno := socket.Write(strMsg[offset..]);
        if n < 0 {
          if errno == Interrupted {
            continue;
          }
          return offset, if errno == WouldBlock then Full else Broken;
        } else if n == 0 {
          return offset, Zeroed;
        }
        Advance(strMsg, offset, n);
        offset := offset + n;
        len := len - n;
      }
      PushTurn(old(socket.script), strMsg, offset, socket.script);
      stop := Done;
    }

    method HandleWrite()
      modifies this`lastMsgCache, this`epollout, socket, sendMQ
      ensures State() == Drain(old(State()))
    {
      hide PushAll;
      while sendMQ.queue != [] || lastMsgCache != []
        invariant Drain(State()) == Drain(old(State()))
        decreases |sendMQ.queue|, |lastMsgCache|
      {
        var strMsg: bytes := [];
        if lastMsgCache != [] {
          strMsg := lastMsgCache;
          lastMsgCache := [];
        } else {
          var msg := sendMQ.pop();
          strMsg := msg.value;
        }
        if strMsg == [] {
          PushNothing(socket.script);
          assert State() == State().(wire := socket.wire + []);
          continue;
        }
        var offset, stop := WriteMessage(strMsg);
        if stop == Full {
          lastMsgCache := strMsg[offset..];
          epollout := true;
          return;
        }
        if stop == Broken {
          return;
        }
      }
      epollout := false;
    }
  }

  lemma PushNothing(script: seq<Answer>)
    ensures PushAll(script, []) == Push(0, script, Done)
  {
  }
}
