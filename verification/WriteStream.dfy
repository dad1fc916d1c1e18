/**
 Writing a byte stream to a non-blocking socket: what the system call may answer, and what the
 writer of a connection makes of it.
 */
module WriteStream {
  import opened Bytes

  // One answer of write(2): some bytes taken, EINTR, EAGAIN, nothing taken, or a fatal error.
  datatype Answer = Took(n: nat) | Interrupted | WouldBlock | TookNone | Failed

  // How a write loop ended: all written, socket full, a zero answer, or a fatal error.
  datatype Stop = Done | Full | Zeroed | Broken

  datatype Push = Push(written: nat, script: seq<Answer>, stop: Stop)

  // A successful write takes at least one byte and at most what it is offered.
  function Clip(n: nat, len: nat): (k: nat)
    requires len > 0
    ensures 1 <= k <= len
  {
    if n == 0 then 1 else if n > len then len else n
  }

  // Writing data under a script of answers; when the script is used up the socket is full.
  function PushAll(script: seq<Answer>, data: bytes): (r: Push)
    ensures r.written <= |data|
    ensures r.stop.Done? <==> r.written == |data|
    ensures |r.script| <= |script|
    decreases |script|
  {
    if data == [] then Push(0, script, Done)
    else if script == [] then Push(0, script, Full)
    else
      match script[0]
      case Took(n) =>
        var k := Clip(n, |data|);
        var r := PushAll(script[1..], data[k..]);
        r.(written := k + r.written)
      case Interrupted => PushAll(script[1..], data)
      case WouldBlock => Push(0, script[1..], Full)
      case TookNone => Push(0, script[1..], Zeroed)
      case Failed => Push(0, script[1..], Broken)
  }

  predicate GoesOn(a: Answer) {
    a.Took? || a.Interrupted?
  }

  // The first n answers were used up, all but the last of them to go on; and why it stopped.
  ghost predicate StoppedBy(script: seq<Answer>, n: nat, stop: Stop) {
    && n <= |script|
    && (forall i :: 0 <= i < n - 1 ==> GoesOn(script[i]))
    && match stop
       case Done => n == 0 || GoesOn(script[n - 1])
       case Full => (n > 0 && script[n - 1].WouldBlock?) || (n == |script| && (n == 0 || GoesOn(script[n - 1])))
       case Zeroed => n > 0 && script[n - 1].TookNone?
       case Broken => n > 0 && script[n - 1].Failed?
  }

  // What the answers make of a write: it goes on after every success and every EINTR, and stops
  // when all is written or with the first answer that is something else.
  lemma {:induction false} PushMeans(script: seq<Answer>, data: bytes)
    ensures var r := PushAll(script, data);
            r.script == script[|script| - |r.script|..] && StoppedBy(script, |script| - |r.script|, r.stop)
    decreases |script|
  {
    hide StoppedBy;
    if data != [] && script != [] && GoesOn(script[0]) {
      var rest := if script[0].Took? then data[Clip(script[0].n, |data|)..] else data;
      PushMeans(script[1..], rest);
      var r := PushAll(script[1..], rest);
      StoppedLater(script, |script| - 1 - |r.script|, r.stop);
      assert script[1..][|script| - 1 - |r.script|..] == script[|script| - |r.script|..];
    } else {
      StopsAtOnce(script, data);
    }
  }

  lemma StoppedLater(script: seq<Answer>, n: nat, stop: Stop)
    requires script != [] && GoesOn(script[0]) && StoppedBy(script[1..], n, stop)
    ensures StoppedBy(script, n + 1, stop)
  {
    assert forall i :: 1 <= i < |script| ==> script[i] == script[1..][i - 1];
  }

  lemma StopsAtOnce(script: seq<Answer>, data: bytes)
    requires data == [] || script == [] || !GoesOn(script[0])
    ensures var r := PushAll(script, data);
            r.script == script[|script| - |r.script|..] && StoppedBy(script, |script| - |r.script|, r.stop)
  {
    assert script[0..] == script;
  }

  // A success takes as much as it says, but at least one byte and at most what it is offered.
  lemma FirstTakes(n: nat, script: seq<Answer>, data: bytes)
    requires data != []
    ensures var r := PushAll([Took(n)] + script, data);
            && r.written >= (if n == 0 then 1 else if n > |data| then |data| else n)
            && (script == [] ==> r.written == if n == 0 then 1 else if n > |data| then |data| else n)
  {
    assert ([Took(n)] + script)[1..] == script;
  }

  // One turn of a write loop that has written `offset` of the bytes `all`.
  lemma PushTurn(start: seq<Answer>, all: bytes, offset: nat, script: seq<Answer>)
    requires offset <= |all| && Pushed(start, all, offset, script)
    ensures offset == |all| ==> PushAll(start, all) == Push(offset, script, Done)
    ensures offset < |all| ==>
              match if script == [] then WouldBlock else script[0]
              case Took(n) => Pushed(start, all, offset + Clip(n, |all| - offset), script[1..])
              case Interrupted => Pushed(start, all, offset, script[1..])
              case WouldBlock => PushAll(start, all) == Push(offset, if script == [] then [] else script[1..], Full)
              case TookNone => PushAll(start, all) == Push(offset, script[1..], Zeroed)
              case Failed => PushAll(start, all) == Push(offset, script[1..], Broken)
  {
    if offset < |all| && script != [] && script[0].Took? {
      var k := Clip(script[0].n, |all| - offset);
      assert all[offset..][k..] == all[offset + k..];
    }
  }

  // After `offset` bytes the rest of the script decides as it would have from the start.
  ghost predicate Pushed(start: seq<Answer>, all: bytes, offset: nat, script: seq<Answer>)
    requires offset <= |all|
  {
    var now := PushAll(script, all[offset..]);
    PushAll(start, all) == now.(written := offset + now.written)
  }

  lemma PushStarts(script: seq<Answer>, all: bytes)
    ensures Pushed(script, all, 0, script)
  {
    assert all[0..] == all;
  }

  // A connection: bytes on the wire, bytes waiting, whether EPOLLOUT is watched, and the
  // answers its socket will give. `connecting` forbids direct writes.
  datatype Conn = Conn(wire: bytes, pending: bytes, epollout: bool, connecting: bool, script: seq<Answer>)

  // sendInLoop: written directly only if nothing waits.
  function Send(c: Conn, data: bytes): Conn {
    if c.pending == [] && !c.connecting then
      var p := PushAll(c.script, data);
      var d := c.(wire := c.wire + data[..p.written], script := p.script);
      if p.stop.Broken? || p.stop.Done? then d
      else d.(pending := data[p.written..], epollout := true)
    else if data == [] then c
    else c.(pending := c.pending + data, epollout := true)
  }

  // When nothing waits and the socket takes it all, a payload goes straight to the wire.
  lemma DirectWhenIdle(c: Conn, data: bytes)
    requires c.pending == [] && !c.connecting && PushAll(c.script, data).stop.Done?
    ensures var d := Send(c, data);
            d.wire == c.wire + data && d.pending == [] && d.epollout == c.epollout
  {
    hide PushAll;
    assert data[..|data|] == data;
  }

  // The write loop of HandleWrite: as much as the socket takes of what waits.
  function WriteOut(c: Conn): Conn {
    var p := PushAll(c.script, c.pending);
    c.(wire := c.wire + c.pending[..p.written], pending := c.pending[p.written..], script := p.script)
  }

  // Whether EPOLLOUT is watched after a write loop: it is dropped at the end, and after a zero
  // answer.
  function Interest(stop: Stop, epollout: bool): bool {
    match stop
    case Done => false
    case Zeroed => false
    case Full => true
    case Broken => epollout
  }

  function Flush(c: Conn): Conn {
    WriteOut(c).(epollout := Interest(PushAll(c.script, c.pending).stop, c.epollout))
  }

  // Connector::HandleWrite: the first writable event only completes the connect, and watches
  // EPOLLOUT on if something was queued before.
  function HandleWritable(c: Conn): Conn {
    if c.connecting then c.(connecting := false, epollout := c.pending != []) else Flush(c)
  }

  datatype Op = SendOp(data: bytes) | FlushOp

  function ApplyOp(c: Conn, op: Op): Conn {
    match op
    case SendOp(data) => Send(c, data)
    case FlushOp => HandleWritable(c)
  }

  function PayloadOf(op: Op): bytes {
    match op
    case SendOp(data) => data
    case FlushOp => []
  }

  // The direct write of this operation meets a fatal error.
  predicate LosesData(c: Conn, op: Op) {
    op.SendOp? && c.pending == [] && !c.connecting && PushAll(c.script, op.data).stop.Broken?
  }

  // This HandleWrite meets a zero answer.
  predicate DropsInterest(c: Conn, op: Op) {
    op.FlushOp? && !c.connecting && PushAll(c.script, c.pending).stop.Zeroed?
  }

  // One operation conserves the stream exactly when its direct write meets no fatal error.
  lemma ConservesIff(c: Conn, op: Op)
    ensures var d := ApplyOp(c, op);
            d.wire + d.pending == c.wire + c.pending + PayloadOf(op) <==> !LosesData(c, op)
  {
    hide PushAll;
    var d := ApplyOp(c, op);
    match op {
      case SendOp(data) =>
        var p := PushAll(c.script, data);
        assert data[..p.written] + data[p.written..] == data;
        if LosesData(c, op) {
          assert |d.wire + d.pending| < |c.wire + c.pending + data|;
        } else {
          assert d.wire + d.pending == c.wire + c.pending + data;
        }
      case FlushOp =>
        var p := PushAll(c.script, c.pending);
        assert c.pending[..p.written] + c.pending[p.written..] == c.pending;
        assert d.wire + d.pending == c.wire + c.pending + [];
    }
  }

  // Bytes wait only while EPOLLOUT is watched.
  predicate Armed(c: Conn) {
    c.pending != [] ==> c.epollout
  }

  // One operation keeps the write interest armed exactly when no HandleWrite is answered zero.
  lemma ArmedIff(c: Conn, op: Op)
    requires Armed(c)
    ensures Armed(ApplyOp(c, op)) <==> !DropsInterest(c, op)
  {
  }

  // EPOLLOUT is watched exactly while bytes wait, or the connect is not completed.
  predicate Watched(c: Conn) {
    c.epollout <==> c.pending != [] || c.connecting
  }

  // One operation keeps it watched exactly when needed, unless a HandleWrite is answered zero.
  lemma WatchedIff(c: Conn, op: Op)
    requires Watched(c)
    ensures Watched(ApplyOp(c, op)) <==> !DropsInterest(c, op)
  {
  }

  // --------------------------------------------------------------------------------------
  // The lifetime of a connection
  // --------------------------------------------------------------------------------------

  function ConnAfter(c: Conn, ops: seq<Op>): Conn {
    if ops == [] then c else ApplyOp(ConnAfter(c, ops[..|ops| - 1]), ops[|ops| - 1])
  }

  function Payloads(ops: seq<Op>): bytes {
    if ops == [] then [] else Payloads(ops[..|ops| - 1]) + PayloadOf(ops[|ops| - 1])
  }

  ghost predicate NeverLoses(c: Conn, ops: seq<Op>) {
    forall k :: 0 <= k < |ops| ==> !LosesData(ConnAfter(c, ops[..k]), ops[k])
  }

  ghost predicate NeverDropsInterest(c: Conn, ops: seq<Op>) {
    forall k :: 0 <= k < |ops| ==> !DropsInterest(ConnAfter(c, ops[..k]), ops[k])
  }

  lemma NeverLosesPrefix(c: Conn, ops: seq<Op>)
    requires ops != [] && NeverLoses(c, ops)
    ensures NeverLoses(c, ops[..|ops| - 1]) && !LosesData(ConnAfter(c, ops[..|ops| - 1]), ops[|ops| - 1])
  {
    var n := |ops| - 1;
    forall k | 0 <= k < n
      ensures !LosesData(ConnAfter(c, ops[..n][..k]), ops[..n][k])
    {
      assert ops[..n][..k] == ops[..k];
    }
  }

  // Whatever the socket answers, the bytes written followed by the bytes waiting are the
  // payloads passed to Send, in order: a direct write never overtakes buffered data.
  lemma {:induction false} StreamConserved(c: Conn, ops: seq<Op>)
    requires NeverLoses(c, ops)
    ensures ConnAfter(c, ops).wire + ConnAfter(c, ops).pending == c.wire + c.pending + Payloads(ops)
  {
    hide NeverLoses, LosesData, ApplyOp, PayloadOf;
    if ops == [] {
      assert c.wire + c.pending + [] == c.wire + c.pending;
    } else {
      var n := |ops| - 1;
      var d := ConnAfter(c, ops[..n]);
      NeverLosesPrefix(c, ops);
      StreamConserved(c, ops[..n]);
      ConservesIff(d, ops[n]);
      Associates(c.wire + c.pending, Payloads(ops[..n]), PayloadOf(ops[n]));
    }
  }

  lemma Associates(a: bytes, b: bytes, c: bytes)
    ensures a + b + c == a + (b + c)
  {
  }

  // From an armed state, and as long as no HandleWrite is answered zero, waiting bytes always
  // have EPOLLOUT watched; from one in which it is watched for nothing else, it stays so.
  lemma {:induction false} StreamStaysArmed(c: Conn, ops: seq<Op>)
    requires Armed(c) && NeverDropsInterest(c, ops)
    ensures Armed(ConnAfter(c, ops))
    ensures Watched(c) ==> Watched(ConnAfter(c, ops))
  {
    if ops != [] {
      var n := |ops| - 1;
      forall k | 0 <= k < n
        ensures !DropsInterest(ConnAfter(c, ops[..n][..k]), ops[..n][k])
      {
        assert ops[..n][..k] == ops[..k];
      }
      StreamStaysArmed(c, ops[..n]);
      ArmedIff(ConnAfter(c, ops[..n]), ops[n]);
      if Watched(c) {
        WatchedIff(ConnAfter(c, ops[..n]), ops[n]);
      }
    }
  }

  // A zero answer to HandleWrite leaves bytes waiting that no event will ever write.
  lemma ZeroAnswerDisarms(data: bytes)
    requires data != []
    ensures var c := ConnAfter(Conn([], [], false, false, [WouldBlock, TookNone]), [SendOp(data), FlushOp]);
            c.pending == data && !c.epollout
  {
    var c0 := Conn([], [], false, false, [WouldBlock, TookNone]);
    var ops := [SendOp(data), FlushOp];
    assert ops[..1] == [SendOp(data)] && ops[..1][..0] == [];
    assert ConnAfter(c0, ops[..1]) == Send(c0, data);
    assert Send(c0, data).pending == data;
    assert data[0..] == data;
  }

  // Until the connect is completed nothing is written, and all that is sent waits in order; the
  // event that completes it writes nothing either, and keeps EPOLLOUT exactly if bytes wait.
  lemma {:induction false} NothingBeforeConnected(c: Conn, sends: seq<Op>)
    requires c.connecting && forall k :: 0 <= k < |sends| ==> sends[k].SendOp?
    ensures var d := ConnAfter(c, sends);
            && d.connecting && d.wire == c.wire && d.script == c.script && d.pending == c.pending + Payloads(sends)
    ensures var d := ConnAfter(c, sends + [FlushOp]);
            && !d.connecting && d.wire == c.wire && d.script == c.script && d.pending == c.pending + Payloads(sends)
            && d.epollout == (d.pending != [])
  {
    hide PushAll;
    var n := |sends| - 1;
    if sends == [] {
      assert c.pending + [] == c.pending;
    } else {
      NothingBeforeConnected(c, sends[..n]);
      Associates(c.pending, Payloads(sends[..n]), PayloadOf(sends[n]));
      assert c.pending + Payloads(sends[..n]) + [] == c.pending + Payloads(sends[..n]);
    }
    assert (sends + [FlushOp])[..|sends|] == sends;
  }
}
