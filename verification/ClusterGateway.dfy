/**
 ClusterGatewayActor: receives the bytes of all cluster connections, reassembles packets per
 connection, registers the sender of a handshake, and routes every other packet by name.
 */
module ClusterGateway {
  import opened Bytes
  import opened Messages
  import opened ClusterCodec
  import opened Reassembly
  import opened ActorRegistry
  import opened ClusterTransport

  // CLUSTER_HANDSHAKE
  const MAGIC: bytes := [67, 76, 85, 83, 84, 69, 82, 95, 72, 65, 78, 68, 83, 72, 65, 75, 69]

  lemma MagicSpells()
    ensures |MAGIC| == |"CLUSTER_HANDSHAKE"|
    ensures forall i :: 0 <= i < |MAGIC| ==> MAGIC[i] == "CLUSTER_HANDSHAKE"[i] as int
  {
  }

  // What handling a packet can change on a node.
  datatype Node = Node(routes: Routes, names: NameTable, actors: set<ActorId>, mail: seq<(ActorId, ActorMessage)>)

  // The local message of a packet that is not a handshake.
  function Localize(p: ClusterPacket): ActorMessage {
    ActorMessage(UserMessage, sourceId := 0, data := p.data, sessionId := p.sessionId, isResponse := p.isResponse,
                 sourceNodeId := p.sourceNodeId, sourceActorName := p.sourceActorName)
  }

  // The message brings everything the packet says about its sender, its session and its data.
  ghost predicate CarriesPacket(m: ActorMessage, p: ClusterPacket) {
    && m.msgType == UserMessage && m.sourceId == 0 && m.fd == -1 && m.error == Ok && !m.priority
    && m.data == p.data && m.sharedBuf.None? && m.sessionId == p.sessionId && m.isResponse == p.isResponse
    && m.sourceNodeId == p.sourceNodeId && m.sourceActorName == p.sourceActorName
  }

  // The actor that gets the packet, or 0.
  function Receiver(names: NameTable, p: ClusterPacket): ActorId {
    if p.data == MAGIC || p.targetActorName == [] then 0 else Find(names, p.targetActorName)
  }

  function Handle(n: Node, p: ClusterPacket, fd: Fd): Node {
    if p.data == MAGIC then
      if p.sourceNodeId == [] then n else n.(routes := Announce(n.routes, p.sourceNodeId, fd))
    else
      var to := Receiver(n.names, p);
      if to > 0 && to in n.actors then n.(mail := n.mail + [(to, Localize(p))]) else n
  }

  function HandleAll(n: Node, ps: seq<ClusterPacket>, fd: Fd): Node
    decreases |ps|
  {
    if ps == [] then n else HandleAll(Handle(n, ps[0], fd), ps[1..], fd)
  }

  lemma {:induction false} HandleAllAppend(n: Node, ps: seq<ClusterPacket>, qs: seq<ClusterPacket>, fd: Fd)
    ensures HandleAll(n, ps + qs, fd) == HandleAll(HandleAll(n, ps, fd), qs, fd)
    decreases |ps|
  {
    if ps == [] {
      assert ps + qs == qs;
    } else {
      assert (ps + qs)[1..] == ps[1..] + qs;
      HandleAllAppend(Handle(n, ps[0], fd), ps[1..], qs, fd);
    }
  }

  lemma HandleAllNext(n: Node, ps: seq<ClusterPacket>, p: ClusterPacket, fd: Fd)
    ensures HandleAll(n, [], fd) == n
    ensures HandleAll(n, ps + [p], fd) == Handle(HandleAll(n, ps, fd), p, fd)
  {
    HandleAllAppend(n, ps, [p], fd);
  }

  // The receive loop as one step of the node: packets are handled in order; a protocol error
  // disconnects after the packets before it were handled.
  function Receive(n: Node, buffer: bytes, chunk: bytes, fd: Fd): Node {
    Finish(n, Drain(buffer + chunk), fd)
  }

  function Finish(n: Node, r: Outcome, fd: Fd): Node {
    var handled := HandleAll(n, r.packets, fd);
    if r.error then handled.(routes := Disconnect(handled.routes, fd)) else handled
  }

  lemma CancelPrefix(a: bytes, b: bytes, c: bytes)
    requires a + b == a + c
    ensures b == c
  {
    assert b == (a + b)[|a|..];
    assert c == (a + c)[|a|..];
  }

  lemma {:induction false} WireAllAppend(ps: seq<ClusterPacket>, qs: seq<ClusterPacket>)
    ensures WireAll(ps + qs) == WireAll(ps) + WireAll(qs)
  {
    hide Wire;
    if ps == [] {
      assert ps + qs == qs;
    } else {
      assert (ps + qs)[1..] == ps[1..] + qs;
      WireAllAppend(ps[1..], qs);
    }
  }

  // --------------------------------------------------------------------------------------
  // One connection
  // --------------------------------------------------------------------------------------

  // A node that receives the chunks of one connection, those behind an error included.
  function ReceiveChunks(n: Node, buffer: bytes, chunks: seq<bytes>, fd: Fd): Node
    decreases |chunks|
  {
    if chunks == [] then n
    else ReceiveChunks(Receive(n, buffer, chunks[0], fd), Drain(buffer + chunks[0]).rest, chunks[1..], fd)
  }

  // Receiving more of a stream that had no error so far.
  lemma ReceiveAppend(n: Node, buffer: bytes, chunk: bytes, more: bytes, fd: Fd)
    ensures var r := Drain(buffer + chunk);
            Receive(n, buffer, chunk + more, fd)
            == if r.error then Receive(n, buffer, chunk, fd)
               else Receive(Receive(n, buffer, chunk, fd), r.rest, more, fd)
  {
    hide Drain, Finish;
    var r := Drain(buffer + chunk);
    assert buffer + (chunk + more) == (buffer + chunk) + more;
    DrainAppend(buffer + chunk, more);
    if !r.error {
      FinishAppend(n, r, Drain(r.rest + more), fd);
    }
  }

  lemma FinishAppend(n: Node, first: Outcome, second: Outcome, fd: Fd)
    requires !first.error
    ensures Finish(n, second.(packets := first.packets + second.packets), fd)
            == Finish(Finish(n, first, fd), second, fd)
  {
    hide HandleAll;
    HandleAllAppend(n, first.packets, second.packets, fd);
  }

  // On any bytes and any chunks, the node ends as if the whole stream had come at once and then
  // the chunks behind the first error on a fresh buffer.
  lemma {:induction false} RestartsAfterError(n: Node, buffer: bytes, chunks: seq<bytes>, fd: Fd)
    requires Parse(buffer) == NeedMore
    ensures var k := FirstError(buffer, chunks);
            ReceiveChunks(n, buffer, chunks, fd)
            == if k == |chunks| then Receive(n, buffer, Concat(chunks), fd)
               else ReceiveChunks(Receive(n, buffer, Concat(chunks), fd), [], chunks[k + 1..], fd)
    decreases |chunks|
  {
    hide Parse, Drain, Receive;
    if chunks == [] {
      ReceivesNothing(n, buffer, fd);
    } else {
      var first := Drain(buffer + chunks[0]);
      ReceiveAppend(n, buffer, chunks[0], Concat(chunks[1..]), fd);
      if first.error {
        ErrorDiscards(buffer + chunks[0]);
      } else {
        RestIsIncomplete(buffer + chunks[0]);
        RestartsAfterError(Receive(n, buffer, chunks[0], fd), first.rest, chunks[1..], fd);
        var k := FirstError(first.rest, chunks[1..]);
        assert k + 2 <= |chunks| ==> chunks[1..][k + 1..] == chunks[k + 2..];
      }
    }
  }

  lemma ReceivesNothing(n: Node, buffer: bytes, fd: Fd)
    requires Parse(buffer) == NeedMore
    ensures Receive(n, buffer, [], fd) == n
  {
    assert buffer + [] == buffer;
  }

  // Without an error, on any bytes, the chunks do not matter.
  lemma ChunksAsOne(n: Node, buffer: bytes, chunks: seq<bytes>, fd: Fd)
    requires Parse(buffer) == NeedMore && !Drain(buffer + Concat(chunks)).error
    ensures ReceiveChunks(n, buffer, chunks, fd) == Receive(n, buffer, Concat(chunks), fd)
  {
    hide Parse, Drain, Receive, ReceiveChunks;
    HandledSplits(buffer, chunks);
    RestartsAfterError(n, buffer, chunks, fd);
  }

  // Nor do they after an error, if the chunks behind it hold no packet.
  lemma ErrorAtTheEnd(n: Node, buffer: bytes, chunks: seq<bytes>, fd: Fd)
    requires Parse(buffer) == NeedMore && HandledBehindError(buffer, chunks) == []
    ensures ReceiveChunks(n, buffer, chunks, fd) == Receive(n, buffer, Concat(chunks), fd)
  {
    hide Parse, Drain, ReceiveChunks, Handled;
    HandledSplits(buffer, chunks);
    RestartsAfterError(n, buffer, chunks, fd);
    var k := FirstError(buffer, chunks);
    if k < |chunks| {
      var handled := HandleAll(n, Drain(buffer + Concat(chunks)).packets, fd);
      LostTwice(handled.routes, fd);
      NoPacketsNoEffect(Receive(n, buffer, Concat(chunks), fd), [], chunks[k + 1..], fd);
    }
  }

  lemma LostTwice(r: Routes, fd: Fd)
    ensures Disconnect(Disconnect(r, fd), fd) == Disconnect(r, fd)
  {
  }

  lemma {:induction false} NoPacketsNoEffect(n: Node, buffer: bytes, chunks: seq<bytes>, fd: Fd)
    requires Handled(buffer, chunks) == [] && Disconnect(n.routes, fd) == n.routes
    ensures ReceiveChunks(n, buffer, chunks, fd) == n
    decreases |chunks|
  {
    hide Drain, Disconnect;
    if chunks != [] {
      var r := Drain(buffer + chunks[0]);
      assert r.packets == [] && Handled(r.rest, chunks[1..]) == [];
      NoPacketsNoEffect(n, r.rest, chunks[1..], fd);
    }
  }

  // A node that receives a stream of encodable packets in arbitrary chunks ends as if it had
  // handled the packets one by one.
  lemma ReceivesStream(n: Node, buffer: bytes, ps: seq<ClusterPacket>, chunks: seq<bytes>, fd: Fd)
    requires AllEncodable(ps) && buffer + Concat(chunks) == WireAll(ps) && Parse(buffer) == NeedMore
    ensures ReceiveChunks(n, buffer, chunks, fd) == HandleAll(n, ps, fd)
  {
    hide Parse, Drain, ReceiveChunks;
    DrainsStream(ps, buffer + Concat(chunks));
    ChunksAsOne(n, buffer, chunks, fd);
  }

  // Four bytes that no packet starts with.
  const BAD: bytes := [0, 0, 0, 0]

  lemma BadIsAnError(more: bytes)
    ensures Drain(BAD) == Outcome([], [], true) && Drain(BAD + more) == Outcome([], [], true)
  {
    assert Peek32(BAD, 0) == 0;
    DrainAppend(BAD, more);
  }

  // A packet that follows an error is handled if it comes in a chunk of its own, and is lost if
  // it comes in the same chunk.
  lemma BehindAnError(n: Node, p: ClusterPacket, fd: Fd)
    requires Encodable(p)
    ensures var lost := n.(routes := Disconnect(n.routes, fd));
            && ReceiveChunks(n, [], [BAD + Wire(p)], fd) == lost
            && ReceiveChunks(n, [], [BAD, Wire(p)], fd) == Handle(lost, p, fd)
  {
    hide Parse, Drain, Handle, Disconnect, Wire;
    var lost := n.(routes := Disconnect(n.routes, fd));
    BadIsAnError(Wire(p));
    assert [] + BAD == BAD && [] + (BAD + Wire(p)) == BAD + Wire(p) && [] + Wire(p) == Wire(p);
    var one, two := [BAD + Wire(p)], [BAD, Wire(p)];
    assert one[1..] == [] && two[1..] == [Wire(p)] && [Wire(p)][1..] == [];
    assert Receive(n, [], BAD, fd) == lost && Receive(n, [], BAD + Wire(p), fd) == lost;
    assert WireAll([p]) == Wire(p) + [] == Wire(p);
    DrainsStream([p], Wire(p));
    assert HandleAll(lost, [p], fd) == Handle(lost, p, fd);
    assert ReceiveChunks(lost, [], [Wire(p)], fd) == Handle(lost, p, fd);
  }

  // So the same bytes in other chunks deliver a message that they otherwise do not,
  lemma ChunksMatterBehindError(n: Node, p: ClusterPacket, fd: Fd)
    requires Encodable(p) && Receiver(n.names, p) > 0 && Receiver(n.names, p) in n.actors
    ensures Concat([BAD, Wire(p)]) == Concat([BAD + Wire(p)])
    ensures ReceiveChunks(n, [], [BAD, Wire(p)], fd).mail == n.mail + [(Receiver(n.names, p), Localize(p))]
    ensures ReceiveChunks(n, [], [BAD + Wire(p)], fd).mail == n.mail
  {
    hide ReceiveChunks, Wire, Encodable, Disconnect;
    BehindAnError(n, p, fd);
    SameBytes(Wire(p));
  }

  lemma SameBytes(b: bytes)
    ensures Concat([BAD, b]) == Concat([BAD + b])
  {
    assert [BAD, b][1..] == [b] && [b][1..] == [] && [BAD + b][1..] == [];
    assert BAD + (b + []) == BAD + b + [];
  }

  // and a handshake announces the node again over the connection that was just given up, where
  // otherwise no route is left.
  lemma HandshakeBehindError(n: Node, p: ClusterPacket, fd: Fd)
    requires Encodable(p) && p.data == MAGIC && p.sourceNodeId != []
    ensures var r := ReceiveChunks(n, [], [BAD, Wire(p)], fd).routes;
            && r == Announce(Disconnect(n.routes, fd), p.sourceNodeId, fd)
            && r.nodeToFd[p.sourceNodeId] == fd
    ensures fd !in ReceiveChunks(n, [], [BAD + Wire(p)], fd).routes.fdToNode
  {
    hide ReceiveChunks, Wire, Encodable;
    BehindAnError(n, p, fd);
  }

  // --------------------------------------------------------------------------------------
  // Many connections
  // --------------------------------------------------------------------------------------

  // What the gateway does, connection by connection.
  datatype Action = Decoded(fd: Fd, packet: ClusterPacket) | Dropped(fd: Fd)

  // A chunk of one of the connections.
  datatype Arrival = Arrival(fd: Fd, chunk: bytes)

  function BufferIn(buffers: map<Fd, bytes>, fd: Fd): bytes {
    if fd in buffers then buffers[fd] else []
  }

  // The buffers after a chunk; an error removes the one of its connection.
  function BuffersAfter(buffers: map<Fd, bytes>, fd: Fd, r: Outcome): map<Fd, bytes> {
    if r.error then buffers - {fd} else buffers[fd := r.rest]
  }

  function DecodedFrom(fd: Fd, ps: seq<ClusterPacket>): (r: seq<Action>)
    ensures forall a :: a in r ==> a.fd == fd
  {
    if ps == [] then [] else [Decoded(fd, ps[0])] + DecodedFrom(fd, ps[1..])
  }

  function ActionsOn(fd: Fd, r: Outcome): (actions: seq<Action>)
    ensures forall a :: a in actions ==> a.fd == fd
  {
    DecodedFrom(fd, r.packets) + if r.error then [Dropped(fd)] else []
  }

  // Everything the gateway does for a list of chunks of any connections.
  function Actions(buffers: map<Fd, bytes>, arrivals: seq<Arrival>): seq<Action>
    decreases |arrivals|
  {
    if arrivals == [] then []
    else
      var fd := arrivals[0].fd;
      var r := Drain(BufferIn(buffers, fd) + arrivals[0].chunk);
      ActionsOn(fd, r) + Actions(BuffersAfter(buffers, fd, r), arrivals[1..])
  }

  function Act(n: Node, a: Action): Node {
    match a
    case Decoded(fd, p) => Handle(n, p, fd)
    case Dropped(fd) => n.(routes := Disconnect(n.routes, fd))
  }

  function ActAll(n: Node, actions: seq<Action>): Node
    decreases |actions|
  {
    if actions == [] then n else ActAll(Act(n, actions[0]), actions[1..])
  }

  // A node that receives chunks of any connections.
  function ReceiveAll(n: Node, buffers: map<Fd, bytes>, arrivals: seq<Arrival>): Node
    decreases |arrivals|
  {
    if arrivals == [] then n
    else
      var fd, chunk := arrivals[0].fd, arrivals[0].chunk;
      var r := Drain(BufferIn(buffers, fd) + chunk);
      ReceiveAll(Receive(n, BufferIn(buffers, fd), chunk, fd), BuffersAfter(buffers, fd, r), arrivals[1..])
  }

  function ActionsOf(actions: seq<Action>, fd: Fd): seq<Action> {
    if actions == [] then []
    else (if actions[0].fd == fd then [actions[0]] else []) + ActionsOf(actions[1..], fd)
  }

  function ArrivalsOf(arrivals: seq<Arrival>, fd: Fd): seq<Arrival> {
    if arrivals == [] then []
    else (if arrivals[0].fd == fd then [arrivals[0]] else []) + ArrivalsOf(arrivals[1..], fd)
  }

  lemma {:induction false} ActAllAppend(n: Node, a: seq<Action>, b: seq<Action>)
    ensures ActAll(n, a + b) == ActAll(ActAll(n, a), b)
    decreases |a|
  {
    hide Act;
    if a == [] {
      assert a + b == b;
    } else {
      assert (a + b)[1..] == a[1..] + b;
      ActAllAppend(Act(n, a[0]), a[1..], b);
    }
  }

  lemma {:induction false} ActsLikeHandling(n: Node, fd: Fd, ps: seq<ClusterPacket>)
    ensures ActAll(n, DecodedFrom(fd, ps)) == HandleAll(n, ps, fd)
    decreases |ps|
  {
    hide Handle;
    if ps != [] {
      ActsLikeHandling(Handle(n, ps[0], fd), fd, ps[1..]);
    }
  }

  // What the node becomes is what these actions make of it.
  lemma {:induction false} ReceivesByActions(n: Node, buffers: map<Fd, bytes>, arrivals: seq<Arrival>)
    ensures ReceiveAll(n, buffers, arrivals) == ActAll(n, Actions(buffers, arrivals))
    decreases |arrivals|
  {
    hide Drain, Handle, Disconnect;
    if arrivals != [] {
      var fd, chunk := arrivals[0].fd, arrivals[0].chunk;
      var r := Drain(BufferIn(buffers, fd) + chunk);
      var others := Actions(BuffersAfter(buffers, fd, r), arrivals[1..]);
      ActsLikeHandling(n, fd, r.packets);
      var ending: seq<Action> := if r.error then [Dropped(fd)] else [];
      ActAllAppend(n, DecodedFrom(fd, r.packets), ending);
      ActAllAppend(n, ActionsOn(fd, r), others);
      assert ActAll(n, ActionsOn(fd, r)) == Receive(n, BufferIn(buffers, fd), chunk, fd);
      ReceivesByActions(Receive(n, BufferIn(buffers, fd), chunk, fd), BuffersAfter(buffers, fd, r), arrivals[1..]);
    }
  }

  lemma {:induction false} ActionsOfAppend(a: seq<Action>, b: seq<Action>, fd: Fd)
    ensures ActionsOf(a + b, fd) == ActionsOf(a, fd) + ActionsOf(b, fd)
  {
    if a == [] {
      assert a + b == b;
    } else {
      assert (a + b)[1..] == a[1..] + b;
      ActionsOfAppend(a[1..], b, fd);
      var head: seq<Action> := if a[0].fd == fd then [a[0]] else [];
      assert head + (ActionsOf(a[1..], fd) + ActionsOf(b, fd)) == head + ActionsOf(a[1..], fd) + ActionsOf(b, fd);
    }
  }

  lemma {:induction false} ActionsOfOne(a: seq<Action>, one: Fd, fd: Fd)
    requires forall x :: x in a ==> x.fd == one
    ensures ActionsOf(a, fd) == if one == fd then a else []
  {
    if a != [] {
      ActionsOfOne(a[1..], one, fd);
    }
  }

  // However the chunks of several connections are interleaved, each connection is treated as if
  // its own chunks were the only ones.
  lemma {:induction false} ConnectionsAreIndependent(buffers: map<Fd, bytes>, others: map<Fd, bytes>,
                                                     arrivals: seq<Arrival>, fd: Fd)
    requires BufferIn(buffers, fd) == BufferIn(others, fd)
    ensures ActionsOf(Actions(buffers, arrivals), fd) == Actions(others, ArrivalsOf(arrivals, fd))
    decreases |arrivals|
  {
    hide Drain;
    if arrivals != [] {
      var from := arrivals[0].fd;
      var r := Drain(BufferIn(buffers, from) + arrivals[0].chunk);
      var next := BuffersAfter(buffers, from, r);
      ActionsOfAppend(ActionsOn(from, r), Actions(next, arrivals[1..]), fd);
      ActionsOfOne(ActionsOn(from, r), from, fd);
      if from == fd {
        ConnectionsAreIndependent(next, BuffersAfter(others, fd, r), arrivals[1..], fd);
        var own := ArrivalsOf(arrivals, fd);
        assert own[1..] == ArrivalsOf(arrivals[1..], fd);
      } else {
        ConnectionsAreIndependent(next, others, arrivals[1..], fd);
        assert ArrivalsOf(arrivals, fd) == ArrivalsOf(arrivals[1..], fd);
      }
    }
  }

  // --------------------------------------------------------------------------------------
  // The gateway actor
  // --------------------------------------------------------------------------------------

  // The receive loop has handled `done` of the bytes `all` and is left with the buffer `b`.
  ghost predicate Progress(all: bytes, done: seq<ClusterPacket>, b: bytes) {
    Drain(all) == Drain(b).(packets := done + Drain(b).packets)
  }

  lemma ProgressStarts(all: bytes)
    ensures Progress(all, [], all)
  {
    assert [] + Drain(all).packets == Drain(all).packets;
  }

  lemma ProgressStep(all: bytes, done: seq<ClusterPacket>, b: bytes)
    requires Progress(all, done, b)
    ensures match Parse(b)
            case NeedMore => Drain(all) == Outcome(done, b, false)
            case ProtocolError => Drain(all) == Outcome(done, [], true)
            case Parsed(p, n) => 0 < n <= |b| && Progress(all, done + [p], b[n..])
  {
    hide Parse;
    ParseShrinks(b);
    assert done + [] == done;
    if Parse(b).Parsed? {
      var p, n := Parse(b).packet, Parse(b).consumed;
      assert done + ([p] + Drain(b[n..]).packets) == (done + [p]) + Drain(b[n..]).packets;
    }
  }

  class ClusterGatewayActor {
    const transport: TcpClusterTransport
    const sys: ActorSystem
    var recvBuffers: map<Fd, bytes>
    // Connections the gateway asked the event loop to remove.
    var removed: seq<Fd>

    constructor (transport: TcpClusterTransport, sys: ActorSystem)
      ensures this.transport == transport && this.sys == sys && recvBuffers == map[] && removed == []
    {
      this.transport, this.sys := transport, sys;
      recvBuffers, removed := map[], [];
    }

    ghost function View(): Node
      reads transport, sys
    {
      Node(transport.State(), sys.Names(), sys.actors, sys.mail)
    }

    ghost function BufferOf(fd: Fd): bytes
      reads this
    {
      BufferIn(recvBuffers, fd)
    }

    method HandleDecodedPacket(pkt: ClusterPacket, fd: Fd)
      modifies transport, sys`mail
      ensures View() == Handle(old(View()), pkt, fd)
      ensures pkt.data != MAGIC || pkt.sourceNodeId == [] ==> transport.State() == old(transport.State())
      ensures pkt.data == MAGIC && pkt.sourceNodeId != [] ==>
                && pkt.sourceNodeId in transport.nodeToFd && transport.nodeToFd[pkt.sourceNodeId] == fd
                && fd in transport.fdToNode && transport.fdToNode[fd] == pkt.sourceNodeId
      ensures |old(sys.mail)| <= |sys.mail| <= |old(sys.mail)| + 1
      ensures |sys.mail| > |old(sys.mail)| <==>
                pkt.data != MAGIC && pkt.targetActorName in sys.nameToActor && pkt.targetActorName != []
                && sys.nameToActor[pkt.targetActorName] > 0 && sys.nameToActor[pkt.targetActorName] in sys.actors
      ensures |sys.mail| > |old(sys.mail)| ==>
                && sys.mail[|old(sys.mail)|].0 == sys.nameToActor[pkt.targetActorName]
                && CarriesPacket(sys.mail[|old(sys.mail)|].1, pkt)
    {
      if pkt.data == MAGIC {
        var remoteNodeId := pkt.sourceNodeId;
        if remoteNodeId == [] {
          return;
        }
        transport.RegisterNodeFd(remoteNodeId, fd);
        return;
      }
      if pkt.targetActorName != [] {
        var sent := sys.SendByName(pkt.targetActorName, Localize(pkt));
      }
    }

    method OnNetworkRecv(fd: Fd, chunk: bytes)
      modifies this, transport, sys`mail
      ensures View() == Receive(old(View()), old(BufferOf(fd)), chunk, fd)
      ensures var r := Drain(old(BufferOf(fd)) + chunk);
              && recvBuffers == BuffersAfter(old(recvBuffers), fd, r)
              && removed == (if r.error then old(removed) + [fd] else old(removed))
    {
      hide Parse, Handle, HandleAll, Drain, Progress, Disconnect;
      if fd !in recvBuffers {
        recvBuffers := recvBuffers[fd := []];
      }
      recvBuffers := recvBuffers[fd := recvBuffers[fd] + chunk];
      ghost var all := recvBuffers[fd];
      ghost var done: seq<ClusterPacket> := [];
      ProgressStarts(all);
      HandleAllNext(View(), [], NO_PACKET, fd);
      while true
        invariant fd in recvBuffers && recvBuffers == old(recvBuffers)[fd := recvBuffers[fd]]
        invariant removed == old(removed)
        invariant View() == HandleAll(old(View()), done, fd)
        invariant Progress(all, done, recvBuffers[fd])
        decreases |recvBuffers[fd]|
      {
        var buf := recvBuffers[fd];
        ProgressStep(all, done, buf);
        var consumed, pkt := Decode(buf);
        if consumed == 0 {
          break;
        }
        if consumed < 0 {
          recvBuffers := recvBuffers - {fd};
          transport.OnNodeDisconnected(fd);
          removed := removed + [fd];
          return;
        }
        HandleDecodedPacket(pkt, fd);
        HandleAllNext(old(View()), done, pkt, fd);
        done := done + [pkt];
        recvBuffers := recvBuffers[fd := buf[consumed..]];
      }
    }

    method OnConnected(fd: Fd)
      modifies this`recvBuffers
      ensures recvBuffers == old(recvBuffers)[fd := []]
    {
      recvBuffers := recvBuffers[fd := []];
    }

    method OnDisconnected(fd: Fd)
      modifies this`recvBuffers, transport
      ensures recvBuffers == old(recvBuffers) - {fd}
      ensures transport.State() == Disconnect(old(transport.State()), fd)
    {
      recvBuffers := recvBuffers - {fd};
      transport.OnNodeDisconnected(fd);
    }
  }
}
