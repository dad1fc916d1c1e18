/**
 From SendPacket to the handler: packets encoded by one node, written by a connection under
 whatever answers of its socket, and reassembled by the gateway of the other node.
 */
module ClusterStream {
  import opened Bytes
  import opened ClusterCodec
  import opened Reassembly
  import ClusterGateway
  import opened WriteStream

  // SendPacket writes the encoded packet; otherwise the socket becomes writable.
  datatype PacketOp = SendPacket(packet: ClusterPacket) | Writable

  function OpOf(op: PacketOp): Op {
    match op
    case SendPacket(p) => SendOp(Wire(p))
    case Writable => FlushOp
  }

  function OpsOf(ops: seq<PacketOp>): (r: seq<Op>)
    ensures |r| == |ops|
  {
    if ops == [] then [] else OpsOf(ops[..|ops| - 1]) + [OpOf(ops[|ops| - 1])]
  }

  function PacketsOf(ops: seq<PacketOp>): seq<ClusterPacket> {
    if ops == [] then []
    else
      var last := ops[|ops| - 1];
      PacketsOf(ops[..|ops| - 1]) + if last.SendPacket? then [last.packet] else []
  }

  lemma {:induction false} PayloadsAreWire(ops: seq<PacketOp>)
    ensures Payloads(OpsOf(ops)) == WireAll(PacketsOf(ops))
  {
    hide Wire;
    if ops != [] {
      var n := |ops| - 1;
      PayloadsAreWire(ops[..n]);
      assert OpsOf(ops)[..n] == OpsOf(ops[..n]);
      var last := ops[n];
      ClusterGateway.WireAllAppend(PacketsOf(ops[..n]), if last.SendPacket? then [last.packet] else []);
      if last.SendPacket? {
        assert WireAll([last.packet]) == Wire(last.packet) + [] == Wire(last.packet);
      }
    }
  }

  lemma NoErrorNoRestart(b: bytes, chunks: seq<bytes>)
    requires Parse(b) == NeedMore && !Drain(b + Concat(chunks)).error
    ensures Handled(b, chunks) == Drain(b + Concat(chunks)).packets
  {
    hide Parse, Drain, Handled;
    HandledSplits(b, chunks);
  }

  // Under any partial writes, retries and waits, and any chunks on the other side, the packets
  // handled are the first of those passed to SendPacket, in order; and all of them once all
  // bytes were written and received.
  lemma PacketsArriveInOrder(ops: seq<PacketOp>, connecting: bool, script: seq<Answer>, chunks: seq<bytes>)
    requires var c := Conn([], [], false, connecting, script);
             && AllEncodable(PacketsOf(ops)) && NeverLoses(c, OpsOf(ops))
             && Concat(chunks) <= ConnAfter(c, OpsOf(ops)).wire
    ensures Handled([], chunks) <= PacketsOf(ops)
    ensures var c := ConnAfter(Conn([], [], false, connecting, script), OpsOf(ops));
            c.pending == [] && Concat(chunks) == c.wire ==> Handled([], chunks) == PacketsOf(ops)
  {
    hide Parse, Drain, Handled, NeverLoses, ConnAfter, WireAll, Payloads;
    var c := Conn([], [], false, connecting, script);
    var d := ConnAfter(c, OpsOf(ops));
    StreamConserved(c, OpsOf(ops));
    PayloadsAreWire(ops);
    assert [] + [] + Payloads(OpsOf(ops)) == Payloads(OpsOf(ops));
    assert Concat(chunks) <= d.wire + d.pending;
    EmptyIsIncomplete();
    DrainsStream(PacketsOf(ops), Concat(chunks));
    assert [] + Concat(chunks) == Concat(chunks);
    NoErrorNoRestart([], chunks);
    assert d.pending == [] ==> d.wire + d.pending == d.wire;
  }
}
