/**
 The routing tables of TcpClusterTransport: which connection leads to which node, and which
 of the known nodes are alive.
 */
module ClusterTransport {
  import opened Bytes
  import opened Messages

  type NodeId = bytes

  datatype KnownNode = KnownNode(nodeId: NodeId, alive: bool)

  datatype Routes = Routes(
    nodeToFd: map<NodeId, Fd>,
    fdToNode: map<Fd, NodeId>,
    pending: map<Fd, NodeId>,
    known: seq<KnownNode>)

  // Sets the flag of the first entry for the node.
  function SetAlive(known: seq<KnownNode>, node: NodeId, alive: bool): (r: seq<KnownNode>)
    ensures |r| == |known|
  {
    if known == [] then []
    else if known[0].nodeId == node then [known[0].(alive := alive)] + known[1..]
    else [known[0]] + SetAlive(known[1..], node, alive)
  }

  // Where the first entry for the node is found.
  lemma {:induction false} SetsFirst(known: seq<KnownNode>, node: NodeId, alive: bool, i: nat)
    requires i <= |known| && forall j :: 0 <= j < i ==> known[j].nodeId != node
    requires i < |known| ==> known[i].nodeId == node
    ensures SetAlive(known, node, alive) == if i < |known| then known[i := known[i].(alive := alive)] else known
  {
    if i > 0 {
      SetsFirst(known[1..], node, alive, i - 1);
    }
  }

  // RegisterNodeFd: a connection that the node used before loses its entry.
  function Announce(r: Routes, node: NodeId, fd: Fd): Routes {
    var kept := if node in r.nodeToFd && r.nodeToFd[node] != fd then r.fdToNode - {r.nodeToFd[node]} else r.fdToNode;
    Routes(r.nodeToFd[node := fd], kept[fd := node], r.pending - {fd}, SetAlive(r.known, node, true))
  }

  // OnNodeDisconnected: the route goes only if it still leads over this connection.
  function Disconnect(r: Routes, fd: Fd): Routes {
    if fd !in r.fdToNode then r.(pending := r.pending - {fd})
    else
      var node := r.fdToNode[fd];
      var active := node in r.nodeToFd && r.nodeToFd[node] == fd;
      Routes(if active then r.nodeToFd - {node} else r.nodeToFd,
             r.fdToNode - {fd},
             r.pending - {fd},
             if node != [] && active then SetAlive(r.known, node, false) else r.known)
  }

  // ConnectToNode: the node is known, not yet alive, and its handshake is awaited on fd.
  function Connect(r: Routes, node: NodeId, fd: Fd): Routes {
    r.(pending := r.pending[fd := node], known := r.known + [KnownNode(node, false)])
  }

  // The gateway ignores a handshake without a node id.
  datatype RouteOp =
    | HandshakeOp(node: NodeId, fd: Fd)
    | DisconnectOp(fd: Fd)
    | ConnectOp(node: NodeId, fd: Fd)

  function ApplyRoute(r: Routes, op: RouteOp): Routes {
    match op
    case HandshakeOp(node, fd) => if node == [] then r else Announce(r, node, fd)
    case DisconnectOp(fd) => Disconnect(r, fd)
    case ConnectOp(node, fd) => Connect(r, node, fd)
  }

  const NO_ROUTES: Routes := Routes(map[], map[], map[], [])

  function RoutesAfter(ops: seq<RouteOp>): Routes {
    if ops == [] then NO_ROUTES else ApplyRoute(RoutesAfter(ops[..|ops| - 1]), ops[|ops| - 1])
  }

  // --------------------------------------------------------------------------------------
  // Consistency
  // --------------------------------------------------------------------------------------

  // The node behind a connection is routed over that connection.
  ghost predicate RoutesAgree(r: Routes) {
    forall fd :: fd in r.fdToNode ==>
      r.fdToNode[fd] != [] && r.fdToNode[fd] in r.nodeToFd && r.nodeToFd[r.fdToNode[fd]] == fd
  }

  ghost predicate RoutesInverse(r: Routes) {
    && RoutesAgree(r)
    && forall n :: n in r.nodeToFd ==> r.nodeToFd[n] in r.fdToNode && r.fdToNode[r.nodeToFd[n]] == n
  }

  // A known node that is marked alive is the first entry with its id, and has a route.
  ghost predicate AliveRouted(r: Routes) {
    forall i :: 0 <= i < |r.known| && r.known[i].alive ==>
      r.known[i].nodeId in r.nodeToFd && forall j :: 0 <= j < i ==> r.known[j].nodeId != r.known[i].nodeId
  }

  lemma {:induction false} SetAliveAt(known: seq<KnownNode>, node: NodeId, alive: bool, i: nat)
    requires i < |known|
    ensures var r := SetAlive(known, node, alive);
            && r[i].nodeId == known[i].nodeId
            && r[i].alive == if known[i].nodeId == node && (forall j :: 0 <= j < i ==> known[j].nodeId != node)
                             then alive else known[i].alive
  {
    if known[0].nodeId != node && i > 0 {
      SetAliveAt(known[1..], node, alive, i - 1);
      assert forall j :: 0 <= j < i - 1 ==> known[1..][j] == known[j + 1];
      assert (forall j :: 0 <= j < i ==> known[j].nodeId != node)
        <==> (forall j :: 0 <= j < i - 1 ==> known[1..][j].nodeId != node) by {
        if forall j :: 0 <= j < i - 1 ==> known[1..][j].nodeId != node {
          forall j | 0 <= j < i ensures known[j].nodeId != node {
            assert j > 0 ==> known[j] == known[1..][j - 1];
          }
        }
      }
    }
  }

  lemma SetAliveAll(known: seq<KnownNode>, node: NodeId, alive: bool)
    ensures forall i :: 0 <= i < |known| ==>
              && SetAlive(known, node, alive)[i].nodeId == known[i].nodeId
              && SetAlive(known, node, alive)[i].alive ==
                   if known[i].nodeId == node && (forall j :: 0 <= j < i ==> known[j].nodeId != node)
                   then alive else known[i].alive
  {
    forall i | 0 <= i < |known| {
      SetAliveAt(known, node, alive, i);
    }
  }

  lemma ApplyKeepsRoutes(r: Routes, op: RouteOp)
    requires RoutesAgree(r)
    ensures RoutesAgree(ApplyRoute(r, op))
  {
  }

  lemma ApplyKeepsAlive(r: Routes, op: RouteOp)
    requires RoutesAgree(r) && AliveRouted(r)
    ensures AliveRouted(ApplyRoute(r, op))
  {
    match op {
      case HandshakeOp(node, fd) => SetAliveAll(r.known, node, true);
      case DisconnectOp(fd) =>
        if fd in r.fdToNode {
          SetAliveAll(r.known, r.fdToNode[fd], false);
        }
      case ConnectOp(_, _) =>
    }
  }

  // In every run: the node behind a connection is routed over it, so the test for a superseded
  // connection never has to skip a removal; and a node marked alive has a route.
  lemma {:induction false} RoutesAlwaysAgree(ops: seq<RouteOp>)
    ensures RoutesAgree(RoutesAfter(ops)) && AliveRouted(RoutesAfter(ops))
  {
    if ops != [] {
      var before := ops[..|ops| - 1];
      RoutesAlwaysAgree(before);
      ApplyKeepsRoutes(RoutesAfter(before), ops[|ops| - 1]);
      ApplyKeepsAlive(RoutesAfter(before), ops[|ops| - 1]);
    }
  }

  // What the lookups find after each operation.
  lemma LookupsAfter(r: Routes, op: RouteOp)
    requires RoutesAgree(r)
    ensures var u := ApplyRoute(r, op);
            match op
            case HandshakeOp(node, fd) =>
              node != [] ==>
                && (forall n :: n in u.nodeToFd <==> n in r.nodeToFd || n == node)
                && (forall n :: n in u.nodeToFd ==> u.nodeToFd[n] == if n == node then fd else r.nodeToFd[n])
                && (forall f :: f in u.fdToNode ==> u.fdToNode[f] == if f == fd then node else r.fdToNode[f])
                && (forall f :: f in u.fdToNode <==>
                      f == fd || (f in r.fdToNode && !(node in r.nodeToFd && r.nodeToFd[node] == f)))
                && fd !in u.pending && |u.known| == |r.known|
            case DisconnectOp(fd) =>
              && fd !in u.fdToNode && fd !in u.pending && |u.known| == |r.known|
              && (forall f :: f != fd && f in r.fdToNode ==> f in u.fdToNode && u.fdToNode[f] == r.fdToNode[f])
              && (forall n :: n in u.nodeToFd <==>
                    n in r.nodeToFd && !(r.nodeToFd[n] == fd && fd in r.fdToNode && r.fdToNode[fd] == n))
              && (forall n :: n in u.nodeToFd ==> u.nodeToFd[n] == r.nodeToFd[n])
            case ConnectOp(node, fd) =>
              && u.nodeToFd == r.nodeToFd && u.fdToNode == r.fdToNode
              && fd in u.pending && u.pending[fd] == node
              && |u.known| == |r.known| + 1 && u.known[|r.known|].nodeId == node && !u.known[|r.known|].alive
              && u.known[..|r.known|] == r.known
  {
  }

  // The i-th entry is the first one for its node.
  ghost predicate IsFirst(known: seq<KnownNode>, i: nat) {
    i < |known| && forall j :: 0 <= j < i ==> known[j].nodeId != known[i].nodeId
  }

  // A known node that has a route is marked alive.
  ghost predicate RoutedAlive(r: Routes) {
    forall i: nat :: IsFirst(r.known, i) && r.known[i].nodeId in r.nodeToFd ==> r.known[i].alive
  }

  // A handshake always marks its node alive, if it is known.
  lemma HandshakeRevives(r: Routes, node: NodeId, fd: Fd, i: nat)
    requires node != [] && IsFirst(r.known, i) && r.known[i].nodeId == node
    ensures var u := ApplyRoute(r, HandshakeOp(node, fd));
            |u.known| == |r.known| && u.known[i].nodeId == node && u.known[i].alive
  {
    SetAliveAll(r.known, node, true);
  }

  // Connecting to a node that is routed already, but was not known before.
  ghost predicate KnownTooLate(r: Routes, op: RouteOp) {
    op.ConnectOp? && op.node in r.nodeToFd && forall i :: 0 <= i < |r.known| ==> r.known[i].nodeId != op.node
  }

  // Routed nodes stay marked alive exactly unless one is made known after its handshake.
  lemma RoutedAliveIff(r: Routes, op: RouteOp)
    requires RoutesAgree(r) && RoutedAlive(r)
    ensures RoutedAlive(ApplyRoute(r, op)) <==> !KnownTooLate(r, op)
  {
    hide RoutesAgree;
    match op {
      case HandshakeOp(node, fd) =>
        SetAliveAll(r.known, node, true);
        SameFirst(r.known, SetAlive(r.known, node, true));
      case DisconnectOp(fd) =>
        if fd in r.fdToNode {
          SetAliveAll(r.known, r.fdToNode[fd], false);
          SameFirst(r.known, SetAlive(r.known, r.fdToNode[fd], false));
        }
      case ConnectOp(node, fd) =>
        var u, n := Connect(r, node, fd), |r.known|;
        assert forall i :: 0 <= i < n ==> u.known[i] == r.known[i];
        assert forall i: nat :: i < n ==> (IsFirst(u.known, i) <==> IsFirst(r.known, i));
        if KnownTooLate(r, op) {
          assert IsFirst(u.known, n);
        } else if node in r.nodeToFd {
          var i :| 0 <= i < n && r.known[i].nodeId == node;
          assert u.known[i].nodeId == node && !IsFirst(u.known, n);
        }
    }
  }

  lemma SameFirst(known: seq<KnownNode>, known': seq<KnownNode>)
    requires |known| == |known'| && forall i :: 0 <= i < |known| ==> known'[i].nodeId == known[i].nodeId
    ensures forall i: nat :: IsFirst(known', i) <==> IsFirst(known, i)
  {
  }

  // In every run in which nodes are made known before they shake hands, a known node is marked
  // alive at its first entry exactly while it has a route.
  lemma {:induction false} AliveExactlyRouted(ops: seq<RouteOp>)
    requires forall k :: 0 <= k < |ops| ==> !KnownTooLate(RoutesAfter(ops[..k]), ops[k])
    ensures var r := RoutesAfter(ops);
            forall i: nat :: IsFirst(r.known, i) ==> (r.known[i].alive <==> r.known[i].nodeId in r.nodeToFd)
    ensures RoutedAlive(RoutesAfter(ops))
  {
    hide KnownTooLate;
    RoutesAlwaysAgree(ops);
    if ops != [] {
      var n := |ops| - 1;
      assert forall k :: 0 <= k < n ==> ops[..n][..k] == ops[..k] && ops[..n][k] == ops[k];
      AliveExactlyRouted(ops[..n]);
      RoutesAlwaysAgree(ops[..n]);
      RoutedAliveIff(RoutesAfter(ops[..n]), ops[n]);
    }
  }

  // A node that connected by itself and is made known afterwards has a route but counts as dead.
  lemma KnownAfterHandshake(node: NodeId, fd: Fd, other: Fd)
    requires node != []
    ensures var r := RoutesAfter([HandshakeOp(node, fd), ConnectOp(node, other)]);
            r.known == [KnownNode(node, false)] && node in r.nodeToFd
  {
    var one, two := [HandshakeOp(node, fd)], [HandshakeOp(node, fd), ConnectOp(node, other)];
    assert one[..0] == [] && two[..1] == one;
    assert RoutesAfter(one) == Announce(NO_ROUTES, node, fd);
  }

  // After a node reconnected, the loss of its old connection changes no route and no liveness.
  lemma SupersededLossIsHarmless(ops: seq<RouteOp>, node: NodeId, oldFd: Fd, newFd: Fd)
    requires node in RoutesAfter(ops).nodeToFd && RoutesAfter(ops).nodeToFd[node] == oldFd
    requires newFd != oldFd && node != []
    ensures var r := RoutesAfter(ops + [HandshakeOp(node, newFd)]);
            var s := RoutesAfter(ops + [HandshakeOp(node, newFd), DisconnectOp(oldFd)]);
            s.nodeToFd == r.nodeToFd && s.fdToNode == r.fdToNode && s.known == r.known
  {
    var one := ops + [HandshakeOp(node, newFd)];
    var two := one + [DisconnectOp(oldFd)];
    assert two == ops + [HandshakeOp(node, newFd), DisconnectOp(oldFd)];
    assert one[..|ops|] == ops && two[..|one|] == one;
    assert RoutesAfter(one) == Announce(RoutesAfter(ops), node, newFd);
    assert RoutesAfter(two) == Disconnect(RoutesAfter(one), oldFd);
  }

  // A handshake keeps the two maps inverse exactly when the connection had not announced
  // another node before.
  lemma AnnounceKeepsInverse(r: Routes, node: NodeId, fd: Fd)
    requires RoutesInverse(r) && node != []
    ensures RoutesInverse(Announce(r, node, fd)) <==> (fd !in r.fdToNode || r.fdToNode[fd] == node)
  {
    var s := Announce(r, node, fd);
    if fd in r.fdToNode && r.fdToNode[fd] != node {
      var other := r.fdToNode[fd];
      assert other in s.nodeToFd && s.nodeToFd[other] == fd && s.fdToNode[fd] == node;
    }
  }

  // No connection announces two node ids.
  ghost predicate OneIdPerConnection(ops: seq<RouteOp>) {
    forall i, j | 0 <= i < |ops| && 0 <= j < |ops| && ops[i].HandshakeOp? && ops[j].HandshakeOp? ::
      ops[i].fd == ops[j].fd ==> ops[i].node == ops[j].node
  }

  lemma {:induction false} RoutesWereAnnounced(ops: seq<RouteOp>, fd: Fd)
    requires fd in RoutesAfter(ops).fdToNode
    ensures exists i :: 0 <= i < |ops| && ops[i] == HandshakeOp(RoutesAfter(ops).fdToNode[fd], fd)
  {
    var before := ops[..|ops| - 1];
    var last := ops[|ops| - 1];
    if last.HandshakeOp? && last.fd == fd && last.node != [] {
    } else {
      RoutesWereAnnounced(before, fd);
      var i :| 0 <= i < |before| && before[i] == HandshakeOp(RoutesAfter(before).fdToNode[fd], fd);
      assert ops[i] == before[i];
    }
  }

  // When no connection announces two ids, the maps are inverse throughout the run.
  lemma {:induction false} RoutesStayInverse(ops: seq<RouteOp>)
    requires OneIdPerConnection(ops)
    ensures RoutesInverse(RoutesAfter(ops))
  {
    if ops != [] {
      var before := ops[..|ops| - 1];
      var last := ops[|ops| - 1];
      RoutesStayInverse(before);
      var r := RoutesAfter(before);
      if last.HandshakeOp? && last.node != [] {
        AnnounceKeepsInverse(r, last.node, last.fd);
        if last.fd in r.fdToNode {
          RoutesWereAnnounced(before, last.fd);
        }
      }
    }
  }

  // A connection that announces a second id leaves the first node routed over it for ever,
  // even after the connection is lost.
  lemma SecondIdLeavesDangling(first: NodeId, second: NodeId, fd: Fd)
    requires first != second && first != [] && second != []
    ensures var r := RoutesAfter([HandshakeOp(first, fd), HandshakeOp(second, fd), DisconnectOp(fd)]);
            first in r.nodeToFd && r.nodeToFd[first] == fd && fd !in r.fdToNode
  {
    var one := [HandshakeOp(first, fd)];
    var two := one + [HandshakeOp(second, fd)];
    var three := two + [DisconnectOp(fd)];
    assert three == [HandshakeOp(first, fd), HandshakeOp(second, fd), DisconnectOp(fd)];
    assert one[..0] == [] && two[..1] == one && three[..2] == two;
    assert RoutesAfter(one) == Announce(NO_ROUTES, first, fd);
    assert RoutesAfter(two) == Announce(RoutesAfter(one), second, fd);
    assert RoutesAfter(three) == Disconnect(RoutesAfter(two), fd);
  }

  // --------------------------------------------------------------------------------------
  // The tables, updated in place
  // --------------------------------------------------------------------------------------

  class TcpClusterTransport {
    var nodeToFd: map<NodeId, Fd>
    var fdToNode: map<Fd, NodeId>
    var pendingNodeId: map<Fd, NodeId>
    var knownNodes: seq<KnownNode>

    constructor ()
      ensures State() == NO_ROUTES
    {
      nodeToFd, fdToNode, pendingNodeId, knownNodes := map[], map[], map[], [];
    }

    ghost function State(): Routes
      reads this
    {
      Routes(nodeToFd, fdToNode, pendingNodeId, knownNodes)
    }

    // The search loop shared by registration and loss of a node.
    method MarkNode(nodeId: NodeId, alive: bool)
      modifies this`knownNodes
      ensures knownNodes == SetAlive(old(knownNodes), nodeId, alive)
    {
      var i := 0;
      while i < |knownNodes| && knownNodes[i].nodeId != nodeId
        invariant i <= |knownNodes| && knownNodes == old(knownNodes)
        invariant forall j :: 0 <= j < i ==> knownNodes[j].nodeId != nodeId
      {
        i := i + 1;
      }
      SetsFirst(knownNodes, nodeId, alive, i);
      if i < |knownNodes| {
        knownNodes := knownNodes[i := knownNodes[i].(alive := alive)];
      }
    }

    method RegisterNodeFd(nodeId: NodeId, fd: Fd)
      modifies this
      ensures State() == Announce(old(State()), nodeId, fd)
    {
      if nodeId in nodeToFd && nodeToFd[nodeId] != fd {
        fdToNode := fdToNode - {nodeToFd[nodeId]};
      }
      nodeToFd := nodeToFd[nodeId := fd];
      fdToNode := fdToNode[fd := nodeId];
      pendingNodeId := pendingNodeId - {fd};
      MarkNode(nodeId, true);
    }

    method OnNodeDisconnected(fd: Fd)
      modifies this
      ensures State() == Disconnect(old(State()), fd)
    {
      var nodeId: NodeId := [];
      var wasActiveFd := false;
      if fd in fdToNode {
        nodeId := fdToNode[fd];
        fdToNode := fdToNode - {fd};
        if nodeId in nodeToFd {
          if nodeToFd[nodeId] == fd {
            nodeToFd := nodeToFd - {nodeId};
            wasActiveFd := true;
          }
        }
      }
      pendingNodeId := pendingNodeId - {fd};
      if nodeId != [] && wasActiveFd {
        MarkNode(nodeId, false);
      }
    }

    method ConnectToNode(nodeId: NodeId, fd: Fd)
      modifies this
      ensures State() == Connect(old(State()), nodeId, fd)
    {
      pendingNodeId := pendingNodeId[fd := nodeId];
      knownNodes := knownNodes + [KnownNode(nodeId, false)];
    }

    method GetFdByNodeId(nodeId: NodeId) returns (fd: Fd)
      ensures nodeId in nodeToFd ==> fd == nodeToFd[nodeId]
      ensures nodeId !in nodeToFd ==> fd == -1
    {
      if nodeId in nodeToFd {
        return nodeToFd[nodeId];
      }
      return -1;
    }
  }
}
