/**
 Remote calls between two nodes, over the encoded byte streams of their connection.

 Every actor is the coroutine machine of module Coroutines and runs arbitrary user code. The
 mail of an actor is a set that only grows and from which any message may be processed at any
 time: messages may arrive late, repeatedly and in any order. Timers may fire at any time,
 cancelled or not.
 */
module ClusterRpc {
  import opened Bytes
  import opened Messages
  import opened ClusterCodec
  import opened Reassembly
  import opened ActorRegistry
  import opened ClusterGateway
  import opened Coroutines
  import opened SessionHistory

  datatype Side = A | B

  function Other(side: Side): Side {
    if side.A? then B else A
  }

  datatype Ref = Ref(side: Side, id: ActorId)

  // What does not change in a run: the ids of the two nodes and the registered names.
  datatype Config = Config(idA: bytes, idB: bytes, namesA: NameTable, namesB: NameTable) {
    function Id(side: Side): bytes {
      if side.A? then idA else idB
    }

    function Names(side: Side): NameTable {
      if side.A? then namesA else namesB
    }

    ghost predicate Valid() {
      NamesAgree(namesA) && NamesAgree(namesB)
    }
  }

  // One direction of the connection: the packets sent, the bytes the receiver has read, its
  // buffer, and the packets it has handled.
  datatype Link = Link(sent: seq<ClusterPacket>, read: nat, buffer: bytes, handled: nat)

  // RespondRemote was called by `actor` for `request` with `data`.
  datatype Response = Response(actor: Ref, request: ActorMessage, data: bytes)

  // started holds the messages whose handler was started.
  datatype Cluster = Cluster(
    coros: map<Ref, Coro>,
    mail: set<(Ref, ActorMessage)>,
    timers: set<(Ref, ActorMessage)>,
    started: set<(Ref, ActorMessage)>,
    responses: set<Response>,
    fromA: Link,
    fromB: Link)
  {
    function From(side: Side): Link {
      if side.A? then fromA else fromB
    }

    function WithFrom(side: Side, l: Link): Cluster {
      if side.A? then this.(fromA := l) else this.(fromB := l)
    }
  }

  // --------------------------------------------------------------------------------------
  // Steps
  // --------------------------------------------------------------------------------------

  // SendToRemote over the one transport: the payload is what the message holds in `data`.
  function PacketFor(cfg: Config, from: Ref, node: bytes, name: bytes, msg: ActorMessage): ClusterPacket {
    RemotePacket(cfg.Id(from.side), node, name, msg, NameOf(cfg.Names(from.side), from.id), RemoteData(msg, 0))
  }

  lemma PacketNamesNode(cfg: Config, from: Ref, node: bytes, name: bytes, msg: ActorMessage)
    ensures PacketFor(cfg, from, node, name, msg).targetNodeId == node
  {
  }

  // The packets that the remote requests among the outputs may put on the wire.
  ghost predicate PacketOf(cfg: Config, from: Ref, out: seq<Output>, p: ClusterPacket) {
    exists o :: o in out && o.SentRemote? && p == PacketFor(cfg, from, o.targetNodeId, o.targetActorName, o.msg)
                && p.targetNodeId == cfg.Id(Other(from.side))
  }

  function ResponseMessage(r: Response): ActorMessage {
    ActorMessage(UserMessage, sourceId := r.actor.id, data := r.data, sessionId := r.request.sessionId,
                 isResponse := true)
  }

  function AnswerPacket(cfg: Config, r: Response): ClusterPacket {
    PacketFor(cfg, r.actor, r.request.sourceNodeId, r.request.sourceActorName, ResponseMessage(r))
  }

  // User code passes no responses to Call and ClusterCall, and to Call no messages that it got
  // from the other node. Passing on such a message by ClusterCall is fine: the packet is built
  // anew. Module ClusterRpcMisuse shows what happens otherwise.
  predicate IsOwn(a: Await) {
    && (a.Call? ==> !a.msg.IsRemote())
    && (!a.Sleep? ==> !a.msg.isResponse)
  }

  predicate OwnMessages(script: seq<Await>) {
    forall a :: a in script ==> IsOwn(a)
  }

  // An actor processes a message. Its outputs may be lost on the way: a receiver may not be
  // registered, a node not be connected. FramesOwned, without which OnMessage is not defined,
  // holds throughout every run.
  ghost predicate ProcessAny(cfg: Config, s: Cluster, s': Cluster, r: Ref, msg: ActorMessage, script: seq<Await>) {
    && (r, msg) in s.mail && r in s.coros && FramesOwned(s.coros[r]) && s.coros[r].nextSession < SESSIONS - 1
    && var c := OnMessage(s.coros[r], r.id, msg, script);
    && s'.coros == s.coros[r := c]
    && s.mail <= s'.mail
    && (forall m :: m in s'.mail ==> m in s.mail || (m.0.side == r.side && Sent(m.0.id, m.1) in c.out))
    && s.timers <= s'.timers
    && (forall t :: t in s'.timers ==>
          t in s.timers || (t.0 == r && exists o :: o in c.out && o.TimerSet? && o.msg == t.1))
    && s'.started == (if msg.isResponse && msg.sessionId > 0 then s.started else s.started + {(r, msg)})
    && s'.responses == s.responses
    && s'.From(Other(r.side)) == s.From(Other(r.side))
    && QueuedBehind(s.From(r.side), s'.From(r.side))
    && forall i :: |s.From(r.side).sent| <= i < |s'.From(r.side).sent| ==>
         PacketOf(cfg, r, c.out, s'.From(r.side).sent[i])
  }

  ghost predicate Process(cfg: Config, s: Cluster, s': Cluster, r: Ref, msg: ActorMessage, script: seq<Await>) {
    ProcessAny(cfg, s, s', r, msg, script) && OwnMessages(script)
  }

  // Packets were queued behind the ones sent before.
  ghost predicate QueuedBehind(l: Link, l': Link) {
    l.sent <= l'.sent && l' == l.(sent := l'.sent) && AllEncodable(l'.sent)
  }

  // RespondRemote: the answer goes to the node and the name the request came from, if that node
  // is the connected one. User code can pass any remote message it got.
  ghost predicate RespondRemoteAny(cfg: Config, s: Cluster, s': Cluster, r: Response) {
    && (r.actor, r.request) in s.mail && r.request.IsRemote()
    && var l := s.From(r.actor.side);
       var p := AnswerPacket(cfg, r);
       var sent := p.targetNodeId == cfg.Id(Other(r.actor.side)) && Encodable(p);
       s' == s.(responses := s.responses + {r})
              .WithFrom(r.actor.side, if sent then l.(sent := l.sent + [p]) else l)
  }

  // RespondToCall: the answer goes to the local actor the request came from.
  ghost predicate RespondLocalAny(s: Cluster, s': Cluster, actor: Ref, request: ActorMessage, response: ActorMessage) {
    && (actor, request) in s.mail
    && s' == s.(mail := s.mail + {(Ref(actor.side, request.sourceId), LocalResponse(actor, request, response))})
  }

  function LocalResponse(actor: Ref, request: ActorMessage, response: ActorMessage): ActorMessage {
    response.(sourceId := actor.id, sessionId := request.sessionId, isResponse := true)
  }

  // User code responds to messages that its handlers were started for, and not to the results of
  // its own calls, which carry its own session.
  ghost predicate RespondRemote(cfg: Config, s: Cluster, s': Cluster, r: Response) {
    (r.actor, r.request) in s.started && RespondRemoteAny(cfg, s, s', r)
  }

  ghost predicate RespondLocal(s: Cluster, s': Cluster, actor: Ref, request: ActorMessage, response: ActorMessage) {
    (actor, request) in s.started && RespondLocalAny(s, s', actor, request, response)
  }

  ghost predicate SendLocal(s: Cluster, s': Cluster, to: Ref, msg: ActorMessage) {
    s' == s.(mail := s.mail + {(to, msg)})
  }

  // A message that belongs to no call: local or over the wire, with session 0.
  ghost predicate PlainLocal(s: Cluster, s': Cluster, to: Ref, msg: ActorMessage) {
    msg.sessionId == 0 && SendLocal(s, s', to, msg)
  }

  ghost predicate PlainRemote(s: Cluster, s': Cluster, side: Side, p: ClusterPacket) {
    && p.sessionId == 0 && Encodable(p)
    && s' == s.WithFrom(side, s.From(side).(sent := s.From(side).sent + [p]))
  }

  ghost predicate TimerFires(s: Cluster, s': Cluster, r: Ref, msg: ActorMessage) {
    (r, msg) in s.timers && s' == s.(mail := s.mail + {(r, msg)})
  }

  // The mail that handled packets are at the receiving side.
  ghost predicate Routed(cfg: Config, side: Side, ps: seq<ClusterPacket>, m: (Ref, ActorMessage)) {
    exists p :: p in ps && Receiver(cfg.Names(side), p) > 0
                && m == (Ref(side, Receiver(cfg.Names(side), p)), Localize(p))
  }

  // The gateway of the other node reads n more bytes of what `side` sent, as one chunk.
  ghost predicate Receive(cfg: Config, s: Cluster, s': Cluster, side: Side, n: nat) {
    var l := s.From(side);
    && l.read + n <= |WireAll(l.sent)|
    && var r := Drain(l.buffer + WireAll(l.sent)[l.read..l.read + n]);
    && s' == s.(mail := s'.mail).WithFrom(side, l.(read := l.read + n, buffer := r.rest,
                                             handled := l.handled + |r.packets|))
    && s.mail <= s'.mail
    && forall m :: m in s'.mail ==> m in s.mail || Routed(cfg, Other(side), r.packets, m)
  }

  ghost predicate Next(cfg: Config, s: Cluster, s': Cluster) {
    || (exists r, msg, script :: Process(cfg, s, s', r, msg, script))
    || (exists r :: RespondRemote(cfg, s, s', r))
    || (exists actor, request, response :: RespondLocal(s, s', actor, request, response))
    || (exists to, msg :: PlainLocal(s, s', to, msg))
    || (exists side, p :: PlainRemote(s, s', side, p))
    || (exists r, msg :: TimerFires(s, s', r, msg))
    || (exists side, n: nat :: Receive(cfg, s, s', side, n))
  }

  // Registered actors have positive ids; nothing was sent yet, and whatever is in the mail
  // belongs to no call.
  ghost predicate Init(s: Cluster) {
    && (forall r :: r in s.coros ==> r.id > 0 && s.coros[r] == FRESH)
    && (forall m :: m in s.mail ==> m.1.sessionId == 0)
    && s.timers == {} && s.started == {} && s.responses == {}
    && s.fromA == Link([], 0, [], 0) && s.fromB == Link([], 0, [], 0)
  }

  // --------------------------------------------------------------------------------------
  // Where everything comes from
  // --------------------------------------------------------------------------------------

  // Actor `from` put out this output.
  ghost predicate PutOut(s: Cluster, from: Ref, o: Output) {
    from in s.coros && o in s.coros[from].out
  }

  // The packet carries the request of a remote call made by `from`.
  ghost predicate IsRequest(cfg: Config, s: Cluster, from: Ref, p: ClusterPacket,
                            node: bytes, name: bytes, msg: ActorMessage) {
    && PutOut(s, from, SentRemote(node, name, msg)) && node == cfg.Id(Other(from.side))
    && p == PacketFor(cfg, from, node, name, msg)
  }

  ghost predicate IsResponse(cfg: Config, s: Cluster, r: Response, p: ClusterPacket) {
    && r in s.responses && r.request.sourceNodeId == cfg.Id(Other(r.actor.side))
    && p == AnswerPacket(cfg, r)
  }

  // A packet sent by `side`.
  ghost predicate PacketJustified(cfg: Config, s: Cluster, side: Side, p: ClusterPacket) {
    || p.sessionId == 0
    || (exists id, node, name, msg :: IsRequest(cfg, s, Ref(side, id), p, node, name, msg))
    || (exists r: Response :: r.actor.side == side && IsResponse(cfg, s, r, p))
  }

  // The message is the packet of that call or answer, routed at the receiving side.
  ghost predicate Arrived(cfg: Config, to: Ref, p: ClusterPacket, msg: ActorMessage) {
    Receiver(cfg.Names(to.side), p) == to.id && to.id > 0 && msg == Localize(p)
  }

  // A message in the mail of an actor.
  ghost predicate MailJustified(cfg: Config, s: Cluster, to: Ref, msg: ActorMessage) {
    || msg.sessionId == 0
    || (to, msg) in s.timers
    || (exists p :: PacketJustified(cfg, s, Other(to.side), p) && Arrived(cfg, to, p, msg))
    || (exists from :: from == msg.sourceId && PutOut(s, Ref(to.side, from), Sent(to.id, msg)) && !msg.IsRemote())
    || (exists actor, request :: LocalAnswer(s, actor, request, to, msg))
  }

  ghost predicate LocalAnswer(s: Cluster, actor: Ref, request: ActorMessage, to: Ref, msg: ActorMessage) {
    && (actor, request) in s.started && actor.side == to.side
    && request.sourceId == to.id && request.sessionId == msg.sessionId && msg.isResponse
  }

  // --------------------------------------------------------------------------------------
  // The invariant
  // --------------------------------------------------------------------------------------

  ghost predicate CoroOk(c: Coro, self: ActorId) {
    && self > 0 && CoroInv(c) && AwaitInv(c, self)
    && forall session :: session in c.awaits ==> IsOwn(c.awaits[session])
  }

  ghost predicate CorosOk(s: Cluster) {
    forall r :: r in s.coros ==> CoroOk(s.coros[r], r.id)
  }

  // The packets handled so far, encoded, followed by the buffer, are the bytes read.
  ghost predicate LinkOk(l: Link) {
    && AllEncodable(l.sent) && l.handled <= |l.sent| && l.read <= |WireAll(l.sent)|
    && WireAll(l.sent[..l.handled]) + l.buffer == WireAll(l.sent)[..l.read]
    && Parse(l.buffer) == NeedMore
  }

  ghost predicate SentOk(cfg: Config, s: Cluster, side: Side) {
    forall p :: p in s.From(side).sent ==> PacketJustified(cfg, s, side, p)
  }

  ghost predicate MailOk(cfg: Config, s: Cluster) {
    forall m :: m in s.mail ==> MailJustified(cfg, s, m.0, m.1)
  }

  ghost predicate LogOk(s: Cluster) {
    && (forall m :: m in s.started ==> m in s.mail && !(m.1.isResponse && m.1.sessionId > 0))
    && (forall r :: r in s.responses ==> (r.actor, r.request) in s.started && r.request.IsRemote())
    && (forall t :: t in s.timers ==> TimerPutOut(s, t.0, t.1))
  }

  ghost predicate TimerPutOut(s: Cluster, r: Ref, msg: ActorMessage) {
    exists o :: PutOut(s, r, o) && o.TimerSet? && o.msg == msg
  }

  // Calls were resumed with mail for their session.
  ghost predicate ResultsOk(s: Cluster, r: Ref, resumed: seq<Resumption>) {
    forall k :: 0 <= k < |resumed| ==> !resumed[k].await.Sleep? ==>
      (r, resumed[k].result) in s.mail && IsResponseTo(resumed[k].result, resumed[k].session)
  }

  ghost predicate ResumedOk(s: Cluster) {
    forall r :: r in s.coros ==> ResultsOk(s, r, s.coros[r].resumed)
  }

  ghost predicate Inv(cfg: Config, s: Cluster) {
    && CorosOk(s) && LogOk(s) && ResumedOk(s) && MailOk(cfg, s)
    && LinkOk(s.fromA) && LinkOk(s.fromB) && SentOk(cfg, s, A) && SentOk(cfg, s, B)
  }

  lemma InitInv(cfg: Config, s: Cluster)
    requires Init(s)
    ensures Inv(cfg, s)
  {
    hide CoroInv, Parse;
    FreshIsGood();
    EmptyIsIncomplete();
  }

  // Histories grow, and what they justify stays justified.
  ghost predicate Grew(s: Cluster, s': Cluster) {
    && s.coros.Keys == s'.coros.Keys
    && (forall r :: r in s.coros ==> s.coros[r].out <= s'.coros[r].out)
    && s.mail <= s'.mail && s.timers <= s'.timers && s.started <= s'.started && s.responses <= s'.responses
  }

  lemma StillPutOut(s: Cluster, s': Cluster, r: Ref, o: Output)
    requires Grew(s, s') && PutOut(s, r, o)
    ensures PutOut(s', r, o)
  {
  }

  lemma PacketStaysJustified(cfg: Config, s: Cluster, s': Cluster, side: Side, p: ClusterPacket)
    requires Grew(s, s') && PacketJustified(cfg, s, side, p)
    ensures PacketJustified(cfg, s', side, p)
  {
    hide Grew, PutOut, PacketFor;
    if p.sessionId == 0 {
    } else if id, node, name, msg :| IsRequest(cfg, s, Ref(side, id), p, node, name, msg) {
      StillPutOut(s, s', Ref(side, id), SentRemote(node, name, msg));
      assert IsRequest(cfg, s', Ref(side, id), p, node, name, msg);
    } else {
      var r: Response :| r.actor.side == side && IsResponse(cfg, s, r, p);
      assert s.responses <= s'.responses by {
        ResponsesGrew(s, s');
      }
      assert IsResponse(cfg, s', r, p);
    }
  }

  lemma ResponsesGrew(s: Cluster, s': Cluster)
    requires Grew(s, s')
    ensures s.responses <= s'.responses && s.timers <= s'.timers && s.started <= s'.started && s.mail <= s'.mail
  {
  }

  lemma MailStaysJustified(cfg: Config, s: Cluster, s': Cluster, to: Ref, msg: ActorMessage)
    requires Grew(s, s') && MailJustified(cfg, s, to, msg)
    ensures MailJustified(cfg, s', to, msg)
  {
    hide Grew, PutOut, PacketJustified, Arrived;
    ResponsesGrew(s, s');
    if msg.sessionId == 0 || (to, msg) in s.timers {
    } else if p :| PacketJustified(cfg, s, Other(to.side), p) && Arrived(cfg, to, p, msg) {
      PacketStaysJustified(cfg, s, s', Other(to.side), p);
    } else if PutOut(s, Ref(to.side, msg.sourceId), Sent(to.id, msg)) && !msg.IsRemote() {
      StillPutOut(s, s', Ref(to.side, msg.sourceId), Sent(to.id, msg));
    } else {
      var actor, request :| LocalAnswer(s, actor, request, to, msg);
      assert LocalAnswer(s', actor, request, to, msg);
    }
  }

  lemma OldMailOk(cfg: Config, s: Cluster, s': Cluster)
    requires Grew(s, s') && MailOk(cfg, s)
    requires forall m :: m in s'.mail ==> m in s.mail || MailJustified(cfg, s', m.0, m.1)
    ensures MailOk(cfg, s')
  {
    hide Grew, MailJustified;
    forall m | m in s'.mail
      ensures MailJustified(cfg, s', m.0, m.1)
    {
      if m in s.mail {
        MailStaysJustified(cfg, s, s', m.0, m.1);
      }
    }
  }

  lemma OldPacketsOk(cfg: Config, s: Cluster, s': Cluster, side: Side)
    requires Grew(s, s') && SentOk(cfg, s, side)
    requires forall p :: p in s'.From(side).sent ==> p in s.From(side).sent || PacketJustified(cfg, s', side, p)
    ensures SentOk(cfg, s', side)
  {
    hide Grew, PacketJustified;
    forall p | p in s'.From(side).sent
      ensures PacketJustified(cfg, s', side, p)
    {
      if p in s.From(side).sent {
        PacketStaysJustified(cfg, s, s', side, p);
      }
    }
  }

  // More packets behind those sent change nothing about what was read.
  lemma LinkExtends(l: Link, more: seq<ClusterPacket>)
    requires LinkOk(l) && AllEncodable(more)
    ensures LinkOk(l.(sent := l.sent + more))
  {
    hide WireAll, Parse;
    WireAllAppend(l.sent, more);
    assert (l.sent + more)[..l.handled] == l.sent[..l.handled];
    assert (WireAll(l.sent) + WireAll(more))[..l.read] == WireAll(l.sent)[..l.read];
  }

  // Reading on handles the next packets sent, in order.
  lemma LinkReads(l: Link, n: nat)
    requires LinkOk(l) && l.read + n <= |WireAll(l.sent)|
    ensures var r := Drain(l.buffer + WireAll(l.sent)[l.read..l.read + n]);
            && LinkOk(l.(read := l.read + n, buffer := r.rest, handled := l.handled + |r.packets|))
            && l.handled + |r.packets| <= |l.sent|
            && forall p :: p in r.packets ==> p in l.sent
  {
    hide Drain, WireAll, Parse;
    var wire := WireAll(l.sent);
    var chunk := wire[l.read..l.read + n];
    var front, left := l.sent[..l.handled], l.sent[l.handled..];
    assert l.sent == front + left;
    WireAllAppend(front, left);
    assert wire[..l.read + n] == wire[..l.read] + chunk;
    assert WireAll(front) + l.buffer + chunk == WireAll(front) + (l.buffer + chunk);
    PrefixAfter(WireAll(front), l.buffer + chunk, WireAll(left), l.read + n);
    DrainsStream(left, l.buffer + chunk);
    RestIsIncomplete(l.buffer + chunk);
    var r := Drain(l.buffer + chunk);
    WireAllAppend(front, r.packets);
    assert l.sent[..l.handled + |r.packets|] == front + r.packets by {
      assert l.sent[..l.handled + |r.packets|] == front + left[..|r.packets|];
    }
    assert WireAll(front) + WireAll(r.packets) + r.rest == WireAll(front) + (WireAll(r.packets) + r.rest);
  }

  lemma PrefixAfter(front: bytes, received: bytes, left: bytes, k: nat)
    requires k <= |front + left| && front + received == (front + left)[..k]
    ensures received <= left
  {
    assert |received| == k - |front|;
    forall i | 0 <= i < |received|
      ensures received[i] == left[i]
    {
      assert received[i] == (front + received)[|front| + i];
      assert left[i] == (front + left)[|front| + i];
    }
  }

  // --------------------------------------------------------------------------------------
  // Every step keeps the invariant
  // --------------------------------------------------------------------------------------

  lemma ReceiveKeeps(cfg: Config, s: Cluster, s': Cluster, side: Side, n: nat)
    requires Inv(cfg, s) && Receive(cfg, s, s', side, n)
    ensures Inv(cfg, s')
  {
    hide Drain, CoroOk, LinkOk, PacketJustified, MailJustified, WireAll;
    var l := s.From(side);
    var r := Drain(l.buffer + WireAll(l.sent)[l.read..l.read + n]);
    assert LinkOk(l);
    assert l.read + n <= |WireAll(l.sent)|;
    LinkReads(l, n);
    forall m | m in s'.mail && m !in s.mail
      ensures MailJustified(cfg, s', m.0, m.1)
    {
      var p :| p in r.packets && Receiver(cfg.Names(Other(side)), p) > 0
               && m == (Ref(Other(side), Receiver(cfg.Names(Other(side)), p)), Localize(p));
      PacketStaysJustified(cfg, s, s', side, p);
      ArrivedIsJustified(cfg, s', m.0, p, m.1);
    }
    OldMailOk(cfg, s, s');
    OldPacketsOk(cfg, s, s', A);
    OldPacketsOk(cfg, s, s', B);
  }

  lemma ArrivedIsJustified(cfg: Config, s: Cluster, to: Ref, p: ClusterPacket, msg: ActorMessage)
    requires PacketJustified(cfg, s, Other(to.side), p) && Arrived(cfg, to, p, msg)
    ensures MailJustified(cfg, s, to, msg)
  {
  }

  lemma PutOutIsJustified(cfg: Config, s: Cluster, r: Ref, side: Side, p: ClusterPacket)
    requires r in s.coros && PacketOf(cfg, r, s.coros[r].out, p) && side == r.side
    ensures PacketJustified(cfg, s, side, p)
  {
    hide PacketFor;
    var o :| o in s.coros[r].out && o.SentRemote?
             && p == PacketFor(cfg, r, o.targetNodeId, o.targetActorName, o.msg)
             && p.targetNodeId == cfg.Id(Other(r.side));
    PacketNamesNode(cfg, r, o.targetNodeId, o.targetActorName, o.msg);
    assert IsRequest(cfg, s, Ref(side, r.id), p, o.targetNodeId, o.targetActorName, o.msg);
  }

  // What an actor sends is a request of its own: it names the actor and belongs to a call.
  lemma SentIsOwn(c: Coro, self: ActorId, to: ActorId, msg: ActorMessage)
    requires CoroOk(c, self) && Sent(to, msg) in c.out
    ensures msg.sourceId == self && !msg.IsRemote() && !msg.isResponse
    ensures msg.sessionId in c.awaits && c.awaits[msg.sessionId].Call?
  {
    hide CoroInv;
    assert OutputOk(c.awaits, self, Sent(to, msg));
    assert Request(self, c.awaits[msg.sessionId], msg.sessionId) == [Sent(to, msg)];
    assert IsOwn(c.awaits[msg.sessionId]);
    assert [Sent(to, msg)][0] == Sent(to, msg);
  }

  lemma SentRemoteIsOwn(c: Coro, self: ActorId, node: bytes, name: bytes, msg: ActorMessage)
    requires CoroOk(c, self) && SentRemote(node, name, msg) in c.out
    ensures msg.sourceId == self && !msg.isResponse && msg.sessionId in c.awaits
    ensures var a := c.awaits[msg.sessionId];
            a.ClusterCall? && a.targetNodeId == node && a.targetActorName == name && a.msg.data == msg.data
  {
    hide CoroInv;
    assert OutputOk(c.awaits, self, SentRemote(node, name, msg));
    assert Request(self, c.awaits[msg.sessionId], msg.sessionId) == [SentRemote(node, name, msg)];
    assert IsOwn(c.awaits[msg.sessionId]);
    assert [SentRemote(node, name, msg)][0] == SentRemote(node, name, msg);
  }

  lemma CoroKeeps(c: Coro, self: ActorId, msg: ActorMessage, script: seq<Await>)
    requires CoroOk(c, self) && OwnMessages(script) && c.nextSession < SESSIONS - 1
    ensures CoroOk(OnMessage(c, self, msg, script), self)
    ensures c.out <= OnMessage(c, self, msg, script).out
  {
    hide CoroInv, AwaitInv, OnMessage;
    OnMessageKeeps(c, self, msg, script);
    OnMessageHistory(c, self, msg, script);
  }

  lemma ProcessGrew(cfg: Config, s: Cluster, s': Cluster, r: Ref, msg: ActorMessage, script: seq<Await>)
    requires CorosOk(s) && Process(cfg, s, s', r, msg, script)
    ensures Grew(s, s') && CorosOk(s')
  {
    hide CoroOk, OnMessage, PacketOf, QueuedBehind, CoroInv, OwnMessages;
    assert CoroOk(s.coros[r], r.id);
    CoroKeeps(s.coros[r], r.id, msg, script);
  }

  lemma ProcessMail(cfg: Config, s: Cluster, s': Cluster, r: Ref, msg: ActorMessage, script: seq<Await>)
    requires CorosOk(s) && MailOk(cfg, s) && Process(cfg, s, s', r, msg, script)
    ensures MailOk(cfg, s')
  {
    hide CoroOk, OnMessage, PacketOf, QueuedBehind, CoroInv, OwnMessages, Grew, MailJustified;
    ProcessGrew(cfg, s, s', r, msg, script);
    forall m | m in s'.mail && m !in s.mail
      ensures MailJustified(cfg, s', m.0, m.1)
    {
      assert CoroOk(s'.coros[r], r.id);
      SentIsOwn(s'.coros[r], r.id, m.0.id, m.1);
      SentIsJustified(cfg, s', m.0, m.1);
    }
    OldMailOk(cfg, s, s');
  }

  lemma SentIsJustified(cfg: Config, s: Cluster, to: Ref, msg: ActorMessage)
    requires PutOut(s, Ref(to.side, msg.sourceId), Sent(to.id, msg)) && !msg.IsRemote()
    ensures MailJustified(cfg, s, to, msg)
  {
  }

  lemma ProcessLinks(cfg: Config, s: Cluster, s': Cluster, r: Ref, msg: ActorMessage, script: seq<Await>, side: Side)
    requires CorosOk(s) && SentOk(cfg, s, side) && LinkOk(s.From(side)) && Process(cfg, s, s', r, msg, script)
    ensures SentOk(cfg, s', side) && LinkOk(s'.From(side))
  {
    hide CoroOk, OnMessage, PacketOf, CoroInv, OwnMessages, Grew, PacketJustified, LinkOk;
    ProcessGrew(cfg, s, s', r, msg, script);
    if side == r.side {
      var l, l' := s.From(side), s'.From(side);
      assert l'.sent == l.sent + l'.sent[|l.sent|..];
      LinkExtends(l, l'.sent[|l.sent|..]);
      forall p | p in l'.sent && p !in l.sent
        ensures PacketJustified(cfg, s', side, p)
      {
        PutOutIsJustified(cfg, s', r, side, p);
      }
    } else {
      assert side == Other(r.side);
    }
    OldPacketsOk(cfg, s, s', side);
  }

  lemma ProcessLog(cfg: Config, s: Cluster, s': Cluster, r: Ref, msg: ActorMessage, script: seq<Await>)
    requires CorosOk(s) && LogOk(s) && Process(cfg, s, s', r, msg, script)
    ensures LogOk(s')
  {
    hide CoroOk, OnMessage, PacketOf, CoroInv, OwnMessages, Grew, QueuedBehind, TimerPutOut;
    ProcessGrew(cfg, s, s', r, msg, script);
    forall t | t in s'.timers
      ensures TimerPutOut(s', t.0, t.1)
    {
      if t in s.timers {
        TimerStaysPutOut(s, s', t.0, t.1);
      } else {
        var o :| o in s'.coros[r].out && o.TimerSet? && o.msg == t.1;
        TimerIsPutOut(s', r, o);
      }
    }
  }

  lemma TimerIsPutOut(s: Cluster, r: Ref, o: Output)
    requires PutOut(s, r, o) && o.TimerSet?
    ensures TimerPutOut(s, r, o.msg)
  {
  }

  lemma TimerStaysPutOut(s: Cluster, s': Cluster, r: Ref, msg: ActorMessage)
    requires Grew(s, s') && TimerPutOut(s, r, msg)
    ensures TimerPutOut(s', r, msg)
  {
    var o :| PutOut(s, r, o) && o.TimerSet? && o.msg == msg;
    StillPutOut(s, s', r, o);
  }

  lemma ProcessResumes(cfg: Config, s: Cluster, s': Cluster, r: Ref, msg: ActorMessage, script: seq<Await>)
    requires CorosOk(s) && ResumedOk(s) && Process(cfg, s, s', r, msg, script)
    ensures ResumedOk(s')
  {
    hide OnMessage, PacketOf, CoroInv, AwaitInv, OwnMessages, Grew, QueuedBehind;
    OnMessageResumes(s.coros[r], r.id, msg, script);
    forall q | q in s'.coros
      ensures ResultsOk(s', q, s'.coros[q].resumed)
    {
      assert ResultsOk(s, q, s.coros[q].resumed);
    }
  }

  lemma ProcessKeeps(cfg: Config, s: Cluster, s': Cluster, r: Ref, msg: ActorMessage, script: seq<Await>)
    requires Inv(cfg, s) && Process(cfg, s, s', r, msg, script)
    ensures Inv(cfg, s')
  {
    hide Process, CorosOk, LogOk, ResumedOk, MailOk, LinkOk, SentOk;
    ProcessGrew(cfg, s, s', r, msg, script);
    ProcessMail(cfg, s, s', r, msg, script);
    ProcessLinks(cfg, s, s', r, msg, script, A);
    ProcessLinks(cfg, s, s', r, msg, script, B);
    ProcessLog(cfg, s, s', r, msg, script);
    ProcessResumes(cfg, s, s', r, msg, script);
  }

  lemma RespondRemoteKeeps(cfg: Config, s: Cluster, s': Cluster, r: Response)
    requires Inv(cfg, s) && RespondRemote(cfg, s, s', r)
    ensures Inv(cfg, s')
  {
    hide CoroOk, LinkOk, PacketJustified, MailJustified, PacketFor, Encodable;
    var side := r.actor.side;
    var p := AnswerPacket(cfg, r);
    assert LinkOk(s.From(side));
    PacketNamesNode(cfg, r.actor, r.request.sourceNodeId, r.request.sourceActorName, ResponseMessage(r));
    if s'.From(side) != s.From(side) {
      LinkExtends(s.From(side), [p]);
      AnswerIsJustified(cfg, s', r, p);
    }
    OldMailOk(cfg, s, s');
    OldPacketsOk(cfg, s, s', A);
    OldPacketsOk(cfg, s, s', B);
  }

  lemma AnswerIsJustified(cfg: Config, s: Cluster, r: Response, p: ClusterPacket)
    requires IsResponse(cfg, s, r, p)
    ensures PacketJustified(cfg, s, r.actor.side, p)
  {
  }

  // A step that only adds justified mail.
  lemma MoreMailKeeps(cfg: Config, s: Cluster, s': Cluster)
    requires Inv(cfg, s) && s.mail <= s'.mail && s' == s.(mail := s'.mail)
    requires forall m :: m in s'.mail ==> m in s.mail || MailJustified(cfg, s', m.0, m.1)
    ensures Inv(cfg, s')
  {
    hide CoroOk, LinkOk, PacketJustified, MailJustified;
    OldMailOk(cfg, s, s');
    OldPacketsOk(cfg, s, s', A);
    OldPacketsOk(cfg, s, s', B);
  }

  lemma PlainRemoteKeeps(cfg: Config, s: Cluster, s': Cluster, side: Side, p: ClusterPacket)
    requires Inv(cfg, s) && PlainRemote(s, s', side, p)
    ensures Inv(cfg, s')
  {
    hide CoroOk, LinkOk, MailJustified, Encodable;
    assert LinkOk(s.From(side));
    LinkExtends(s.From(side), [p]);
    OldMailOk(cfg, s, s');
    OldPacketsOk(cfg, s, s', A);
    OldPacketsOk(cfg, s, s', B);
  }

  lemma NextKeeps(cfg: Config, s: Cluster, s': Cluster)
    requires Inv(cfg, s) && Next(cfg, s, s')
    ensures Inv(cfg, s')
  {
    hide Inv, Process, RespondRemote, PlainRemote, Receive;
    if r, msg, script :| Process(cfg, s, s', r, msg, script) {
      ProcessKeeps(cfg, s, s', r, msg, script);
    } else if r :| RespondRemote(cfg, s, s', r) {
      RespondRemoteKeeps(cfg, s, s', r);
    } else if actor, request, response :| RespondLocal(s, s', actor, request, response) {
      assert LocalAnswer(s', actor, request, Ref(actor.side, request.sourceId),
                         LocalResponse(actor, request, response));
      MoreMailKeeps(cfg, s, s');
    } else if to, msg :| PlainLocal(s, s', to, msg) {
      MoreMailKeeps(cfg, s, s');
    } else if side, p :| PlainRemote(s, s', side, p) {
      PlainRemoteKeeps(cfg, s, s', side, p);
    } else if r, msg :| TimerFires(s, s', r, msg) {
      MoreMailKeeps(cfg, s, s');
    } else {
      var side, n: nat :| Receive(cfg, s, s', side, n);
      ReceiveKeeps(cfg, s, s', side, n);
    }
  }

  // --------------------------------------------------------------------------------------
  // Main results
  // --------------------------------------------------------------------------------------

  // A run, state by state.
  ghost predicate IsRun(cfg: Config, run: seq<Cluster>) {
    && |run| > 0 && Init(run[0])
    && forall i :: 0 <= i < |run| - 1 ==> Next(cfg, run[i], run[i + 1])
  }

  lemma {:induction false} RunInv(cfg: Config, run: seq<Cluster>, i: nat)
    requires IsRun(cfg, run) && i < |run|
    ensures Inv(cfg, run[i])
  {
    hide Inv, Init, Next;
    if i == 0 {
      InitInv(cfg, run[0]);
    } else {
      RunInv(cfg, run, i - 1);
      assert Next(cfg, run[i - 1], run[i - 1 + 1]);
      NextKeeps(cfg, run[i - 1], run[i]);
    }
  }

  // The answer is the data some RespondRemote sent: its actor is the one the call named, and
  // the request it answers came from this node and this caller, with this session and the data
  // of the call.
  ghost predicate AnsweredBy(cfg: Config, s: Cluster, caller: Ref, call: Resumption, r: Response)
    requires call.await.ClusterCall?
  {
    && r in s.responses && (r.actor, r.request) in s.started
    && call.await.targetNodeId == cfg.Id(Other(caller.side))
    && r.actor == Ref(Other(caller.side), Find(cfg.Names(Other(caller.side)), call.await.targetActorName))
    && r.request.sourceNodeId == cfg.Id(caller.side)
    && r.request.sourceActorName == NameOf(cfg.Names(caller.side), caller.id)
    && r.request.sessionId == call.session && r.request.data == call.await.msg.data
    && call.result.data == r.data && call.result.error == Ok
  }

  // A request handled with a session and a source node is the packet of a remote call.
  lemma RemoteRequestOrigin(cfg: Config, s: Cluster, actor: Ref, request: ActorMessage)
    returns (id: ActorId, node: bytes, name: bytes, msg: ActorMessage)
    requires Inv(cfg, s) && (actor, request) in s.started && request.IsRemote() && request.sessionId > 0
    ensures var caller := Ref(Other(actor.side), id);
            && PutOut(s, caller, SentRemote(node, name, msg)) && node == cfg.Id(actor.side)
            && actor.id == Find(cfg.Names(actor.side), name)
            && request == Localize(PacketFor(cfg, caller, node, name, msg))
  {
    hide CoroInv, AwaitInv, CoroOk, PacketJustified;
    assert MailJustified(cfg, s, actor, request);
    assert Other(Other(actor.side)) == actor.side;
    if (actor, request) in s.timers {
      TimersAreWakeUps(cfg, s, actor, request);
      assert false;
    } else {
      var p :| PacketJustified(cfg, s, Other(actor.side), p) && Arrived(cfg, actor, p, request);
      id, node, name, msg := PacketOrigin(cfg, s, Other(actor.side), p);
    }
  }

  // A packet of a session that is no response carries a remote call.
  lemma PacketOrigin(cfg: Config, s: Cluster, side: Side, p: ClusterPacket)
    returns (id: ActorId, node: bytes, name: bytes, msg: ActorMessage)
    requires PacketJustified(cfg, s, side, p) && p.sessionId > 0 && !p.isResponse
    ensures IsRequest(cfg, s, Ref(side, id), p, node, name, msg)
  {
    id, node, name, msg :| IsRequest(cfg, s, Ref(side, id), p, node, name, msg);
  }

  lemma TimersAreWakeUps(cfg: Config, s: Cluster, r: Ref, msg: ActorMessage)
    requires Inv(cfg, s) && (r, msg) in s.timers
    ensures r in s.coros && msg.sessionId in s.coros[r].awaits
    ensures msg == WakeUp(msg.sessionId, if s.coros[r].awaits[msg.sessionId].Sleep? then Ok else Timeout)
    ensures msg.isResponse && msg.sessionId > 0
  {
    hide CoroInv;
    assert TimerPutOut(s, r, msg);
    var o :| PutOut(s, r, o) && o.TimerSet? && o.msg == msg;
    assert CoroOk(s.coros[r], r.id);
    assert OutputOk(s.coros[r].awaits, r.id, o);
  }

  // A request that an actor of this side handles and that names `caller` as its source was put
  // out by the caller as a local call.
  lemma LocalRequestOrigin(cfg: Config, s: Cluster, actor: Ref, request: ActorMessage, caller: Ref)
    requires Inv(cfg, s) && (actor, request) in s.started && request.sessionId > 0
    requires caller.side == actor.side && caller.id == request.sourceId && caller.id > 0
    ensures PutOut(s, caller, Sent(actor.id, request))
  {
    hide CoroOk, PacketJustified;
    assert MailJustified(cfg, s, actor, request);
    if (actor, request) in s.timers {
      TimersAreWakeUps(cfg, s, actor, request);
      assert false;
    }
  }

  // The answer that arrived in packet p was issued for exactly this call.
  lemma AnswerIsForCaller(cfg: Config, s: Cluster, caller: Ref, call: Resumption, r: Response, p: ClusterPacket)
    requires cfg.Valid() && Inv(cfg, s) && caller in s.coros
    requires call in s.coros[caller].resumed && call.await.ClusterCall?
    requires IsResponse(cfg, s, r, p) && r.actor.side == Other(caller.side)
    requires Arrived(cfg, caller, p, call.result) && IsResponseTo(call.result, call.session)
    ensures AnsweredBy(cfg, s, caller, call, r)
  {
    hide CoroInv, PacketJustified, MailJustified;
    var id, node, name, msg := RemoteRequestOrigin(cfg, s, r.actor, r.request);
    assert Other(r.actor.side) == caller.side;
    assert id == caller.id;
    var c := s.coros[caller];
    assert CoroOk(c, caller.id);
    SentRemoteIsOwn(c, caller.id, node, name, msg);
    assert c.awaits[call.session] == call.await;
  }

  // Mail that resumes a remote call is its own timeout, or an answer to it.
  lemma ResultOrigin(cfg: Config, s: Cluster, caller: Ref, call: Resumption)
    requires cfg.Valid() && Inv(cfg, s) && caller in s.coros
    requires call in s.coros[caller].resumed && call.await.ClusterCall?
    ensures || call.result == WakeUp(call.session, Timeout)
            || exists r :: AnsweredBy(cfg, s, caller, call, r)
  {
    hide CoroInv, AnsweredBy, IsRequest, IsResponse, LocalAnswer;
    var result := call.result;
    var c := s.coros[caller];
    assert CoroOk(c, caller.id) && ResultsOk(s, caller, c.resumed);
    assert c.awaits[call.session] == call.await;
    assert MailJustified(cfg, s, caller, result);
    if (caller, result) in s.timers {
      TimersAreWakeUps(cfg, s, caller, result);
    } else if p :| PacketJustified(cfg, s, Other(caller.side), p) && Arrived(cfg, caller, p, result) {
      NoRequestArrives(cfg, s, Other(caller.side), p);
      var r: Response :| r.actor.side == Other(caller.side) && IsResponse(cfg, s, r, p);
      AnswerIsForCaller(cfg, s, caller, call, r, p);
    } else if actor, request :| LocalAnswer(s, actor, request, caller, result) {
      NoLocalAnswer(cfg, s, caller, call, actor, request);
      assert false;
    } else {
      SentIsNoResponse(cfg, s, Ref(caller.side, result.sourceId), caller.id, result);
      assert false;
    }
  }

  // A packet that carries a call is no response.
  lemma NoRequestArrives(cfg: Config, s: Cluster, side: Side, p: ClusterPacket)
    requires Inv(cfg, s) && PacketJustified(cfg, s, side, p) && p.sessionId > 0 && p.isResponse
    ensures exists r: Response :: r.actor.side == side && IsResponse(cfg, s, r, p)
  {
    hide CoroOk;
    if id, node, name, msg :| IsRequest(cfg, s, Ref(side, id), p, node, name, msg) {
      assert CoroOk(s.coros[Ref(side, id)], id);
      SentRemoteIsOwn(s.coros[Ref(side, id)], id, node, name, msg);
      assert false;
    }
  }

  lemma SentIsNoResponse(cfg: Config, s: Cluster, from: Ref, to: ActorId, msg: ActorMessage)
    requires Inv(cfg, s) && PutOut(s, from, Sent(to, msg))
    ensures !msg.isResponse
  {
    hide CoroOk;
    assert CoroOk(s.coros[from], from.id);
    SentIsOwn(s.coros[from], from.id, to, msg);
  }

  // No local actor answers the session of a remote call.
  lemma NoLocalAnswer(cfg: Config, s: Cluster, caller: Ref, call: Resumption, actor: Ref, request: ActorMessage)
    requires Inv(cfg, s) && caller in s.coros && call in s.coros[caller].resumed && call.await.ClusterCall?
    requires call.session > 0 && call.result.sessionId == call.session
    ensures !LocalAnswer(s, actor, request, caller, call.result)
  {
    hide CoroInv, MailJustified;
    var c := s.coros[caller];
    assert CoroOk(c, caller.id);
    assert c.awaits[call.session] == call.await;
    if LocalAnswer(s, actor, request, caller, call.result) {
      LocalRequestOrigin(cfg, s, actor, request, caller);
      SentIsOwn(c, caller.id, actor.id, request);
      assert false;
    }
  }

  // In every run, every remote call is resumed at most once, with its own timeout or with data
  // that RespondRemote issued for exactly this call.
  lemma ClusterCallSafety(cfg: Config, run: seq<Cluster>, i: nat, caller: Ref, k: nat)
    requires cfg.Valid() && IsRun(cfg, run) && i < |run| && caller in run[i].coros
    requires k < |run[i].coros[caller].resumed| && run[i].coros[caller].resumed[k].await.ClusterCall?
    ensures var call := run[i].coros[caller].resumed[k];
            && (|| call.result == WakeUp(call.session, Timeout)
                || exists r :: AnsweredBy(cfg, run[i], caller, call, r))
            && (forall j :: 0 <= j < |run[i].coros[caller].resumed| && j != k ==>
                  run[i].coros[caller].resumed[j].session != call.session)
  {
    hide AnsweredBy, Next, Init;
    RunInv(cfg, run, i);
    var s := run[i];
    assert CoroOk(s.coros[caller], caller.id);
    ResultOrigin(cfg, s, caller, s.coros[caller].resumed[k]);
  }

  // The gateways lose, repeat and reorder nothing: the packets handled are the first packets
  // sent, their encodings followed by the buffer are the bytes read, and when all was read all
  // was handled.
  lemma LinksAreFaithful(cfg: Config, run: seq<Cluster>, i: nat, side: Side)
    requires IsRun(cfg, run) && i < |run|
    ensures var l := run[i].From(side);
            && l.handled <= |l.sent| && l.read <= |WireAll(l.sent)|
            && WireAll(l.sent[..l.handled]) + l.buffer == WireAll(l.sent)[..l.read]
            && (l.read == |WireAll(l.sent)| ==> l.handled == |l.sent| && l.buffer == [])
  {
    hide Next, Init, WireAll, Parse;
    RunInv(cfg, run, i);
    assert LinkOk(run[i].From(side));
    if run[i].From(side).read == |WireAll(run[i].From(side).sent)| {
      AllRead(run[i].From(side));
    }
  }

  lemma AllRead(l: Link)
    requires LinkOk(l) && l.read == |WireAll(l.sent)|
    ensures l.handled == |l.sent| && l.buffer == []
  {
    hide Parse, Wire;
    var front, left := l.sent[..l.handled], l.sent[l.handled..];
    assert l.sent == front + left;
    WireAllAppend(front, left);
    assert WireAll(l.sent)[..l.read] == WireAll(l.sent);
    CancelPrefix(WireAll(front), l.buffer, WireAll(left));
    if left != [] {
      RoundTrip(left[0], WireAll(left[1..]));
    }
  }

  // --------------------------------------------------------------------------------------
  // Single steps
  // --------------------------------------------------------------------------------------

  const START: ActorMessage := ActorMessage(UserMessage)

  lemma ReadsOne(p: ClusterPacket)
    requires Encodable(p)
    ensures |WireAll([p])| > 0
    ensures Drain([] + WireAll([p])[0..|WireAll([p])|]) == Outcome([p], [], false)
  {
    hide Parse;
    WireLength(p);
    assert [] + WireAll([p])[0..|WireAll([p])|] == WireAll([p]);
    DrainsStream([p], WireAll([p]));
  }

  // The gateway reads the one packet sent and delivers it.
  lemma DeliversOne(cfg: Config, s: Cluster, side: Side, p: ClusterPacket)
    requires Encodable(p) && s.From(side) == Link([p], 0, [], 0) && Receiver(cfg.Names(Other(side)), p) > 0
    ensures Receive(cfg, s, DeliveredOne(cfg, s, side, p), side, |WireAll([p])|)
  {
    hide Drain, Encodable, WireAll;
    ReadsOne(p);
    var m := (Ref(Other(side), Receiver(cfg.Names(Other(side)), p)), Localize(p));
    assert p in [p];
    assert Routed(cfg, Other(side), [p], m);
  }

  // The one packet sent is read and delivered.
  ghost function DeliveredOne(cfg: Config, s: Cluster, side: Side, p: ClusterPacket): Cluster {
    s.(mail := s.mail + {(Ref(Other(side), Receiver(cfg.Names(Other(side)), p)), Localize(p))})
     .WithFrom(side, Link([p], |WireAll([p])|, [], 1))
  }

  // --------------------------------------------------------------------------------------
  // One actor
  // --------------------------------------------------------------------------------------

  // The actor waits for one call, under session 1.
  ghost predicate AwaitsFirst(c: Coro, call: Await) {
    && FramesOwned(c) && c.nextSession == 2 && c.resumed == []
    && 1 in c.waiting && c.frames[c.waiting[1]].await == call
  }

  lemma FirstCall(self: ActorId, msg: ActorMessage, call: Await)
    requires !msg.isResponse && !call.Sleep?
    ensures FramesOwned(FRESH)
    ensures var c := OnMessage(FRESH, self, msg, [call]);
            AwaitsFirst(c, call) && c.out != [] && c.out[0] == Request(self, call, 1)[0]
  {
    var c := OnMessage(FRESH, self, msg, [call]);
    assert c == Suspend(FRESH.(nextFrame := 1), self, 0, call);
    assert c.waiting == map[1 := 0] && c.frames.Keys == {0};
  }

  lemma IsOwned(c: Coro, call: Await)
    requires AwaitsFirst(c, call)
    ensures FramesOwned(c) && c.nextSession == 2
  {
  }

  lemma StillAwaits(c: Coro, self: ActorId, msg: ActorMessage, call: Await)
    requires AwaitsFirst(c, call) && !msg.isResponse
    ensures AwaitsFirst(OnMessage(c, self, msg, []), call)
  {
  }

  lemma Resumes(c: Coro, self: ActorId, msg: ActorMessage, call: Await)
    requires AwaitsFirst(c, call) && IsResponseTo(msg, 1) && !call.Sleep?
    ensures var d := OnMessage(c, self, msg, []);
            && |d.resumed| == 1
            && d.resumed[0].session == 1 && d.resumed[0].await == call && d.resumed[0].result == msg
  {
    hide FramesLinear;
  }

  // --------------------------------------------------------------------------------------
  // One step
  // --------------------------------------------------------------------------------------

  // The state after an actor processed a message, with what arrived of its outputs.
  ghost function Processed(s: Cluster, r: Ref, msg: ActorMessage, script: seq<Await>,
                           sent: set<(Ref, ActorMessage)>, packets: seq<ClusterPacket>): Cluster
    requires r in s.coros && FramesOwned(s.coros[r])
  {
    s.(coros := s.coros[r := OnMessage(s.coros[r], r.id, msg, script)],
       mail := s.mail + sent,
       started := if msg.isResponse && msg.sessionId > 0 then s.started else s.started + {(r, msg)})
     .WithFrom(r.side, s.From(r.side).(sent := s.From(r.side).sent + packets))
  }

  lemma ProcessedIsAStep(cfg: Config, s: Cluster, r: Ref, msg: ActorMessage, script: seq<Await>,
                         sent: set<(Ref, ActorMessage)>, packets: seq<ClusterPacket>)
    requires r in s.coros && FramesOwned(s.coros[r]) && s.coros[r].nextSession <= 2 && (r, msg) in s.mail
    requires AllEncodable(s.From(r.side).sent) && AllEncodable(packets)
    requires var out := OnMessage(s.coros[r], r.id, msg, script).out;
             && (forall m :: m in sent ==> m.0.side == r.side && Sent(m.0.id, m.1) in out)
             && (forall p :: p in packets ==> PacketOf(cfg, r, out, p))
    ensures ProcessAny(cfg, s, Processed(s, r, msg, script, sent, packets), r, msg, script)
  {
    hide OnMessage, PacketOf, FramesOwned, Encodable;
  }

  // --------------------------------------------------------------------------------------
  // A call that is answered
  // --------------------------------------------------------------------------------------

  ghost predicate Reachable(cfg: Config, s: Cluster) {
    exists run :: IsRun(cfg, run) && run[|run| - 1] == s
  }

  lemma InitIsReachable(cfg: Config, s: Cluster)
    requires Init(s)
    ensures Reachable(cfg, s)
  {
    hide Next, Init;
    assert IsRun(cfg, [s]);
  }

  lemma NextIsReachable(cfg: Config, s: Cluster, s': Cluster)
    requires Reachable(cfg, s) && Next(cfg, s, s')
    ensures Reachable(cfg, s')
  {
    hide Next, Init;
    var run :| IsRun(cfg, run) && run[|run| - 1] == s;
    assert IsRun(cfg, run + [s']);
  }

  // The packets of a call from actor caller of node A, and of its answer.
  function CallPacket(cfg: Config, caller: ActorId, call: Await): ClusterPacket
    requires call.ClusterCall?
  {
    PacketFor(cfg, Ref(A, caller), call.targetNodeId, call.targetActorName,
              call.msg.(sessionId := 1, sourceId := caller))
  }

  function AnswerOf(cfg: Config, caller: ActorId, call: Await, callee: ActorId, data: bytes): Response
    requires call.ClusterCall?
  {
    Response(Ref(B, callee), Localize(CallPacket(cfg, caller, call)), data)
  }

  // What it takes for the call to arrive and be answered.
  ghost predicate Answerable(cfg: Config, caller: ActorId, call: Await, callee: ActorId, data: bytes) {
    && cfg.Valid() && cfg.idA != [] && cfg.idB != []
    && caller > 0 && callee > 0 && call.ClusterCall? && IsOwn(call)
    && call.targetNodeId == cfg.idB && call.targetActorName != [] && Find(cfg.namesB, call.targetActorName) == callee
    && NameOf(cfg.namesA, caller) != [] && Find(cfg.namesA, NameOf(cfg.namesA, caller)) == caller
    && Encodable(CallPacket(cfg, caller, call)) && call.msg.data != MAGIC
    && Encodable(AnswerPacket(cfg, AnswerOf(cfg, caller, call, callee, data))) && data != MAGIC
  }

  lemma CallIsPutOut(cfg: Config, a: Ref, call: Await, out: seq<Output>)
    requires call.ClusterCall? && call.targetNodeId == cfg.Id(Other(a.side))
    requires out != []
    requires out[0] == SentRemote(call.targetNodeId, call.targetActorName,
                                  call.msg.(sessionId := 1, sourceId := a.id))
    ensures PacketOf(cfg, a, out, PacketFor(cfg, a, call.targetNodeId, call.targetActorName,
                                            call.msg.(sessionId := 1, sourceId := a.id)))
  {
    assert out[0] in out;
  }

  lemma ProcessReaches(cfg: Config, s: Cluster, s': Cluster, r: Ref, msg: ActorMessage, script: seq<Await>)
    requires Reachable(cfg, s) && Process(cfg, s, s', r, msg, script)
    ensures Reachable(cfg, s')
  {
    hide Reachable, Process;
    NextIsReachable(cfg, s, s');
  }

  lemma ReceiveReaches(cfg: Config, s: Cluster, side: Side, p: ClusterPacket)
    requires Reachable(cfg, s) && Encodable(p)
    requires s.From(side) == Link([p], 0, [], 0) && Receiver(cfg.Names(Other(side)), p) > 0
    ensures Reachable(cfg, DeliveredOne(cfg, s, side, p))
  {
    hide Reachable, Receive, Encodable;
    DeliversOne(cfg, s, side, p);
    var s' := DeliveredOne(cfg, s, side, p);
    assert Receive(cfg, s, s', side, |WireAll([p])|);
    NextIsReachable(cfg, s, s');
  }

  // The request has arrived: nothing else was sent, and the caller waits.
  ghost predicate Arrival(cfg: Config, s: Cluster, caller: ActorId, call: Await, callee: ActorId)
    requires call.ClusterCall?
  {
    var a, b, p := Ref(A, caller), Ref(B, callee), CallPacket(cfg, caller, call);
    && s.coros.Keys == {a, b} && AwaitsFirst(s.coros[a], call) && s.coros[b] == FRESH
    && (b, Localize(p)) in s.mail && s.responses == {}
    && AllEncodable(s.fromA.sent) && s.fromB == Link([], 0, [], 0)
  }

  lemma CallArrives(cfg: Config, caller: ActorId, call: Await, callee: ActorId, data: bytes) returns (s: Cluster)
    requires Answerable(cfg, caller, call, callee, data)
    ensures Reachable(cfg, s) && Arrival(cfg, s, caller, call, callee)
  {
    hide Reachable, OnMessage, Encodable, FramesOwned, AwaitsFirst, ProcessAny, PacketOf, PacketFor, AnswerPacket;
    var a, b, p := Ref(A, caller), Ref(B, callee), CallPacket(cfg, caller, call);
    var s0 := Cluster(map[a := FRESH, b := FRESH], {(a, START)}, {}, {}, {}, Link([], 0, [], 0), Link([], 0, [], 0));
    InitIsReachable(cfg, s0);
    FirstCall(caller, START, call);
    CallIsPutOut(cfg, a, call, OnMessage(FRESH, caller, START, [call]).out);
    ProcessedIsAStep(cfg, s0, a, START, [call], {}, [p]);
    var s1 := Processed(s0, a, START, [call], {}, [p]);
    ProcessReaches(cfg, s0, s1, a, START, [call]);
    RequestIsRouted(cfg, caller, call, callee);
    ReceiveReaches(cfg, s1, A, p);
    s := DeliveredOne(cfg, s1, A, p);
  }

  lemma RequestIsRouted(cfg: Config, caller: ActorId, call: Await, callee: ActorId)
    requires call.ClusterCall? && call.targetActorName != [] && call.msg.data != MAGIC
    requires Find(cfg.namesB, call.targetActorName) == callee
    ensures Receiver(cfg.namesB, CallPacket(cfg, caller, call)) == callee
  {
  }

  // What the caller gets from the answer.
  lemma AnswerIsRouted(cfg: Config, caller: ActorId, call: Await, callee: ActorId, data: bytes)
    requires Answerable(cfg, caller, call, callee, data)
    ensures var r := AnswerOf(cfg, caller, call, callee, data);
            var q := AnswerPacket(cfg, r);
            && r.request.IsRemote() && !r.request.isResponse && r.request.sourceNodeId == cfg.idA
            && Receiver(cfg.namesA, q) == caller
            && IsResponseTo(Localize(q), 1) && Localize(q).data == data && Localize(q).error == Ok
  {
    hide Encodable;
  }

  // The caller was resumed once, by the answer to this call.
  ghost predicate Answered(s: Cluster, caller: Ref, call: Await, data: bytes) {
    && caller in s.coros && |s.coros[caller].resumed| == 1
    && s.coros[caller].resumed[0].await == call
    && s.coros[caller].resumed[0].result.data == data && s.coros[caller].resumed[0].result.error == Ok
  }

  // The callee has taken the request.
  lemma CallIsTaken(cfg: Config, caller: ActorId, call: Await, callee: ActorId, data: bytes) returns (s: Cluster)
    requires Answerable(cfg, caller, call, callee, data)
    ensures Reachable(cfg, s) && Arrival(cfg, s.(coros := s.coros[Ref(B, callee) := FRESH]), caller, call, callee)
    ensures (Ref(B, callee), Localize(CallPacket(cfg, caller, call))) in s.started
  {
    hide Reachable, OnMessage, Encodable, FramesOwned, AwaitsFirst, ProcessAny, PacketOf, CallPacket, AnswerPacket;
    var b, request := Ref(B, callee), Localize(CallPacket(cfg, caller, call));
    var s2 := CallArrives(cfg, caller, call, callee, data);
    AnswerIsRouted(cfg, caller, call, callee, data);
    FirstCall(callee, START, call);
    ProcessedIsAStep(cfg, s2, b, request, [], {}, []);
    s := Processed(s2, b, request, [], {}, []);
    ProcessReaches(cfg, s2, s, b, request, []);
  }

  // Every call with an encodable request between named actors can be answered: there is a run
  // in which the caller resumes with the data its callee responded with.
  lemma CallIsAnswered(cfg: Config, caller: ActorId, call: Await, callee: ActorId, data: bytes)
    requires Answerable(cfg, caller, call, callee, data)
    ensures exists s :: Reachable(cfg, s) && Answered(s, Ref(A, caller), call, data)
  {
    hide Reachable, OnMessage, Encodable, FramesOwned, AwaitsFirst, ProcessAny, CallPacket, AnswerPacket, Localize;
    var a, r := Ref(A, caller), AnswerOf(cfg, caller, call, callee, data);
    var q := AnswerPacket(cfg, r);
    var s3 := CallIsTaken(cfg, caller, call, callee, data);
    AnswerIsRouted(cfg, caller, call, callee, data);
    var s4 := s3.(responses := {r}, fromB := Link([q], 0, [], 0));
    RespondReaches(cfg, s3, r);
    ReceiveReaches(cfg, s4, B, q);
    var s5 := DeliveredOne(cfg, s4, B, q);
    IsOwned(s5.coros[a], call);
    Resumes(s5.coros[a], caller, Localize(q), call);
    ProcessedIsAStep(cfg, s5, a, Localize(q), [], {}, []);
    var s6 := Processed(s5, a, Localize(q), [], {}, []);
    ProcessReaches(cfg, s5, s6, a, Localize(q), []);
    assert Answered(s6, a, call, data);
  }

  lemma AnswerNamesNode(cfg: Config, r: Response)
    ensures AnswerPacket(cfg, r).targetNodeId == r.request.sourceNodeId
  {
  }

  // Every call with a timeout can also time out: there is a run in which nothing arrives and its
  // own timer resumes it.
  lemma CallCanTimeOut(cfg: Config, caller: ActorId, call: Await)
    requires caller > 0 && call.ClusterCall? && IsOwn(call) && call.timeoutMs > 0
    ensures exists s :: Reachable(cfg, s) && TimedOut(s, Ref(A, caller), call)
  {
    hide Reachable, OnMessage, Encodable, FramesOwned, AwaitsFirst, ProcessAny, PacketOf, PacketFor, IsOwn;
    var a, timeout := Ref(A, caller), WakeUp(1, Timeout);
    var s0 := Cluster(map[a := FRESH], {(a, START)}, {}, {}, {}, Link([], 0, [], 0), Link([], 0, [], 0));
    InitIsReachable(cfg, s0);
    FirstCall(caller, START, call);
    TimeoutIsSet(caller, call);
    var s1 := Processed(s0, a, START, [call], {}, []).(timers := {(a, timeout)});
    TimerIsAStep(cfg, s0, a, call);
    ProcessReaches(cfg, s0, s1, a, START, [call]);
    var s2 := s1.(mail := s1.mail + {(a, timeout)});
    TimerReaches(cfg, s1, a, timeout);
    IsOwned(s2.coros[a], call);
    Resumes(s2.coros[a], caller, timeout, call);
    ProcessedIsAStep(cfg, s2, a, timeout, [], {}, []);
    var s3 := Processed(s2, a, timeout, [], {}, []);
    ProcessReaches(cfg, s2, s3, a, timeout, []);
    assert TimedOut(s3, a, call);
  }

  ghost predicate TimedOut(s: Cluster, caller: Ref, call: Await) {
    && caller in s.coros && |s.coros[caller].resumed| == 1
    && s.coros[caller].resumed[0].await == call && s.coros[caller].resumed[0].result.error == Timeout
  }

  lemma TimeoutIsSet(self: ActorId, call: Await)
    requires call.ClusterCall? && call.timeoutMs > 0
    ensures TimerSet(1, call.timeoutMs, WakeUp(1, Timeout)) in OnMessage(FRESH, self, START, [call]).out
  {
    var c := OnMessage(FRESH, self, START, [call]);
    assert c.out[1] == TimerSet(1, call.timeoutMs, WakeUp(1, Timeout));
  }

  lemma TimerIsAStep(cfg: Config, s: Cluster, r: Ref, call: Await)
    requires s.coros == map[r := FRESH] && (r, START) in s.mail && s.timers == {} && call.ClusterCall?
    requires s.fromA == Link([], 0, [], 0) && s.fromB == Link([], 0, [], 0) && FramesOwned(FRESH)
    requires TimerSet(1, call.timeoutMs, WakeUp(1, Timeout)) in OnMessage(FRESH, r.id, START, [call]).out
    ensures ProcessAny(cfg, s, Processed(s, r, START, [call], {}, []).(timers := {(r, WakeUp(1, Timeout))}),
                       r, START, [call])
  {
    hide OnMessage, PacketOf, Encodable;
  }

  lemma TimerReaches(cfg: Config, s: Cluster, r: Ref, msg: ActorMessage)
    requires Reachable(cfg, s) && (r, msg) in s.timers
    ensures Reachable(cfg, s.(mail := s.mail + {(r, msg)}))
  {
    hide Reachable, Process, RespondRemote, RespondLocal, PlainLocal, PlainRemote, Receive;
    var s' := s.(mail := s.mail + {(r, msg)});
    assert TimerFires(s, s', r, msg);
    NextIsReachable(cfg, s, s');
  }

  lemma RespondReaches(cfg: Config, s: Cluster, r: Response)
    requires Reachable(cfg, s) && (r.actor, r.request) in s.started && (r.actor, r.request) in s.mail
    requires r.request.IsRemote() && r.actor.side == B && r.request.sourceNodeId == cfg.idA
    requires s.responses == {} && s.fromB == Link([], 0, [], 0) && Encodable(AnswerPacket(cfg, r))
    ensures Reachable(cfg, s.(responses := {r}, fromB := Link([AnswerPacket(cfg, r)], 0, [], 0)))
  {
    hide Reachable, Encodable, AnswerPacket, Process, RespondLocal, PlainLocal, PlainRemote, TimerFires, Receive;
    var s' := s.(responses := {r}, fromB := Link([AnswerPacket(cfg, r)], 0, [], 0));
    assert [] + [AnswerPacket(cfg, r)] == [AnswerPacket(cfg, r)];
    AnswerNamesNode(cfg, r);
    assert RespondRemote(cfg, s, s', r);
    NextIsReachable(cfg, s, s');
  }
}
