/**
 Why the conditions on user code in module ClusterRpc are needed: for each of them, a run in
 which one actor does not keep it, and a remote call resumes with data nobody sent to answer it.
 */
module ClusterRpcMisuse {
  import opened Bytes
  import opened Messages
  import opened ClusterCodec
  import opened Reassembly
  import opened ActorRegistry
  import opened ClusterGateway
  import opened Coroutines
  import opened ClusterRpc

  // Any step of ClusterRpc, user code that awaits anything or responds to anything it got, and a
  // plain message of any session.
  ghost predicate AnyNext(cfg: Config, s: Cluster, s': Cluster) {
    || Next(cfg, s, s')
    || (exists r, msg, script :: ProcessAny(cfg, s, s', r, msg, script))
    || (exists to, msg :: SendLocal(s, s', to, msg))
    || (exists r :: RespondRemoteAny(cfg, s, s', r))
    || (exists actor, request, response :: RespondLocalAny(s, s', actor, request, response))
  }

  ghost predicate IsAnyRun(cfg: Config, run: seq<Cluster>) {
    && |run| > 0 && Init(run[0])
    && forall i :: 0 <= i < |run| - 1 ==> AnyNext(cfg, run[i], run[i + 1])
  }

  // The first resumption of the actor is a remote call that neither timed out nor was answered.
  ghost predicate Misled(cfg: Config, s: Cluster, caller: Ref) {
    && caller in s.coros && s.coros[caller].resumed != []
    && var call := s.coros[caller].resumed[0];
    && call.await.ClusterCall?
    && call.result != WakeUp(call.session, Timeout)
    && forall r :: !AnsweredBy(cfg, s, caller, call, r)
  }

  // --------------------------------------------------------------------------------------
  // Steps of a run
  // --------------------------------------------------------------------------------------

  lemma Processes(cfg: Config, s: Cluster, r: Ref, msg: ActorMessage, script: seq<Await>,
                  sent: set<(Ref, ActorMessage)>, packets: seq<ClusterPacket>)
    requires r in s.coros && FramesOwned(s.coros[r]) && s.coros[r].nextSession <= 2 && (r, msg) in s.mail
    requires AllEncodable(s.From(r.side).sent) && AllEncodable(packets)
    requires var out := OnMessage(s.coros[r], r.id, msg, script).out;
             && (forall m :: m in sent ==> m.0.side == r.side && Sent(m.0.id, m.1) in out)
             && (forall p :: p in packets ==> PacketOf(cfg, r, out, p))
    ensures AnyNext(cfg, s, Processed(s, r, msg, script, sent, packets))
  {
    hide OnMessage, PacketOf, FramesOwned, Encodable, ProcessAny;
    ProcessedIsAStep(cfg, s, r, msg, script, sent, packets);
  }

  ghost predicate Reached(cfg: Config, s: Cluster) {
    exists run :: IsAnyRun(cfg, run) && run[|run| - 1] == s
  }

  lemma Starts(cfg: Config, s: Cluster)
    requires Init(s)
    ensures Reached(cfg, s)
  {
    hide AnyNext, Init;
    assert IsAnyRun(cfg, [s]);
  }

  lemma GoesOn(cfg: Config, s: Cluster, s': Cluster)
    requires Reached(cfg, s) && AnyNext(cfg, s, s')
    ensures Reached(cfg, s')
  {
    hide AnyNext, Init;
    var run :| IsAnyRun(cfg, run) && run[|run| - 1] == s;
    assert IsAnyRun(cfg, run + [s']);
  }

  // --------------------------------------------------------------------------------------
  // The runs
  // --------------------------------------------------------------------------------------

  const NODE_A: bytes := [1]
  const NODE_B: bytes := [2]
  const NAME: bytes := [3]

  // On each node the actor with id 1 has the name.
  const NAMES: NameTable := NameTable(map[NAME := 1], map[1 := NAME])
  const CFG: Config := Config(NODE_A, NODE_B, NAMES, NAMES)

  // A remote call to a name that nobody has.
  function LostCall(side: Side): Await {
    ClusterCall(CFG.Id(Other(side)), [4], START, 0)
  }

  ghost function Fresh(refs: set<Ref>, mail: set<(Ref, ActorMessage)>): Cluster {
    Cluster(map r | r in refs :: FRESH, mail, {}, {}, {}, Link([], 0, [], 0), Link([], 0, [], 0))
  }

  // A plain message with a session: the actor `caller` waits in a remote call under session 1,
  // gets a request of local actor 2 with the same session number, and passes it on to actor 3
  // as it is. The answer of actor 3 resumes the remote call.
  lemma ForwardedRequestMisleads(data: bytes)
    ensures exists s :: Reached(CFG, s) && Misled(CFG, s, Ref(A, 1))
  {
    hide OnMessage, Reached, AnyNext, FramesOwned, AwaitsFirst;
    var caller, x, w := Ref(A, 1), Ref(A, 2), Ref(A, 3);
    var remote, local := LostCall(A), Call(1, START, 0);
    var request := START.(sessionId := 1, sourceId := 2);

    var s0 := Fresh({caller, x, w}, {(caller, START), (x, START)});
    Starts(CFG, s0);
    FirstCall(1, START, remote);
    Processes(CFG, s0, caller, START, [remote], {}, []);
    var s1 := Processed(s0, caller, START, [remote], {}, []);
    GoesOn(CFG, s0, s1);
    FirstCall(2, START, local);
    Processes(CFG, s1, x, START, [local], {(caller, request)}, []);
    var s2 := Processed(s1, x, START, [local], {(caller, request)}, []);
    GoesOn(CFG, s1, s2);
    IsOwned(s2.coros[caller], remote);
    StillAwaits(s2.coros[caller], 1, request, remote);
    Processes(CFG, s2, caller, request, [], {}, []);
    var s3 := Processed(s2, caller, request, [], {}, []);
    GoesOn(CFG, s2, s3);
    PassedOnMisleads(s3, data);
  }

  lemma PassedOnMisleads(s: Cluster, data: bytes)
    requires var caller, w := Ref(A, 1), Ref(A, 3);
             && Reached(CFG, s) && caller in s.coros && w in s.coros
             && AwaitsFirst(s.coros[caller], LostCall(A)) && s.coros[w] == FRESH
             && s.responses == {} && s.fromA.sent == []
    ensures exists s' :: Reached(CFG, s') && Misled(CFG, s', Ref(A, 1))
  {
    hide OnMessage, Reached, AnyNext, FramesOwned, AwaitsFirst;
    var caller, w := Ref(A, 1), Ref(A, 3);
    var passedOn := START.(sessionId := 1, sourceId := 1);
    var response := START.(data := data);
    var answer := response.(sourceId := 3, sessionId := 1, isResponse := true);

    FirstCall(3, START, LostCall(A));
    var s4 := s.(mail := s.mail + {(w, passedOn)});
    SendsLocal(CFG, s, w, passedOn);
    GoesOn(CFG, s, s4);
    Processes(CFG, s4, w, passedOn, [], {}, []);
    var s5 := Processed(s4, w, passedOn, [], {}, []);
    GoesOn(CFG, s4, s5);
    var s6 := s5.(mail := s5.mail + {(caller, answer)});
    Responds(CFG, s5, w, passedOn, response);
    GoesOn(CFG, s5, s6);
    IsOwned(s6.coros[caller], LostCall(A));
    Resumes(s6.coros[caller], 1, answer, LostCall(A));
    Processes(CFG, s6, caller, answer, [], {}, []);
    var s7 := Processed(s6, caller, answer, [], {}, []);
    GoesOn(CFG, s6, s7);
    assert Misled(CFG, s7, caller);
  }

  lemma SendsLocal(cfg: Config, s: Cluster, to: Ref, msg: ActorMessage)
    ensures AnyNext(cfg, s, s.(mail := s.mail + {(to, msg)}))
  {
    hide Next, ProcessAny;
    assert SendLocal(s, s.(mail := s.mail + {(to, msg)}), to, msg);
  }

  lemma Responds(cfg: Config, s: Cluster, actor: Ref, request: ActorMessage, response: ActorMessage)
    requires (actor, request) in s.mail
    ensures AnyNext(cfg, s, s.(mail := s.mail + {(Ref(actor.side, request.sourceId),
                                                  LocalResponse(actor, request, response))}))
  {
    hide Next, ProcessAny, SendLocal, RespondRemoteAny;
    var m := (Ref(actor.side, request.sourceId), LocalResponse(actor, request, response));
    assert RespondLocalAny(s, s.(mail := s.mail + {m}), actor, request, response);
  }

  // A response passed to Call: it arrives under the caller's session number, and resumes the
  // remote call that the receiver has under the same number.
  lemma ResponseInCallMisleads(data: bytes)
    ensures exists s :: Reached(CFG, s) && Misled(CFG, s, Ref(A, 1))
  {
    hide OnMessage, Reached, AnyNext, FramesOwned, AwaitsFirst;
    var caller, x := Ref(A, 1), Ref(A, 2);
    var remote := LostCall(A);
    var msg := START.(data := data, isResponse := true);
    var request := msg.(sessionId := 1, sourceId := 2);

    var s0 := Fresh({caller, x}, {(caller, START), (x, START)});
    Starts(CFG, s0);
    FirstCall(1, START, remote);
    Processes(CFG, s0, caller, START, [remote], {}, []);
    var s1 := Processed(s0, caller, START, [remote], {}, []);
    GoesOn(CFG, s0, s1);
    FirstCall(2, START, Call(1, msg, 0));
    Processes(CFG, s1, x, START, [Call(1, msg, 0)], {(caller, request)}, []);
    var s2 := Processed(s1, x, START, [Call(1, msg, 0)], {(caller, request)}, []);
    GoesOn(CFG, s1, s2);
    IsOwned(s2.coros[caller], remote);
    Resumes(s2.coros[caller], 1, request, remote);
    Processes(CFG, s2, caller, request, [], {}, []);
    var s3 := Processed(s2, caller, request, [], {}, []);
    GoesOn(CFG, s2, s3);
    assert Misled(CFG, s3, caller);
  }

  lemma GatewayReads(cfg: Config, s: Cluster, side: Side, p: ClusterPacket)
    requires Encodable(p) && s.From(side) == Link([p], 0, [], 0) && Receiver(cfg.Names(Other(side)), p) > 0
    ensures AnyNext(cfg, s, DeliveredOne(cfg, s, side, p))
  {
    hide Process, ProcessAny, RespondRemote, RespondLocal, PlainLocal, PlainRemote, TimerFires, SendLocal;
    hide ClusterRpc.Receive, Encodable;
    DeliversOne(cfg, s, side, p);
    assert ClusterRpc.Receive(cfg, s, DeliveredOne(cfg, s, side, p), side, |WireAll([p])|);
  }

  // The packets of the runs below: to the actor with the name on the other node.
  lemma SmallPacket(side: Side, id: ActorId, msg: ActorMessage)
    requires |msg.data| <= 1000 && msg.data != MAGIC
    ensures var p := PacketFor(CFG, Ref(side, id), CFG.Id(Other(side)), NAME, msg);
            && Encodable(p) && Receiver(CFG.Names(Other(side)), p) == 1
            && Localize(p).data == msg.data && Localize(p).isResponse == msg.isResponse
            && Localize(p).sessionId == msg.sessionId && Localize(p).error == Ok
  {
  }

  // A response passed to ClusterCall does the same on the other node.
  lemma ResponseInClusterCallMisleads(data: bytes)
    requires |data| <= 1000 && data != MAGIC
    ensures exists s :: Reached(CFG, s) && Misled(CFG, s, Ref(B, 1))
  {
    hide OnMessage, Reached, AnyNext, FramesOwned, AwaitsFirst, Encodable, Localize, Receiver, WireAll, PacketFor;
    var caller, x := Ref(B, 1), Ref(A, 2);
    var remote := LostCall(B);
    var msg := START.(data := data, isResponse := true);
    var call := ClusterCall(NODE_B, NAME, msg, 0);
    var request := msg.(sessionId := 1, sourceId := 2);
    var p := PacketFor(CFG, x, NODE_B, NAME, request);

    var s0 := Fresh({caller, x}, {(caller, START), (x, START)});
    Starts(CFG, s0);
    FirstCall(1, START, remote);
    Processes(CFG, s0, caller, START, [remote], {}, []);
    var s1 := Processed(s0, caller, START, [remote], {}, []);
    GoesOn(CFG, s0, s1);
    FirstCall(2, START, call);
    SmallPacket(A, 2, request);
    FirstIsPacket(x, OnMessage(s1.coros[x], 2, START, [call]).out, NAME, request);
    Processes(CFG, s1, x, START, [call], {}, [p]);
    var s2 := Processed(s1, x, START, [call], {}, [p]);
    GoesOn(CFG, s1, s2);
    GatewayReads(CFG, s2, A, p);
    var s3 := DeliveredOne(CFG, s2, A, p);
    GoesOn(CFG, s2, s3);
    IsOwned(s3.coros[caller], remote);
    Resumes(s3.coros[caller], 1, Localize(p), remote);
    Processes(CFG, s3, caller, Localize(p), [], {}, []);
    var s4 := Processed(s3, caller, Localize(p), [], {}, []);
    GoesOn(CFG, s3, s4);
    assert Misled(CFG, s4, caller);
  }

  lemma FirstIsPacket(r: Ref, out: seq<Output>, name: bytes, msg: ActorMessage)
    requires out != [] && out[0] == SentRemote(CFG.Id(Other(r.side)), name, msg)
    ensures PacketOf(CFG, r, out, PacketFor(CFG, r, CFG.Id(Other(r.side)), name, msg))
  {
    assert out[0] in out;
  }

  // A remote message passed to Call: actor 3 takes the request for one of the other node, and
  // answers over the wire, under a session number that means another call there.
  lemma RemoteRequestInCallMisleads(data: bytes)
    requires |data| <= 1000 && data != MAGIC
    ensures exists s :: Reached(CFG, s) && Misled(CFG, s, Ref(B, 1))
  {
    hide OnMessage, Reached, AnyNext, FramesOwned, AwaitsFirst, Encodable, Localize, Receiver, WireAll, PacketFor;
    var caller, x, w := Ref(B, 1), Ref(A, 2), Ref(A, 3);
    var remote := LostCall(B);
    var msg := START.(sourceNodeId := NODE_B, sourceActorName := NAME);
    var request := msg.(sessionId := 1, sourceId := 2);

    var s0 := Fresh({caller, x, w}, {(caller, START), (x, msg)});
    Starts(CFG, s0);
    FirstCall(1, START, remote);
    Processes(CFG, s0, caller, START, [remote], {}, []);
    var s1 := Processed(s0, caller, START, [remote], {}, []);
    GoesOn(CFG, s0, s1);
    FirstCall(2, msg, Call(3, msg, 0));
    Processes(CFG, s1, x, msg, [Call(3, msg, 0)], {(w, request)}, []);
    var s2 := Processed(s1, x, msg, [Call(3, msg, 0)], {(w, request)}, []);
    GoesOn(CFG, s1, s2);
    Processes(CFG, s2, w, request, [], {}, []);
    var s3 := Processed(s2, w, request, [], {}, []);
    GoesOn(CFG, s2, s3);
    RespondingMisleads(s3, w, request, data);
  }

  lemma RespondsRemote(cfg: Config, s: Cluster, r: Response)
    requires (r.actor, r.request) in s.mail && r.request.IsRemote() && s.responses == {}
    requires r.actor.side == A && r.request.sourceNodeId == cfg.idB && s.fromA == Link([], 0, [], 0)
    requires Encodable(AnswerPacket(cfg, r))
    ensures AnyNext(cfg, s, s.(responses := {r}, fromA := Link([AnswerPacket(cfg, r)], 0, [], 0)))
  {
    hide Next, ProcessAny, SendLocal, RespondLocalAny, Encodable, AnswerPacket;
    assert [] + [AnswerPacket(cfg, r)] == [AnswerPacket(cfg, r)];
    AnswerNamesNode(cfg, r);
    assert RespondRemoteAny(cfg, s, s.(responses := {r}, fromA := Link([AnswerPacket(cfg, r)], 0, [], 0)), r);
  }

  // The end of a run in which actor x of node A responds to a remote message of session 1.
  lemma RespondingMisleads(s: Cluster, x: Ref, request: ActorMessage, data: bytes)
    requires |data| <= 1000 && data != MAGIC && x.side == A && x.id > 0
    requires var caller := Ref(B, 1);
             && Reached(CFG, s) && caller in s.coros && AwaitsFirst(s.coros[caller], LostCall(B))
             && s.responses == {} && s.fromA == Link([], 0, [], 0) && s.fromB.sent == []
    requires (x, request) in s.mail && request.sessionId == 1
    requires request.sourceNodeId == NODE_B && request.sourceActorName == NAME
    ensures exists s' :: Reached(CFG, s') && Misled(CFG, s', Ref(B, 1))
  {
    hide OnMessage, Reached, AnyNext, FramesOwned, AwaitsFirst, Encodable, Localize, Receiver, WireAll, PacketFor;
    var caller := Ref(B, 1);
    var r := Response(x, request, data);
    var p := AnswerPacket(CFG, r);
    SmallPacket(A, x.id, ResponseMessage(r));
    RespondsRemote(CFG, s, r);
    var s1 := s.(responses := {r}, fromA := Link([p], 0, [], 0));
    GoesOn(CFG, s, s1);
    GatewayReads(CFG, s1, A, p);
    var s2 := DeliveredOne(CFG, s1, A, p);
    GoesOn(CFG, s1, s2);
    IsOwned(s2.coros[caller], LostCall(B));
    Resumes(s2.coros[caller], 1, Localize(p), LostCall(B));
    Processes(CFG, s2, caller, Localize(p), [], {}, []);
    var s3 := Processed(s2, caller, Localize(p), [], {}, []);
    GoesOn(CFG, s2, s3);
    assert Misled(CFG, s3, caller);
  }

  // The remote actor `caller` waits in a remote call under session 1. On the other node actor 2
  // calls actor 3, which answers with a message that still carries a remote address.
  lemma GetsRemoteResult() returns (s: Cluster)
    ensures var caller := Ref(B, 1);
            && Reached(CFG, s) && caller in s.coros && AwaitsFirst(s.coros[caller], LostCall(B))
            && s.responses == {} && s.fromA == Link([], 0, [], 0) && s.fromB.sent == []
    ensures (Ref(A, 2), REMOTE_RESULT) in s.mail
  {
    hide OnMessage, Reached, AnyNext, FramesOwned, AwaitsFirst;
    var caller, x, w := Ref(B, 1), Ref(A, 2), Ref(A, 3);
    var remote := LostCall(B);
    var local := Call(3, START, 0);
    var request := START.(sessionId := 1, sourceId := 2);
    var response := START.(sourceNodeId := NODE_B, sourceActorName := NAME);
    var s0 := Fresh({caller, x, w}, {(caller, START), (x, START)});
    Starts(CFG, s0);
    FirstCall(1, START, remote);
    Processes(CFG, s0, caller, START, [remote], {}, []);
    var s1 := Processed(s0, caller, START, [remote], {}, []);
    GoesOn(CFG, s0, s1);
    FirstCall(2, START, local);
    Processes(CFG, s1, x, START, [local], {(w, request)}, []);
    var s2 := Processed(s1, x, START, [local], {(w, request)}, []);
    GoesOn(CFG, s1, s2);
    Processes(CFG, s2, w, request, [], {}, []);
    var s3 := Processed(s2, w, request, [], {}, []);
    GoesOn(CFG, s2, s3);
    Responds(CFG, s3, w, request, response);
    var s4 := s3.(mail := s3.mail + {(x, REMOTE_RESULT)});
    GoesOn(CFG, s3, s4);
    IsOwned(s4.coros[x], local);
    Processes(CFG, s4, x, REMOTE_RESULT, [], {}, []);
    s := Processed(s4, x, REMOTE_RESULT, [], {}, []);
    GoesOn(CFG, s4, s);
  }

  const REMOTE_RESULT: ActorMessage :=
    ActorMessage(UserMessage, sourceId := 3, sessionId := 1, isResponse := true,
                 sourceNodeId := NODE_B, sourceActorName := NAME)

  // The result of a call passed to RespondRemote: the answer goes out under the session of that
  // call, which is another one at its receiver.
  lemma ResultInRespondRemoteMisleads(data: bytes)
    requires |data| <= 1000 && data != MAGIC
    ensures exists s :: Reached(CFG, s) && Misled(CFG, s, Ref(B, 1))
  {
    hide Reached, Misled, AwaitsFirst;
    var s := GetsRemoteResult();
    RespondingMisleads(s, Ref(A, 2), REMOTE_RESULT, data);
  }

  // The result of a call passed to RespondToCall does the same to a remote call of the local
  // actor it came from.
  lemma ResultInRespondToCallMisleads(data: bytes)
    ensures exists s :: Reached(CFG, s) && Misled(CFG, s, Ref(A, 1))
  {
    hide OnMessage, Reached, AnyNext, FramesOwned, AwaitsFirst;
    var caller, x := Ref(A, 1), Ref(A, 2);
    var remote, local := LostCall(A), Call(1, START, 0);
    var request := START.(sessionId := 1, sourceId := 2);
    var result := LocalResponse(caller, request, START);
    var answer := LocalResponse(x, result, START.(data := data));

    var s0 := Fresh({caller, x}, {(caller, START), (x, START)});
    Starts(CFG, s0);
    FirstCall(1, START, remote);
    Processes(CFG, s0, caller, START, [remote], {}, []);
    var s1 := Processed(s0, caller, START, [remote], {}, []);
    GoesOn(CFG, s0, s1);
    FirstCall(2, START, local);
    Processes(CFG, s1, x, START, [local], {(caller, request)}, []);
    var s2 := Processed(s1, x, START, [local], {(caller, request)}, []);
    GoesOn(CFG, s1, s2);
    IsOwned(s2.coros[caller], remote);
    StillAwaits(s2.coros[caller], 1, request, remote);
    Processes(CFG, s2, caller, request, [], {}, []);
    var s3 := Processed(s2, caller, request, [], {}, []);
    GoesOn(CFG, s2, s3);
    Responds(CFG, s3, caller, request, START);
    var s4 := s3.(mail := s3.mail + {(x, result)});
    GoesOn(CFG, s3, s4);
    ResultComesBack(s4, result, answer);
  }

  lemma ResultComesBack(s: Cluster, result: ActorMessage, answer: ActorMessage)
    requires var caller, x := Ref(A, 1), Ref(A, 2);
             && Reached(CFG, s) && caller in s.coros && x in s.coros && s.responses == {} && s.fromA.sent == []
             && AwaitsFirst(s.coros[caller], LostCall(A)) && AwaitsFirst(s.coros[x], Call(1, START, 0))
    requires (Ref(A, 2), result) in s.mail && IsResponseTo(result, 1) && result.sourceId == 1
    requires exists response: ActorMessage ::
               response.error == Ok && answer == LocalResponse(Ref(A, 2), result, response)
    ensures exists s' :: Reached(CFG, s') && Misled(CFG, s', Ref(A, 1))
  {
    hide OnMessage, Reached, AnyNext, FramesOwned, AwaitsFirst;
    var caller, x := Ref(A, 1), Ref(A, 2);
    var response: ActorMessage :| response.error == Ok && answer == LocalResponse(x, result, response);
    IsOwned(s.coros[x], Call(1, START, 0));
    Processes(CFG, s, x, result, [], {}, []);
    var s1 := Processed(s, x, result, [], {}, []);
    GoesOn(CFG, s, s1);
    Responds(CFG, s1, x, result, response);
    var s2 := s1.(mail := s1.mail + {(caller, answer)});
    GoesOn(CFG, s1, s2);
    IsOwned(s2.coros[caller], LostCall(A));
    Resumes(s2.coros[caller], 1, answer, LostCall(A));
    Processes(CFG, s2, caller, answer, [], {}, []);
    var s3 := Processed(s2, caller, answer, [], {}, []);
    GoesOn(CFG, s2, s3);
    assert Misled(CFG, s3, caller);
  }
}
