/**
 The actor scheduler: ActorSystem::Send, ActorSystem::workerLoop, Actor::PushMessage and
 Actor::ProcessOne, run by any number of threads over shared mailboxes.

 One step of the system is one lock-protected or atomic operation of one thread, so that
 every interleaving of the program is a run of the model. IsMailboxEmpty locks the two
 queues one after the other and is two steps.
 */
module Scheduler {

  type ActorId = nat

  datatype Message = Message(body: nat, priority: bool)

  // One of the two mailboxes of an actor, with its history: every message ever pushed, and
  // every message whose handler has returned or thrown.
  datatype Lane = Lane(queue: seq<Message>, pushed: seq<Message>, done: seq<Message>)

  datatype Actor = Actor(scheduled: bool, high: Lane, low: Lane) {
    function LaneOf(isPriority: bool): Lane {
      if isPriority then high else low
    }

    function WithLane(isPriority: bool, lane: Lane): Actor {
      if isPriority then this.(high := lane) else this.(low := lane)
    }
  }

  // Where a worker thread stands in workerLoop. Off is a thread that is not a worker. `taken`
  // holds the messages popped since the actor was looked up.
  datatype WorkerPc =
    | Off
    | Top
    | Popped(a: ActorId)
    | TakingPriority(a: ActorId, taken: seq<Message>)
    | TakingNormal(a: ActorId, taken: seq<Message>)
    | Handling(a: ActorId, taken: seq<Message>, m: Message, isPriority: bool)
    | CheckingPriority(a: ActorId)
    | CheckingNormal(a: ActorId)
    | Requeueing(a: ActorId)
    | Clearing(a: ActorId)
    | RecheckingPriority(a: ActorId)
    | RecheckingNormal(a: ActorId)
    | RetryingCas(a: ActorId)
    | RetryingPush(a: ActorId)

  // Where a thread stands in Send. A worker may be inside Send while it runs a handler.
  datatype SendPc =
    | NotSending
    | Found(a: ActorId, m: Message)
    | AtCas(a: ActorId)
    | AtPush(a: ActorId)

  datatype Thread = Thread(worker: WorkerPc, send: SendPc)

  // `actors` keeps the object of an unregistered actor, as the shared_ptr copies do.
  datatype State = State(
    nextId: ActorId,
    registered: set<ActorId>,
    actors: map<ActorId, Actor>,
    ready: seq<ActorId>,
    threads: seq<Thread>)

  // The batch size of one worker turn.
  const TURN_LIMIT: nat := 64

  // --------------------------------------------------------------------------------------
  // Steps
  // --------------------------------------------------------------------------------------

  datatype Event =
    | Register
    | Unregister(a: ActorId)
    | SendLookup(to: ActorId, m: Message)
    | SendEnqueue
    | SendCas
    | SendReady
    | PopReady
    | Lookup
    | TakePriority
    | TakeNormal
    | HandlerReturns
    | HandlerThrows
    | CheckPriority
    | CheckNormal
    | Requeue
    | ClearFlag
    | RecheckPriority
    | RecheckNormal
    | RetryCas
    | RetryPush

  function EmptyActor(): Actor {
    Actor(false, Lane([], [], []), Lane([], [], []))
  }

  function SetWorker(s: State, t: nat, pc: WorkerPc): State
    requires t < |s.threads|
  {
    s.(threads := s.threads[t := s.threads[t].(worker := pc)])
  }

  function SetSend(s: State, t: nat, pc: SendPc): State
    requires t < |s.threads|
  {
    s.(threads := s.threads[t := s.threads[t].(send := pc)])
  }

  function SetActor(s: State, a: ActorId, actor: Actor): State {
    s.(actors := s.actors[a := actor])
  }

  function Push(actor: Actor, m: Message): Actor {
    var lane := actor.LaneOf(m.priority);
    actor.WithLane(m.priority, lane.(queue := lane.queue + [m], pushed := lane.pushed + [m]))
  }

  function Take(actor: Actor, isPriority: bool): Actor
    requires actor.LaneOf(isPriority).queue != []
  {
    var lane := actor.LaneOf(isPriority);
    actor.WithLane(isPriority, lane.(queue := lane.queue[1..]))
  }

  function Finish(actor: Actor, isPriority: bool, m: Message): Actor {
    var lane := actor.LaneOf(isPriority);
    actor.WithLane(isPriority, lane.(done := lane.done + [m]))
  }

  // One step of Send by thread t.
  ghost predicate SendStep(s: State, t: nat, e: Event, s': State)
    requires t < |s.threads|
  {
    var th := s.threads[t];
    match e
    case SendLookup(to, m) =>
      && th.send.NotSending?
      && (th.worker.Off? || th.worker.Handling?)
      && s' == if to in s.registered then SetSend(s, t, Found(to, m)) else s
    case SendEnqueue =>
      && th.send.Found? && th.send.a in s.actors
      && s' == SetSend(SetActor(s, th.send.a, Push(s.actors[th.send.a], th.send.m)), t, AtCas(th.send.a))
    case SendCas =>
      && th.send.AtCas? && th.send.a in s.actors
      && var actor := s.actors[th.send.a];
         s' == if actor.scheduled then SetSend(s, t, NotSending)
               else SetSend(SetActor(s, th.send.a, actor.(scheduled := true)), t, AtPush(th.send.a))
    case SendReady =>
      && th.send.AtPush?
      && s' == SetSend(s.(ready := s.ready + [th.send.a]), t, NotSending)
    case _ => false
  }

  // One step of workerLoop by thread t, up to the end of the message batch.
  ghost predicate BatchStep(s: State, t: nat, e: Event, s': State)
    requires t < |s.threads|
  {
    var pc := s.threads[t].worker;
    && s.threads[t].send.NotSending?
    && match e
       case PopReady =>
         && pc.Top? && s.ready != []
         && s' == SetWorker(s.(ready := s.ready[1..]), t, Popped(s.ready[0]))
       case Lookup =>
         && pc.Popped?
         && s' == SetWorker(s, t, if pc.a in s.registered then TakingPriority(pc.a, []) else Top)
       case TakePriority =>
         && pc.TakingPriority? && pc.a in s.actors
         && var actor := s.actors[pc.a];
            s' == if actor.high.queue == [] then SetWorker(s, t, TakingNormal(pc.a, pc.taken))
                  else
                    var m := actor.high.queue[0];
                    SetWorker(SetActor(s, pc.a, Take(actor, true)), t,
                              Handling(pc.a, pc.taken + [m], m, true))
       case TakeNormal =>
         && pc.TakingNormal? && pc.a in s.actors
         && var actor := s.actors[pc.a];
            s' == if actor.low.queue == [] then SetWorker(s, t, CheckingPriority(pc.a))
                  else
                    var m := actor.low.queue[0];
                    SetWorker(SetActor(s, pc.a, Take(actor, false)), t,
                              Handling(pc.a, pc.taken + [m], m, false))
       case HandlerReturns =>
         && pc.Handling? && pc.a in s.actors
         && s' == SetWorker(SetActor(s, pc.a, Finish(s.actors[pc.a], pc.isPriority, pc.m)), t,
                            if |pc.taken| < TURN_LIMIT then TakingPriority(pc.a, pc.taken)
                            else CheckingPriority(pc.a))
       case HandlerThrows =>
         && pc.Handling? && pc.a in s.actors
         && s' == SetWorker(SetActor(s, pc.a, Finish(s.actors[pc.a], pc.isPriority, pc.m)), t,
                            CheckingPriority(pc.a))
       case _ => false
  }

  // One step of workerLoop by thread t, from the first emptiness check on.
  ghost predicate ReleaseStep(s: State, t: nat, e: Event, s': State)
    requires t < |s.threads|
  {
    var pc := s.threads[t].worker;
    && s.threads[t].send.NotSending?
    && match e
       case CheckPriority =>
         && pc.CheckingPriority? && pc.a in s.actors
         && s' == SetWorker(s, t, if s.actors[pc.a].high.queue == [] then CheckingNormal(pc.a)
                                  else Requeueing(pc.a))
       case CheckNormal =>
         && pc.CheckingNormal? && pc.a in s.actors
         && s' == SetWorker(s, t, if s.actors[pc.a].low.queue == [] then Clearing(pc.a)
                                  else Requeueing(pc.a))
       case Requeue =>
         && pc.Requeueing?
         && s' == SetWorker(s.(ready := s.ready + [pc.a]), t, Top)
       case ClearFlag =>
         && pc.Clearing? && pc.a in s.actors
         && s' == SetWorker(SetActor(s, pc.a, s.actors[pc.a].(scheduled := false)), t,
                            RecheckingPriority(pc.a))
       case RecheckPriority =>
         && pc.RecheckingPriority? && pc.a in s.actors
         && s' == SetWorker(s, t, if s.actors[pc.a].high.queue == [] then RecheckingNormal(pc.a)
                                  else RetryingCas(pc.a))
       case RecheckNormal =>
         && pc.RecheckingNormal? && pc.a in s.actors
         && s' == SetWorker(s, t, if s.actors[pc.a].low.queue == [] then Top else RetryingCas(pc.a))
       case RetryCas =>
         && pc.RetryingCas? && pc.a in s.actors
         && var actor := s.actors[pc.a];
            s' == if actor.scheduled then SetWorker(s, t, Top)
                  else SetWorker(SetActor(s, pc.a, actor.(scheduled := true)), t, RetryingPush(pc.a))
       case RetryPush =>
         && pc.RetryingPush?
         && s' == SetWorker(s.(ready := s.ready + [pc.a]), t, Top)
       case _ => false
  }

  ghost predicate RegistryStep(s: State, e: Event, s': State) {
    match e
    case Register =>
      s' == s.(nextId := s.nextId + 1,
               registered := s.registered + {s.nextId},
               actors := s.actors[s.nextId := EmptyActor()])
    case Unregister(a) => s' == s.(registered := s.registered - {a})
    case _ => false
  }

  ghost predicate Step(s: State, t: nat, e: Event, s': State) {
    || RegistryStep(s, e, s')
    || (t < |s.threads| && (SendStep(s, t, e, s') || BatchStep(s, t, e, s') || ReleaseStep(s, t, e, s')))
  }

  ghost predicate Next(s: State, s': State) {
    exists t: nat, e: Event :: Step(s, t, e, s')
  }

  ghost predicate Init(s: State) {
    && s.nextId == 1
    && s.registered == {} && s.actors == map[] && s.ready == []
    && forall t :: 0 <= t < |s.threads| ==>
         s.threads[t].send.NotSending? && (s.threads[t].worker.Top? || s.threads[t].worker.Off?)
  }

  // --------------------------------------------------------------------------------------
  // The scheduling token
  // --------------------------------------------------------------------------------------

  // The worker may run or is about to requeue the actor: it holds the actor's token.
  predicate WorkerHolds(pc: WorkerPc, a: ActorId) {
    match pc
    case Off => false
    case Top => false
    case RecheckingPriority(_) => false
    case RecheckingNormal(_) => false
    case RetryingCas(_) => false
    case Popped(b) => a == b
    case TakingPriority(b, _) => a == b
    case TakingNormal(b, _) => a == b
    case Handling(b, _, _, _) => a == b
    case CheckingPriority(b) => a == b
    case CheckingNormal(b) => a == b
    case Requeueing(b) => a == b
    case Clearing(b) => a == b
    case RetryingPush(b) => a == b
  }

  function TokensOf(th: Thread, a: ActorId): nat {
    (if WorkerHolds(th.worker, a) then 1 else 0) + (if th.send == AtPush(a) then 1 else 0)
  }

  function HeldTokens(threads: seq<Thread>, a: ActorId): nat {
    if threads == [] then 0 else TokensOf(threads[0], a) + HeldTokens(threads[1..], a)
  }

  // Copies in the ready queue, workers holding the id, and threads between a successful
  // compare-exchange and their push.
  function Tokens(s: State, a: ActorId): nat {
    multiset(s.ready)[a] + HeldTokens(s.threads, a)
  }

  function Bit(b: bool): nat {
    if b then 1 else 0
  }

  ghost predicate TokenInv(s: State) {
    forall a :: a in s.actors ==>
      && Tokens(s, a) <= Bit(s.actors[a].scheduled)
      && (a in s.registered ==> Tokens(s, a) == Bit(s.actors[a].scheduled))
  }

  lemma {:induction false} HeldUpdate(threads: seq<Thread>, t: nat, th: Thread, a: ActorId)
    requires t < |threads|
    ensures HeldTokens(threads[t := th], a) + TokensOf(threads[t], a) == HeldTokens(threads, a) + TokensOf(th, a)
  {
    if t == 0 {
      assert threads[t := th][1..] == threads[1..];
    } else {
      assert threads[t := th][1..] == threads[1..][t - 1 := th];
      HeldUpdate(threads[1..], t - 1, th, a);
    }
  }

  lemma {:induction false} HeldAtLeast(threads: seq<Thread>, t: nat, a: ActorId)
    requires t < |threads|
    ensures HeldTokens(threads, a) >= TokensOf(threads[t], a)
  {
    if t > 0 {
      HeldAtLeast(threads[1..], t - 1, a);
    }
  }

  lemma {:induction false} HeldAtLeastTwo(threads: seq<Thread>, t: nat, u: nat, a: ActorId)
    requires t < u < |threads|
    ensures HeldTokens(threads, a) >= TokensOf(threads[t], a) + TokensOf(threads[u], a)
  {
    if t == 0 {
      HeldAtLeast(threads[1..], u - 1, a);
    } else {
      HeldAtLeastTwo(threads[1..], t - 1, u - 1, a);
    }
  }

  lemma {:induction false} HeldNone(threads: seq<Thread>, a: ActorId)
    requires forall t :: 0 <= t < |threads| ==> TokensOf(threads[t], a) == 0
    ensures HeldTokens(threads, a) == 0
  {
    if threads != [] {
      HeldNone(threads[1..], a);
    }
  }

  // --------------------------------------------------------------------------------------
  // The inductive invariant
  // --------------------------------------------------------------------------------------

  ghost predicate WorkerIn(pc: WorkerPc, actors: set<ActorId>) {
    pc.Off? || pc.Top? || pc.a in actors
  }

  ghost predicate SendIn(pc: SendPc, actors: set<ActorId>) {
    pc.NotSending? || pc.a in actors
  }

  ghost predicate ThreadOk(th: Thread, actors: set<ActorId>) {
    && WorkerIn(th.worker, actors)
    && SendIn(th.send, actors)
    && (th.send.NotSending? || th.worker.Off? || th.worker.Handling?)
    && (th.worker.TakingPriority? || th.worker.TakingNormal? ==> |th.worker.taken| < TURN_LIMIT)
    && (th.worker.Handling? ==> |th.worker.taken| <= TURN_LIMIT)
  }

  ghost predicate WellFormed(s: State) {
    && s.registered <= s.actors.Keys
    && (forall a :: a in s.actors ==> 1 <= a < s.nextId)
    && 1 <= s.nextId
    && (forall a :: a in s.ready ==> a in s.actors)
    && (forall t :: 0 <= t < |s.threads| ==> ThreadOk(s.threads[t], s.actors.Keys))
  }

  // Thread th will still find messages of that class: a sender before its compare-exchange,
  // or a worker that cleared the flag and has not yet re-checked that queue.
  ghost predicate WillNotice(th: Thread, a: ActorId, isPriority: bool) {
    || th.send == AtCas(a)
    || th.worker == RecheckingPriority(a)
    || th.worker == RetryingCas(a)
    || (!isPriority && th.worker == RecheckingNormal(a))
  }

  ghost predicate Noticed(s: State, a: ActorId, isPriority: bool) {
    exists t :: 0 <= t < |s.threads| && WillNotice(s.threads[t], a, isPriority)
  }

  ghost predicate WakeInv(s: State) {
    forall a, p :: a in s.actors && s.actors[a].LaneOf(p).queue != [] && !s.actors[a].scheduled ==>
      Noticed(s, a, p)
  }

  // The messages of one class that threads are handling for actor a.
  function Share(th: Thread, a: ActorId, isPriority: bool): seq<Message> {
    if th.worker.Handling? && th.worker.a == a && th.worker.isPriority == isPriority then [th.worker.m] else []
  }

  function InFlight(threads: seq<Thread>, a: ActorId, isPriority: bool): seq<Message> {
    if threads == [] then [] else Share(threads[0], a, isPriority) + InFlight(threads[1..], a, isPriority)
  }

  ghost predicate LaneConserved(s: State, a: ActorId, p: bool)
    requires a in s.actors
  {
    var lane := s.actors[a].LaneOf(p);
    lane.pushed == lane.done + InFlight(s.threads, a, p) + lane.queue
  }

  ghost predicate LaneInv(s: State) {
    forall a, p :: a in s.actors ==> LaneConserved(s, a, p)
  }

  ghost predicate Inv(s: State) {
    WellFormed(s) && TokenInv(s) && WakeInv(s) && LaneInv(s)
  }

  // --------------------------------------------------------------------------------------
  // Preservation
  // --------------------------------------------------------------------------------------

  lemma {:induction false} InFlightNone(threads: seq<Thread>, a: ActorId, p: bool)
    requires HeldTokens(threads, a) == 0
    ensures InFlight(threads, a, p) == []
  {
    if threads != [] {
      InFlightNone(threads[1..], a, p);
    }
  }

  // A thread that holds the only token is the only one handling messages of the actor.
  lemma {:induction false} InFlightSolo(threads: seq<Thread>, t: nat, th: Thread, a: ActorId, p: bool)
    requires t < |threads|
    requires HeldTokens(threads, a) <= TokensOf(threads[t], a)
    ensures InFlight(threads[t := th], a, p) == Share(th, a, p)
  {
    if t == 0 {
      assert threads[t := th][1..] == threads[1..];
      InFlightNone(threads[1..], a, p);
    } else {
      assert threads[t := th][1..] == threads[1..][t - 1 := th];
      HeldAtLeast(threads[1..], t - 1, a);
      InFlightSolo(threads[1..], t - 1, th, a, p);
      InFlightNone([threads[0]], a, p);
    }
  }

  lemma {:induction false} InFlightSame(threads: seq<Thread>, t: nat, th: Thread, a: ActorId, p: bool)
    requires t < |threads|
    requires Share(th, a, p) == Share(threads[t], a, p)
    ensures InFlight(threads[t := th], a, p) == InFlight(threads, a, p)
  {
    if t == 0 {
      assert threads[t := th][1..] == threads[1..];
    } else {
      assert threads[t := th][1..] == threads[1..][t - 1 := th];
      InFlightSame(threads[1..], t - 1, th, a, p);
    }
  }

  // What one thread may change: its own program counters, the ready queue and the actors.
  ghost predicate ThreadMoves(s: State, t: nat, th: Thread, s': State) {
    && t < |s.threads|
    && s'.threads == s.threads[t := th]
    && s'.actors.Keys == s.actors.Keys
    && s'.registered == s.registered
    && s'.nextId == s.nextId
  }

  // The token balance of one step: what the ready queue and the thread lose, the flag loses.
  // For an unregistered actor the token may disappear.
  ghost predicate Balanced(s: State, t: nat, th: Thread, s': State, a: ActorId)
    requires ThreadMoves(s, t, th, s') && a in s.actors
  {
    var before := multiset(s.ready)[a] + TokensOf(s.threads[t], a) + Bit(s'.actors[a].scheduled);
    var after := multiset(s'.ready)[a] + TokensOf(th, a) + Bit(s.actors[a].scheduled);
    after <= before && (a in s.registered ==> after == before)
  }

  lemma TokenChange(s: State, t: nat, th: Thread, s': State)
    requires TokenInv(s) && ThreadMoves(s, t, th, s')
    requires forall a :: a in s.actors ==> Balanced(s, t, th, s', a)
    ensures TokenInv(s')
  {
    forall a | a in s.actors
      ensures Tokens(s', a) <= Bit(s'.actors[a].scheduled)
      ensures a in s.registered ==> Tokens(s', a) == Bit(s'.actors[a].scheduled)
    {
      assert Balanced(s, t, th, s', a);
      HeldUpdate(s.threads, t, th, a);
    }
  }

  // If messages of that class now wait without a token, then either the moving thread will
  // notice them, or another thread already had to.
  ghost predicate WakeKept(s: State, t: nat, th: Thread, s': State, a: ActorId, p: bool)
    requires ThreadMoves(s, t, th, s') && a in s.actors
  {
    s'.actors[a].LaneOf(p).queue != [] && !s'.actors[a].scheduled ==>
      || WillNotice(th, a, p)
      || (s.actors[a].LaneOf(p).queue != [] && !s.actors[a].scheduled && !WillNotice(s.threads[t], a, p))
  }

  lemma WakeChange(s: State, t: nat, th: Thread, s': State)
    requires WakeInv(s) && ThreadMoves(s, t, th, s')
    requires forall a, p :: a in s.actors ==> WakeKept(s, t, th, s', a, p)
    ensures WakeInv(s')
  {
    forall a, p | a in s'.actors && s'.actors[a].LaneOf(p).queue != [] && !s'.actors[a].scheduled
      ensures Noticed(s', a, p)
    {
      assert WakeKept(s, t, th, s', a, p);
      if WillNotice(th, a, p) {
        assert WillNotice(s'.threads[t], a, p);
      } else {
        assert Noticed(s, a, p);
        var u :| 0 <= u < |s.threads| && WillNotice(s.threads[u], a, p);
        assert WillNotice(s'.threads[u], a, p);
      }
    }
  }

  lemma LaneUntouched(s: State, t: nat, th: Thread, s': State)
    requires LaneInv(s) && ThreadMoves(s, t, th, s')
    requires forall a, p :: a in s.actors ==> s'.actors[a].LaneOf(p) == s.actors[a].LaneOf(p)
    requires forall a, p :: Share(th, a, p) == Share(s.threads[t], a, p)
    ensures LaneInv(s')
  {
    forall a, p | a in s'.actors
      ensures LaneConserved(s', a, p)
    {
      assert LaneConserved(s, a, p);
      InFlightSame(s.threads, t, th, a, p);
    }
  }

  // Everything one step of a thread has to establish, actor by actor.
  ghost predicate Sound(s: State, t: nat, th: Thread, s': State) {
    && ThreadMoves(s, t, th, s')
    && WellFormed(s')
    && (forall a :: a in s.actors ==> Balanced(s, t, th, s', a))
    && (forall a, p :: a in s.actors ==> WakeKept(s, t, th, s', a, p))
  }

  lemma SoundPreserves(s: State, t: nat, th: Thread, s': State)
    requires Inv(s) && Sound(s, t, th, s') && LaneInv(s')
    ensures Inv(s')
  {
    TokenChange(s, t, th, s');
    WakeChange(s, t, th, s');
  }

  lemma WellFormedMove(s: State, t: nat, th: Thread, s': State)
    requires WellFormed(s) && ThreadMoves(s, t, th, s')
    requires ThreadOk(th, s.actors.Keys)
    requires forall a :: a in s'.ready ==> a in s.actors
    ensures WellFormed(s')
  {
  }

  lemma SendMoves(s: State, t: nat, e: Event, s': State)
    requires WellFormed(s) && t < |s.threads| && SendStep(s, t, e, s')
    requires e.SendLookup? ==> e.to in s.registered
    ensures ThreadMoves(s, t, s'.threads[t], s') && WellFormed(s')
  {
    assert ThreadOk(s.threads[t], s.actors.Keys);
    WellFormedMove(s, t, s'.threads[t], s');
  }

  lemma SendBalanced(s: State, t: nat, e: Event, s': State, a: ActorId)
    requires WellFormed(s) && TokenInv(s) && t < |s.threads| && SendStep(s, t, e, s') && a in s.actors
    requires e.SendLookup? ==> e.to in s.registered
    requires ThreadMoves(s, t, s'.threads[t], s')
    ensures Balanced(s, t, s'.threads[t], s', a)
  {
    assert ThreadOk(s.threads[t], s.actors.Keys);
  }

  lemma SendWakes(s: State, t: nat, e: Event, s': State, a: ActorId, p: bool)
    requires WellFormed(s) && t < |s.threads| && SendStep(s, t, e, s') && a in s.actors
    requires e.SendLookup? ==> e.to in s.registered
    requires ThreadMoves(s, t, s'.threads[t], s')
    ensures WakeKept(s, t, s'.threads[t], s', a, p)
  {
    assert ThreadOk(s.threads[t], s.actors.Keys);
  }

  lemma SendSound(s: State, t: nat, e: Event, s': State)
    requires Inv(s) && t < |s.threads| && SendStep(s, t, e, s')
    requires e.SendLookup? ==> e.to in s.registered
    ensures Sound(s, t, s'.threads[t], s')
  {
    SendMoves(s, t, e, s');
    forall a | a in s.actors
      ensures Balanced(s, t, s'.threads[t], s', a)
    {
      SendBalanced(s, t, e, s', a);
    }
    forall a, p | a in s.actors
      ensures WakeKept(s, t, s'.threads[t], s', a, p)
    {
      SendWakes(s, t, e, s', a, p);
    }
  }

  lemma SendPreserves(s: State, t: nat, e: Event, s': State)
    requires Inv(s) && t < |s.threads| && SendStep(s, t, e, s')
    ensures Inv(s')
  {
    if e.SendLookup? && e.to !in s.registered {
      return;
    }
    SendSound(s, t, e, s');
    if e.SendEnqueue? {
      EnqueueKeepsLanes(s, t, s');
    } else {
      LaneUntouched(s, t, s'.threads[t], s');
    }
    SoundPreserves(s, t, s'.threads[t], s');
  }

  lemma EnqueueKeepsLanes(s: State, t: nat, s': State)
    requires LaneInv(s) && t < |s.threads| && SendStep(s, t, SendEnqueue, s')
    ensures LaneInv(s')
  {
    forall a, p | a in s'.actors
      ensures LaneConserved(s', a, p)
    {
      assert LaneConserved(s, a, p);
      InFlightSame(s.threads, t, s'.threads[t], a, p);
    }
  }

  // Popping a message into a handler, or finishing it: the thread holds the actor's token, so
  // no other thread handles a message of that actor.
  lemma SoloKeepsLanes(s: State, t: nat, th: Thread, s': State, mine: ActorId)
    requires TokenInv(s) && LaneInv(s) && ThreadMoves(s, t, th, s')
    requires mine in s.actors && WorkerHolds(s.threads[t].worker, mine)
    requires forall a :: a in s.actors && a != mine ==> s'.actors[a] == s.actors[a]
    requires forall a, p :: a != mine ==> Share(th, a, p) == Share(s.threads[t], a, p)
    requires forall p ::
               var before := s.actors[mine].LaneOf(p);
               var after := s'.actors[mine].LaneOf(p);
               before.pushed == before.done + Share(s.threads[t], mine, p) + before.queue ==>
                 after.pushed == after.done + Share(th, mine, p) + after.queue
    ensures LaneInv(s')
  {
    forall a, p | a in s'.actors
      ensures LaneConserved(s', a, p)
    {
      assert LaneConserved(s, a, p);
      if a == mine {
        HeldAtLeast(s.threads, t, a);
        InFlightSolo(s.threads, t, s.threads[t], a, p);
        assert s.threads[t := s.threads[t]] == s.threads;
        InFlightSolo(s.threads, t, th, a, p);
      } else {
        InFlightSame(s.threads, t, th, a, p);
      }
    }
  }

  lemma BatchMoves(s: State, t: nat, e: Event, s': State)
    requires WellFormed(s) && t < |s.threads| && BatchStep(s, t, e, s')
    ensures ThreadMoves(s, t, s'.threads[t], s') && WellFormed(s')
  {
    assert ThreadOk(s.threads[t], s.actors.Keys);
    WellFormedMove(s, t, s'.threads[t], s');
  }

  // Within a batch the worker keeps the token it holds.
  lemma BatchKeepsToken(s: State, t: nat, e: Event, s': State, a: ActorId)
    requires t < |s.threads| && BatchStep(s, t, e, s') && !e.PopReady? && !e.Lookup? && a in s.actors
    ensures s'.ready == s.ready && a in s'.actors && s'.actors[a].scheduled == s.actors[a].scheduled
    ensures TokensOf(s'.threads[t], a) == TokensOf(s.threads[t], a)
  {
  }

  lemma PopBalanced(s: State, t: nat, e: Event, s': State, a: ActorId)
    requires t < |s.threads| && BatchStep(s, t, e, s') && (e.PopReady? || e.Lookup?) && a in s.actors
    requires ThreadMoves(s, t, s'.threads[t], s')
    ensures Balanced(s, t, s'.threads[t], s', a)
  {
    if e.PopReady? {
      assert s.ready == [s.ready[0]] + s.ready[1..];
    }
  }

  lemma BatchBalanced(s: State, t: nat, e: Event, s': State, a: ActorId)
    requires t < |s.threads| && BatchStep(s, t, e, s') && a in s.actors
    requires ThreadMoves(s, t, s'.threads[t], s')
    ensures Balanced(s, t, s'.threads[t], s', a)
  {
    hide BatchStep, TokensOf;
    if e.PopReady? || e.Lookup? {
      PopBalanced(s, t, e, s', a);
    } else {
      BatchKeepsToken(s, t, e, s', a);
    }
  }

  lemma BatchWakes(s: State, t: nat, e: Event, s': State, a: ActorId, p: bool)
    requires WellFormed(s) && t < |s.threads| && BatchStep(s, t, e, s') && a in s.actors
    requires ThreadMoves(s, t, s'.threads[t], s')
    ensures WakeKept(s, t, s'.threads[t], s', a, p)
  {
    assert ThreadOk(s.threads[t], s.actors.Keys);
  }

  lemma BatchSound(s: State, t: nat, e: Event, s': State)
    requires Inv(s) && t < |s.threads| && BatchStep(s, t, e, s')
    ensures Sound(s, t, s'.threads[t], s')
  {
    BatchMoves(s, t, e, s');
    forall a | a in s.actors
      ensures Balanced(s, t, s'.threads[t], s', a)
    {
      BatchBalanced(s, t, e, s', a);
    }
    forall a, p | a in s.actors
      ensures WakeKept(s, t, s'.threads[t], s', a, p)
    {
      BatchWakes(s, t, e, s', a, p);
    }
  }

  lemma BatchKeepsLanes(s: State, t: nat, e: Event, s': State)
    requires TokenInv(s) && LaneInv(s) && t < |s.threads| && BatchStep(s, t, e, s')
    requires ThreadMoves(s, t, s'.threads[t], s')
    ensures LaneInv(s')
  {
    hide TokenInv, LaneInv;
    if e.PopReady? || e.Lookup? {
      LaneUntouched(s, t, s'.threads[t], s');
    } else {
      SoloKeepsLanes(s, t, s'.threads[t], s', s.threads[t].worker.a);
    }
  }

  lemma BatchPreserves(s: State, t: nat, e: Event, s': State)
    requires Inv(s) && t < |s.threads| && BatchStep(s, t, e, s')
    ensures Inv(s')
  {
    hide BatchStep, TokenInv, LaneInv, WakeInv, WellFormed;
    BatchSound(s, t, e, s');
    BatchKeepsLanes(s, t, e, s');
    SoundPreserves(s, t, s'.threads[t], s');
  }

  lemma ReleaseMoves(s: State, t: nat, e: Event, s': State)
    requires WellFormed(s) && t < |s.threads| && ReleaseStep(s, t, e, s')
    ensures ThreadMoves(s, t, s'.threads[t], s') && WellFormed(s')
  {
    assert ThreadOk(s.threads[t], s.actors.Keys);
    WellFormedMove(s, t, s'.threads[t], s');
  }

  // A clear flag means that no thread holds the token: the compare-exchange makes the only one.
  lemma ReleaseBalanced(s: State, t: nat, e: Event, s': State, a: ActorId)
    requires TokenInv(s) && t < |s.threads| && ReleaseStep(s, t, e, s') && a in s.actors
    requires ThreadMoves(s, t, s'.threads[t], s')
    ensures Balanced(s, t, s'.threads[t], s', a)
  {
    hide TokenInv;
    if e.ClearFlag? && s.threads[t].worker.a == a {
      HeldAtLeast(s.threads, t, a);
      TokenMeansScheduled(s, a);
    }
  }

  lemma TokenMeansScheduled(s: State, a: ActorId)
    requires TokenInv(s) && a in s.actors && HeldTokens(s.threads, a) >= 1
    ensures s.actors[a].scheduled
  {
  }

  lemma ReleaseWakes(s: State, t: nat, e: Event, s': State, a: ActorId, p: bool)
    requires WellFormed(s) && t < |s.threads| && ReleaseStep(s, t, e, s') && a in s.actors
    requires ThreadMoves(s, t, s'.threads[t], s')
    ensures WakeKept(s, t, s'.threads[t], s', a, p)
  {
    assert ThreadOk(s.threads[t], s.actors.Keys);
  }

  lemma ReleaseSound(s: State, t: nat, e: Event, s': State)
    requires Inv(s) && t < |s.threads| && ReleaseStep(s, t, e, s')
    ensures Sound(s, t, s'.threads[t], s')
  {
    ReleaseMoves(s, t, e, s');
    forall a | a in s.actors
      ensures Balanced(s, t, s'.threads[t], s', a)
    {
      ReleaseBalanced(s, t, e, s', a);
    }
    forall a, p | a in s.actors
      ensures WakeKept(s, t, s'.threads[t], s', a, p)
    {
      ReleaseWakes(s, t, e, s', a, p);
    }
  }

  lemma ReleasePreserves(s: State, t: nat, e: Event, s': State)
    requires Inv(s) && t < |s.threads| && ReleaseStep(s, t, e, s')
    ensures Inv(s')
  {
    ReleaseSound(s, t, e, s');
    LaneUntouched(s, t, s'.threads[t], s');
    SoundPreserves(s, t, s'.threads[t], s');
  }

  lemma RegistryPreserves(s: State, e: Event, s': State)
    requires Inv(s) && RegistryStep(s, e, s')
    ensures Inv(s')
  {
    if e.Register? {
      var id := s.nextId;
      forall t | 0 <= t < |s.threads|
        ensures ThreadOk(s.threads[t], s'.actors.Keys)
      {
        assert ThreadOk(s.threads[t], s.actors.Keys);
      }
      assert forall t :: 0 <= t < |s.threads| ==> TokensOf(s.threads[t], id) == 0 by {
        assert forall t :: 0 <= t < |s.threads| ==> ThreadOk(s.threads[t], s.actors.Keys);
      }
      HeldNone(s.threads, id);
      forall p
        ensures LaneConserved(s', id, p)
      {
        InFlightNone(s.threads, id, p);
      }
    }
    forall a, p | a in s'.actors && s'.actors[a].LaneOf(p).queue != [] && !s'.actors[a].scheduled
      ensures Noticed(s', a, p)
    {
      assert Noticed(s, a, p);
    }
    forall a, p | a in s.actors
      ensures LaneConserved(s', a, p)
    {
      assert LaneConserved(s, a, p);
    }
  }

  lemma InitEstablishes(s: State)
    requires Init(s)
    ensures Inv(s)
  {
  }

  lemma StepPreserves(s: State, s': State)
    requires Inv(s) && Next(s, s')
    ensures Inv(s')
  {
    var t: nat, e: Event :| Step(s, t, e, s');
    if RegistryStep(s, e, s') {
      RegistryPreserves(s, e, s');
    } else if SendStep(s, t, e, s') {
      SendPreserves(s, t, e, s');
    } else if BatchStep(s, t, e, s') {
      BatchPreserves(s, t, e, s');
    } else {
      ReleasePreserves(s, t, e, s');
    }
  }

  // --------------------------------------------------------------------------------------
  // Safety over whole runs
  // --------------------------------------------------------------------------------------

  ghost predicate IsRun(run: seq<State>) {
    && run != []
    && Init(run[0])
    && forall i :: 0 <= i < |run| - 1 ==> Next(run[i], run[i + 1])
  }

  lemma {:induction false} RunInv(run: seq<State>, i: nat)
    requires IsRun(run) && i < |run|
    ensures Inv(run[i])
  {
    if i == 0 {
      InitEstablishes(run[0]);
    } else {
      RunInv(run, i - 1);
      StepPreserves(run[i - 1], run[i]);
    }
  }

  // The token of a registered actor exists exactly while its flag is set, and there is never
  // a second one, not even after the actor was unregistered.
  lemma SingleToken(run: seq<State>, i: nat, a: ActorId)
    requires IsRun(run) && i < |run| && a in run[i].actors
    ensures a in run[i].registered ==> Tokens(run[i], a) == Bit(run[i].actors[a].scheduled)
    ensures Tokens(run[i], a) <= 1
  {
    RunInv(run, i);
  }

  // Two workers never run the same actor, and a worker running it excludes a queued copy.
  lemma MutualExclusion(run: seq<State>, i: nat, t: nat, u: nat, a: ActorId)
    requires IsRun(run) && i < |run|
    requires t < |run[i].threads| && WorkerHolds(run[i].threads[t].worker, a)
    ensures u < |run[i].threads| && WorkerHolds(run[i].threads[u].worker, a) ==> u == t
    ensures a !in run[i].ready
  {
    var s := run[i];
    RunInv(run, i);
    assert ThreadOk(s.threads[t], s.actors.Keys);
    HeldAtLeast(s.threads, t, a);
    if u < |s.threads| && u != t {
      HeldAtLeastTwo(s.threads, if t < u then t else u, if t < u then u else t, a);
    }
  }

  // A non-empty mailbox without a token is always about to be noticed by some thread.
  lemma NoLostWakeup(run: seq<State>, i: nat, a: ActorId, isPriority: bool)
    requires IsRun(run) && i < |run| && a in run[i].actors
    requires run[i].actors[a].LaneOf(isPriority).queue != [] && !run[i].actors[a].scheduled
    ensures exists t :: 0 <= t < |run[i].threads| && WillNotice(run[i].threads[t], a, isPriority)
  {
    RunInv(run, i);
    assert Noticed(run[i], a, isPriority);
  }

  ghost predicate Quiescent(s: State) {
    forall t :: 0 <= t < |s.threads| ==>
      s.threads[t].send.NotSending? && (s.threads[t].worker.Top? || s.threads[t].worker.Off?)
  }

  // When no thread is inside Send or a worker turn, every registered actor that still has a
  // message is in the ready queue, once.
  lemma QuiescentIsQueued(run: seq<State>, i: nat, a: ActorId)
    requires IsRun(run) && i < |run| && Quiescent(run[i])
    requires a in run[i].registered && a in run[i].actors
    requires run[i].actors[a].high.queue != [] || run[i].actors[a].low.queue != []
    ensures multiset(run[i].ready)[a] == 1
  {
    var s := run[i];
    RunInv(run, i);
    var p := s.actors[a].high.queue != [];
    assert s.actors[a].LaneOf(p).queue != [];
    if !s.actors[a].scheduled {
      assert false;
    }
    HeldNone(s.threads, a);
  }

  // Per class, messages are finished in the order in which they were pushed; the pushed
  // messages are the finished ones, at most one in process, and those still queued.
  lemma LanesAreConserved(run: seq<State>, i: nat, a: ActorId, isPriority: bool)
    requires IsRun(run) && i < |run| && a in run[i].actors
    ensures var lane := run[i].actors[a].LaneOf(isPriority);
            var current := InFlight(run[i].threads, a, isPriority);
            lane.pushed == lane.done + current + lane.queue && |current| <= 1
  {
    var s := run[i];
    RunInv(run, i);
    assert LaneConserved(s, a, isPriority);
    InFlightAtMostHeld(s.threads, a, isPriority);
  }

  lemma {:induction false} InFlightAtMostHeld(threads: seq<Thread>, a: ActorId, p: bool)
    ensures |InFlight(threads, a, p)| <= HeldTokens(threads, a)
  {
    if threads != [] {
      InFlightAtMostHeld(threads[1..], a, p);
    }
  }

  // One worker turn processes at most 64 messages.
  lemma TurnIsBounded(run: seq<State>, i: nat, t: nat)
    requires IsRun(run) && i < |run| && t < |run[i].threads|
    ensures var pc := run[i].threads[t].worker;
            pc.TakingPriority? || pc.TakingNormal? || pc.Handling? ==> |pc.taken| <= 64
  {
    RunInv(run, i);
    assert ThreadOk(run[i].threads[t], run[i].actors.Keys);
  }

  // At step j, thread t found the priority queue of the actor empty and moved on to the normal
  // queue, where it still stands at step i, having taken no message in between.
  ghost predicate SawPriorityEmpty(run: seq<State>, t: nat, j: nat, i: nat)
    requires i < |run| && t < |run[i].threads| && run[i].threads[t].worker.TakingNormal?
  {
    var pc := run[i].threads[t].worker;
    && j < i
    && t < |run[j].threads| && run[j].threads[t].worker == TakingPriority(pc.a, pc.taken)
    && pc.a in run[j].actors && run[j].actors[pc.a].high.queue == []
    && forall k :: j < k <= i ==> t < |run[k].threads| && run[k].threads[t].worker == pc
  }

  // A worker takes a normal message only after it found the priority queue empty in the same
  // ProcessOne.
  lemma {:induction false} PriorityFirst(run: seq<State>, i: nat, t: nat)
    requires IsRun(run) && i < |run| && t < |run[i].threads| && run[i].threads[t].worker.TakingNormal?
    ensures exists j: nat :: SawPriorityEmpty(run, t, j, i)
  {
    hide Next;
    var pc := run[i].threads[t].worker;
    if i == 0 {
      assert false;
    } else if t < |run[i - 1].threads| && run[i - 1].threads[t].worker == pc {
      PriorityFirst(run, i - 1, t);
      var j: nat :| SawPriorityEmpty(run, t, j, i - 1);
      assert SawPriorityEmpty(run, t, j, i);
    } else {
      StepIntoTakingNormal(run[i - 1], run[i], t);
      assert SawPriorityEmpty(run, t, i - 1, i);
    }
  }

  lemma StepIntoTakingNormal(s: State, s': State, t: nat)
    requires Next(s, s') && t < |s'.threads| && s'.threads[t].worker.TakingNormal?
    requires t < |s.threads| ==> s.threads[t].worker != s'.threads[t].worker
    ensures var pc := s'.threads[t].worker;
            && t < |s.threads| && s.threads[t].worker == TakingPriority(pc.a, pc.taken)
            && pc.a in s.actors && s.actors[pc.a].high.queue == []
  {
    hide RegistryStep, SendStep, BatchStep, ReleaseStep;
    var u: nat, e: Event :| Step(s, u, e, s');
    if RegistryStep(s, e, s') {
      RegistryMovesNobody(s, e, s');
    } else if SendStep(s, u, e, s') {
      SendMovesNoWorker(s, u, e, s', t);
    } else if BatchStep(s, u, e, s') {
      BatchIntoTakingNormal(s, u, e, s', t);
    } else {
      ReleaseIntoNoTake(s, u, e, s', t);
    }
  }

  lemma RegistryMovesNobody(s: State, e: Event, s': State)
    requires RegistryStep(s, e, s')
    ensures s'.threads == s.threads
  {
  }

  lemma SendMovesNoWorker(s: State, u: nat, e: Event, s': State, t: nat)
    requires u < |s.threads| && SendStep(s, u, e, s')
    ensures |s'.threads| == |s.threads|
    ensures t < |s.threads| ==> s'.threads[t].worker == s.threads[t].worker
  {
  }

  lemma BatchIntoTakingNormal(s: State, u: nat, e: Event, s': State, t: nat)
    requires u < |s.threads| && BatchStep(s, u, e, s') && t < |s'.threads|
    ensures |s'.threads| == |s.threads|
    ensures s'.threads[t].worker.TakingNormal? && s.threads[t].worker != s'.threads[t].worker ==>
              var pc := s'.threads[t].worker;
              && s.threads[t].worker == TakingPriority(pc.a, pc.taken)
              && pc.a in s.actors && s.actors[pc.a].high.queue == []
  {
    if t != u {
      assert s'.threads[t] == s.threads[t];
    }
  }

  lemma ReleaseIntoNoTake(s: State, u: nat, e: Event, s': State, t: nat)
    requires u < |s.threads| && ReleaseStep(s, u, e, s')
    ensures |s'.threads| == |s.threads|
    ensures t < |s.threads| && s'.threads[t].worker.TakingNormal? ==> s'.threads[t].worker == s.threads[t].worker
  {
  }
}
