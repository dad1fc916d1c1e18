/**
 Progress of the scheduler: once nobody starts another Send, the threads run out of steps, and
 when they have, every message pushed to a registered actor has been processed.
 */
module SchedulerProgress {
  import opened Scheduler
  import opened SchedulerTrace

  // --------------------------------------------------------------------------------------
  // No message gets stuck
  // --------------------------------------------------------------------------------------

  // A step of thread t that does not begin another Send.
  ghost predicate GoesOn(s: State, t: nat, e: Event, s': State)
    requires t < |s.threads|
  {
    !e.SendLookup? && (SendStep(s, t, e, s') || BatchStep(s, t, e, s') || ReleaseStep(s, t, e, s'))
  }

  // Thread t can finish a Send it is in, or go on with its worker turn.
  ghost predicate CanGoOn(s: State, t: nat) {
    t < |s.threads| && exists e, s' :: GoesOn(s, t, e, s')
  }

  lemma SenderGoesOn(s: State, t: nat)
    requires WellFormed(s) && t < |s.threads| && !s.threads[t].send.NotSending?
    ensures CanGoOn(s, t)
  {
    var th := s.threads[t];
    assert ThreadOk(th, s.actors.Keys);
    match th.send {
      case Found(a, m) =>
        assert GoesOn(s, t, SendEnqueue, SetSend(SetActor(s, a, Push(s.actors[a], m)), t, AtCas(a)));
      case AtCas(a) =>
        var actor := s.actors[a];
        assert GoesOn(s, t, SendCas, if actor.scheduled then SetSend(s, t, NotSending)
                                       else SetSend(SetActor(s, a, actor.(scheduled := true)), t, AtPush(a)));
      case AtPush(a) =>
        assert GoesOn(s, t, SendReady, SetSend(s.(ready := s.ready + [a]), t, NotSending));
    }
  }

  lemma BatchGoesOn(s: State, t: nat)
    requires WellFormed(s) && t < |s.threads| && s.threads[t].send.NotSending?
    requires var pc := s.threads[t].worker;
             pc.Popped? || pc.TakingPriority? || pc.TakingNormal? || pc.Handling? || (pc.Top? && s.ready != [])
    ensures CanGoOn(s, t)
  {
    var pc := s.threads[t].worker;
    assert ThreadOk(s.threads[t], s.actors.Keys);
    match pc {
      case Top => assert GoesOn(s, t, PopReady, SetWorker(s.(ready := s.ready[1..]), t, Popped(s.ready[0])));
      case Popped(a) =>
        assert GoesOn(s, t, Lookup, SetWorker(s, t, if a in s.registered then TakingPriority(a, []) else Top));
      case TakingPriority(a, taken) =>
        var queue := s.actors[a].high.queue;
        assert GoesOn(s, t, TakePriority,
                         if queue == [] then SetWorker(s, t, TakingNormal(a, taken))
                         else SetWorker(SetActor(s, a, Take(s.actors[a], true)), t,
                                        Handling(a, taken + [queue[0]], queue[0], true)));
      case TakingNormal(a, taken) =>
        var queue := s.actors[a].low.queue;
        assert GoesOn(s, t, TakeNormal,
                         if queue == [] then SetWorker(s, t, CheckingPriority(a))
                         else SetWorker(SetActor(s, a, Take(s.actors[a], false)), t,
                                        Handling(a, taken + [queue[0]], queue[0], false)));
      case Handling(a, taken, m, p) =>
        assert GoesOn(s, t, HandlerThrows,
                         SetWorker(SetActor(s, a, Finish(s.actors[a], p, m)), t, CheckingPriority(a)));
    }
  }

  lemma ReleaseGoesOn(s: State, t: nat)
    requires WellFormed(s) && t < |s.threads| && s.threads[t].send.NotSending?
    requires var pc := s.threads[t].worker;
             !(pc.Off? || pc.Top? || pc.Popped? || pc.TakingPriority? || pc.TakingNormal? || pc.Handling?)
    ensures CanGoOn(s, t)
  {
    var pc := s.threads[t].worker;
    var a := pc.a;
    assert ThreadOk(s.threads[t], s.actors.Keys);
    var actor := s.actors[a];
    match pc {
      case CheckingPriority(_) =>
        assert GoesOn(s, t, CheckPriority,
                      SetWorker(s, t, if actor.high.queue == [] then CheckingNormal(a) else Requeueing(a)));
      case CheckingNormal(_) =>
        assert GoesOn(s, t, CheckNormal,
                      SetWorker(s, t, if actor.low.queue == [] then Clearing(a) else Requeueing(a)));
      case Requeueing(_) =>
        assert GoesOn(s, t, Requeue, SetWorker(s.(ready := s.ready + [a]), t, Top));
      case Clearing(_) =>
        assert GoesOn(s, t, ClearFlag,
                      SetWorker(SetActor(s, a, actor.(scheduled := false)), t, RecheckingPriority(a)));
      case RecheckingPriority(_) =>
        assert GoesOn(s, t, RecheckPriority,
                      SetWorker(s, t, if actor.high.queue == [] then RecheckingNormal(a) else RetryingCas(a)));
      case RecheckingNormal(_) =>
        assert GoesOn(s, t, RecheckNormal, SetWorker(s, t, if actor.low.queue == [] then Top else RetryingCas(a)));
      case RetryingCas(_) =>
        assert GoesOn(s, t, RetryCas, if actor.scheduled then SetWorker(s, t, Top)
                                           else SetWorker(SetActor(s, a, actor.(scheduled := true)), t,
                                                          RetryingPush(a)));
      case RetryingPush(_) =>
        assert GoesOn(s, t, RetryPush, SetWorker(s.(ready := s.ready + [a]), t, Top));
    }
  }

  // The system never gets stuck on a message: while a registered actor has one and there is a
  // worker, some thread can go on without waiting for another message to be sent.
  lemma NeverStuck(run: seq<State>, i: nat, a: ActorId, w: nat)
    requires IsRun(run) && i < |run|
    requires a in run[i].registered && a in run[i].actors
    requires run[i].actors[a].high.queue != [] || run[i].actors[a].low.queue != []
    requires w < |run[i].threads| && !run[i].threads[w].worker.Off?
    ensures exists t: nat :: CanGoOn(run[i], t)
  {
    hide CanGoOn;
    var s := run[i];
    RunInv(run, i);
    if Quiescent(s) {
      QuiescentIsQueued(run, i, a);
      assert s.ready != [];
      BatchGoesOn(s, w);
    } else {
      var t :| 0 <= t < |s.threads| &&
               !(s.threads[t].send.NotSending? && (s.threads[t].worker.Top? || s.threads[t].worker.Off?));
      BusyGoesOn(s, t);
    }
  }

  // A thread that is not idle can go on.
  lemma BusyGoesOn(s: State, t: nat)
    requires WellFormed(s) && t < |s.threads|
    ensures CanGoOn(s, t) || (s.threads[t].send.NotSending? && (s.threads[t].worker.Top? || s.threads[t].worker.Off?))
  {
    hide CanGoOn, WellFormed;
    var pc := s.threads[t].worker;
    if !s.threads[t].send.NotSending? {
      SenderGoesOn(s, t);
    } else if pc.Popped? || pc.TakingPriority? || pc.TakingNormal? || pc.Handling? {
      BatchGoesOn(s, t);
    } else if !pc.Top? && !pc.Off? {
      ReleaseGoesOn(s, t);
    }
  }

  // --------------------------------------------------------------------------------------
  // The work that is left
  // --------------------------------------------------------------------------------------

  // What waits for an actor; nothing waits for one that does not exist.
  function Mailbox(actors: map<ActorId, Actor>, a: ActorId, isPriority: bool): seq<Message> {
    if a in actors then actors[a].LaneOf(isPriority).queue else []
  }

  predicate Waits(actors: map<ActorId, Actor>, a: ActorId, isPriority: bool) {
    Mailbox(actors, a, isPriority) != []
  }

  predicate HasMail(actors: map<ActorId, Actor>, a: ActorId) {
    Waits(actors, a, true) || Waits(actors, a, false)
  }

  // How many steps each stage is away from taking a message, or, if there is none, from giving
  // the actor up, as long as the mailboxes stay as they are.
  function ReadyCost(actors: map<ActorId, Actor>, a: ActorId): (r: nat)
    ensures r <= 9
  {
    if HasMail(actors, a) then 4 else 9
  }

  function WorkerCost(actors: map<ActorId, Actor>, pc: WorkerPc): (r: nat)
    ensures r <= 13
  {
    match pc
    case Off => 0
    case Top => 0
    case Popped(a) => if HasMail(actors, a) then 3 else 8
    case TakingPriority(a, _) => if HasMail(actors, a) then 2 else 7
    case TakingNormal(a, _) => if Waits(actors, a, false) then 1 else if Waits(actors, a, true) then 12 else 6
    case Handling(a, _, _, _) => if HasMail(actors, a) then 13 else 8
    case CheckingPriority(a) => if HasMail(actors, a) then 11 else 5
    case CheckingNormal(a) => if HasMail(actors, a) then 10 else 4
    case Requeueing(a) => if HasMail(actors, a) then 5 else 10
    case Clearing(a) => if HasMail(actors, a) then 9 else 3
    case RecheckingPriority(a) => if HasMail(actors, a) then 8 else 2
    case RecheckingNormal(a) => if HasMail(actors, a) then 7 else 1
    case RetryingCas(a) => if HasMail(actors, a) then 6 else 11
    case RetryingPush(a) => if HasMail(actors, a) then 5 else 10
  }

  function SendCost(actors: map<ActorId, Actor>, pc: SendPc): (r: nat)
    ensures r <= 11
  {
    match pc
    case NotSending => 0
    case Found(_, _) => 0
    case AtCas(a) => ReadyCost(actors, a) + 2
    case AtPush(a) => ReadyCost(actors, a) + 1
  }

  function ThreadCost(actors: map<ActorId, Actor>, th: Thread): (r: nat)
    ensures r <= 24
  {
    WorkerCost(actors, th.worker) + SendCost(actors, th.send)
  }

  function ThreadCosts(actors: map<ActorId, Actor>, threads: seq<Thread>): (r: nat)
    ensures r <= 24 * |threads|
  {
    if threads == [] then 0 else ThreadCost(actors, threads[0]) + ThreadCosts(actors, threads[1..])
  }

  // The cost of the copies in the ready queue of the ids below n.
  function ReadyCosts(actors: map<ActorId, Actor>, ready: seq<ActorId>, n: nat): nat {
    if n == 0 then 0 else multiset(ready)[n - 1] * ReadyCost(actors, n - 1) + ReadyCosts(actors, ready, n - 1)
  }

  // The messages in the mailboxes of the ids below n.
  function Queued(actors: map<ActorId, Actor>, n: nat): nat {
    if n == 0 then 0
    else |Mailbox(actors, n - 1, true)| + |Mailbox(actors, n - 1, false)| + Queued(actors, n - 1)
  }

  // The sends that have not enqueued their message yet.
  function Sends(threads: seq<Thread>): nat {
    if threads == [] then 0 else (if threads[0].send.Found? then 1 else 0) + Sends(threads[1..])
  }

  function Messages(s: State): nat {
    Queued(s.actors, s.nextId) + 2 * Sends(s.threads)
  }

  function Costs(s: State): nat {
    ThreadCosts(s.actors, s.threads) + ReadyCosts(s.actors, s.ready, s.nextId)
  }

  function CostLimit(s: State): nat {
    24 * |s.threads| + 9 * s.nextId
  }

  // A bound on the steps that are left, while the costs stay within a limit.
  function Work(s: State, limit: nat): int {
    Messages(s) * (limit + 1) + Costs(s)
  }

  // --------------------------------------------------------------------------------------
  // Every step reduces the work
  // --------------------------------------------------------------------------------------

  lemma {:induction false} ThreadCostsUpdate(actors: map<ActorId, Actor>, threads: seq<Thread>, t: nat, th: Thread)
    requires t < |threads|
    ensures ThreadCosts(actors, threads[t := th]) + ThreadCost(actors, threads[t])
            == ThreadCosts(actors, threads) + ThreadCost(actors, th)
  {
    hide ThreadCost;
    if t == 0 {
      assert threads[t := th][1..] == threads[1..];
    } else {
      assert threads[t := th][1..] == threads[1..][t - 1 := th];
      ThreadCostsUpdate(actors, threads[1..], t - 1, th);
    }
  }

  lemma {:induction false} SendsUpdate(threads: seq<Thread>, t: nat, th: Thread)
    requires t < |threads|
    ensures Sends(threads[t := th]) + (if threads[t].send.Found? then 1 else 0)
            == Sends(threads) + (if th.send.Found? then 1 else 0)
  {
    if t == 0 {
      assert threads[t := th][1..] == threads[1..];
    } else {
      assert threads[t := th][1..] == threads[1..][t - 1 := th];
      SendsUpdate(threads[1..], t - 1, th);
    }
  }

  // The mailboxes are the same, whatever else changed.
  ghost predicate SameMail(actors: map<ActorId, Actor>, actors': map<ActorId, Actor>) {
    forall a, p :: Mailbox(actors', a, p) == Mailbox(actors, a, p)
  }

  lemma SameCost(actors: map<ActorId, Actor>, actors': map<ActorId, Actor>, th: Thread)
    requires SameMail(actors, actors')
    ensures ThreadCost(actors', th) == ThreadCost(actors, th)
  {
    hide SameMail, Waits, HasMail, ReadyCost;
    SameHasMail(actors, actors');
  }

  lemma SameHasMail(actors: map<ActorId, Actor>, actors': map<ActorId, Actor>)
    requires SameMail(actors, actors')
    ensures forall a, p :: Waits(actors', a, p) == Waits(actors, a, p)
    ensures forall a :: HasMail(actors', a) == HasMail(actors, a) && ReadyCost(actors', a) == ReadyCost(actors, a)
  {
  }

  lemma {:induction false} SameThreadCosts(actors: map<ActorId, Actor>, actors': map<ActorId, Actor>,
                                        threads: seq<Thread>)
    requires SameMail(actors, actors')
    ensures ThreadCosts(actors', threads) == ThreadCosts(actors, threads)
  {
    hide SameMail, ThreadCost;
    if threads != [] {
      SameCost(actors, actors', threads[0]);
      SameThreadCosts(actors, actors', threads[1..]);
    }
  }

  lemma {:induction false} SameIds(actors: map<ActorId, Actor>, actors': map<ActorId, Actor>,
                                ready: seq<ActorId>, n: nat)
    requires SameMail(actors, actors')
    ensures ReadyCosts(actors', ready, n) == ReadyCosts(actors, ready, n)
    ensures Queued(actors', n) == Queued(actors, n)
  {
    if n > 0 {
      SameHasMail(actors, actors');
      SameIds(actors, actors', ready, n - 1);
    }
  }

  lemma {:induction false} ReadyCostsAppend(actors: map<ActorId, Actor>, ready: seq<ActorId>, a: ActorId, n: nat)
    ensures ReadyCosts(actors, ready + [a], n)
            == ReadyCosts(actors, ready, n) + if a < n then ReadyCost(actors, a) else 0
  {
    hide ReadyCost;
    if n > 0 {
      ReadyCostsAppend(actors, ready, a, n - 1);
      OneCopyMore(ready, a, n - 1, ReadyCost(actors, n - 1));
    }
  }

  lemma OneCopyMore(ready: seq<ActorId>, a: ActorId, b: ActorId, c: nat)
    ensures multiset(ready + [a])[b] * c == multiset(ready)[b] * c + if a == b then c else 0
  {
    var m := multiset(ready)[b];
    assert multiset(ready + [a])[b] == m + if a == b then 1 else 0;
    assert (m + 1) * c == m * c + c;
  }

  lemma {:induction false} SameCopies(actors: map<ActorId, Actor>, ready: seq<ActorId>, ready': seq<ActorId>, n: nat)
    requires multiset(ready) == multiset(ready')
    ensures ReadyCosts(actors, ready', n) == ReadyCosts(actors, ready, n)
  {
    if n > 0 {
      SameCopies(actors, ready, ready', n - 1);
    }
  }

  lemma ReadyCostsPop(actors: map<ActorId, Actor>, ready: seq<ActorId>, n: nat)
    requires ready != [] && ready[0] < n
    ensures ReadyCosts(actors, ready, n) == ReadyCosts(actors, ready[1..], n) + ReadyCost(actors, ready[0])
  {
    var moved := ready[1..] + [ready[0]];
    assert ready == [ready[0]] + ready[1..];
    SameCopies(actors, moved, ready, n);
    ReadyCostsAppend(actors, ready[1..], ready[0], n);
  }

  // With at most one copy of each id the costs stay below their limit.
  lemma {:induction false} ReadyCostsBounded(actors: map<ActorId, Actor>, ready: seq<ActorId>, n: nat)
    requires forall a :: 0 <= a < n ==> multiset(ready)[a] <= 1
    ensures ReadyCosts(actors, ready, n) <= 9 * n
  {
    if n > 0 {
      ReadyCostsBounded(actors, ready, n - 1);
      var copies := multiset(ready)[n - 1];
      assert copies == 0 || copies == 1;
    }
  }

  lemma CostsBounded(s: State)
    requires WellFormed(s) && TokenInv(s)
    ensures Costs(s) <= CostLimit(s)
  {
    forall a: nat | a < s.nextId
      ensures multiset(s.ready)[a] <= 1
    {
      if a in s.actors {
        assert Tokens(s, a) <= Bit(s.actors[a].scheduled);
      } else {
        assert a !in s.ready;
      }
    }
    ReadyCostsBounded(s.actors, s.ready, s.nextId);
  }

  // One mailbox gets longer or shorter.
  lemma {:induction false} QueuedUpdate(actors: map<ActorId, Actor>, a: ActorId, actor: Actor, n: nat)
    requires a in actors
    ensures var before := |actors[a].high.queue| + |actors[a].low.queue|;
            var after := |actor.high.queue| + |actor.low.queue|;
            Queued(actors[a := actor], n) + (if a < n then before else 0)
            == Queued(actors, n) + if a < n then after else 0
  {
    if n > 0 {
      QueuedUpdate(actors, a, actor, n - 1);
    }
  }

  // A step that enqueues or takes a message.
  ghost predicate MovesMessage(s: State, t: nat, e: Event)
    requires t < |s.threads|
  {
    var pc := s.threads[t].worker;
    || e.SendEnqueue?
    || (e.TakePriority? && pc.TakingPriority? && Waits(s.actors, pc.a, true))
    || (e.TakeNormal? && pc.TakingNormal? && Waits(s.actors, pc.a, false))
  }

  lemma MessageMoves(s: State, t: nat, e: Event, s': State)
    requires WellFormed(s) && t < |s.threads| && GoesOn(s, t, e, s') && MovesMessage(s, t, e)
    ensures Messages(s') < Messages(s)
  {
    assert ThreadOk(s.threads[t], s.actors.Keys);
    if e.SendEnqueue? {
      SendEnqueues(s, t, s');
    } else {
      WorkerTakes(s, t, e, s');
    }
  }

  lemma SendEnqueues(s: State, t: nat, s': State)
    requires WellFormed(s) && t < |s.threads| && SendStep(s, t, SendEnqueue, s')
    ensures Messages(s') < Messages(s)
  {
    var a := s.threads[t].send.a;
    SendsUpdate(s.threads, t, s'.threads[t]);
    QueuedUpdate(s.actors, a, s'.actors[a], s.nextId);
  }

  lemma WorkerTakes(s: State, t: nat, e: Event, s': State)
    requires WellFormed(s) && t < |s.threads| && BatchStep(s, t, e, s') && MovesMessage(s, t, e)
    ensures Messages(s') < Messages(s)
  {
    var a := s.threads[t].worker.a;
    SendsUpdate(s.threads, t, s'.threads[t]);
    QueuedUpdate(s.actors, a, s'.actors[a], s.nextId);
  }

  // What a step that moves no message leaves as it is.
  ghost predicate KeepsMail(s: State, t: nat, s': State)
    requires t < |s.threads|
  {
    && SameMail(s.actors, s'.actors)
    && s'.nextId == s.nextId && |s'.threads| == |s.threads| && s'.threads == s.threads[t := s'.threads[t]]
    && s'.threads[t].send.Found? == s.threads[t].send.Found?
  }

  lemma SendKeepsMail(s: State, t: nat, e: Event, s': State)
    requires t < |s.threads| && SendStep(s, t, e, s') && !e.SendLookup? && !e.SendEnqueue?
    ensures KeepsMail(s, t, s')
  {
  }

  lemma BatchKeepsMail(s: State, t: nat, e: Event, s': State)
    requires t < |s.threads| && BatchStep(s, t, e, s') && !MovesMessage(s, t, e)
    ensures KeepsMail(s, t, s')
  {
  }

  lemma ReleaseKeepsMail(s: State, t: nat, e: Event, s': State)
    requires t < |s.threads| && ReleaseStep(s, t, e, s')
    ensures KeepsMail(s, t, s')
  {
  }

  lemma OthersKeepMail(s: State, t: nat, e: Event, s': State)
    requires t < |s.threads| && GoesOn(s, t, e, s') && !MovesMessage(s, t, e)
    ensures KeepsMail(s, t, s')
  {
    hide SendStep, BatchStep, ReleaseStep, KeepsMail;
    if SendStep(s, t, e, s') {
      SendKeepsMail(s, t, e, s');
    } else if BatchStep(s, t, e, s') {
      BatchKeepsMail(s, t, e, s');
    } else {
      ReleaseKeepsMail(s, t, e, s');
    }
  }

  // What one step does to the ready queue.
  ghost predicate ReadyMoves(s: State, t: nat, e: Event, s': State)
    requires t < |s.threads|
  {
    if e.PopReady? then s.ready != [] && s'.ready == s.ready[1..]
    else if e.SendReady? then s.threads[t].send.AtPush? && s'.ready == s.ready + [s.threads[t].send.a]
    else if e.Requeue? then s.threads[t].worker.Requeueing? && s'.ready == s.ready + [s.threads[t].worker.a]
    else if e.RetryPush? then s.threads[t].worker.RetryingPush? && s'.ready == s.ready + [s.threads[t].worker.a]
    else s'.ready == s.ready
  }

  lemma ReadyQueueMoves(s: State, t: nat, e: Event, s': State)
    requires t < |s.threads| && GoesOn(s, t, e, s')
    ensures ReadyMoves(s, t, e, s')
  {
  }

  function CostAdded(s: State, t: nat, e: Event): nat
    requires t < |s.threads|
  {
    var th := s.threads[t];
    if e.SendReady? && th.send.AtPush? then ReadyCost(s.actors, th.send.a)
    else if (e.Requeue? && th.worker.Requeueing?) || (e.RetryPush? && th.worker.RetryingPush?)
    then ReadyCost(s.actors, th.worker.a)
    else 0
  }

  function CostRemoved(s: State, e: Event): nat {
    if e.PopReady? && s.ready != [] then ReadyCost(s.actors, s.ready[0]) else 0
  }

  lemma ReadyChanges(s: State, t: nat, e: Event, s': State)
    requires WellFormed(s) && t < |s.threads| && ReadyMoves(s, t, e, s')
    ensures ReadyCosts(s.actors, s'.ready, s.nextId) + CostRemoved(s, e)
            == ReadyCosts(s.actors, s.ready, s.nextId) + CostAdded(s, t, e)
  {
    hide ReadyCost;
    assert ThreadOk(s.threads[t], s.actors.Keys);
    if e.PopReady? {
      assert s.ready[0] in s.ready;
      ReadyCostsPop(s.actors, s.ready, s.nextId);
    } else if e.SendReady? {
      ReadyCostsAppend(s.actors, s.ready, s.threads[t].send.a, s.nextId);
    } else if e.Requeue? || e.RetryPush? {
      ReadyCostsAppend(s.actors, s.ready, s.threads[t].worker.a, s.nextId);
    }
  }

  lemma SendGetsCheaper(s: State, t: nat, e: Event, s': State)
    requires t < |s.threads| && SendStep(s, t, e, s') && !e.SendLookup? && !e.SendEnqueue?
    ensures ThreadCost(s.actors, s'.threads[t]) + CostAdded(s, t, e)
            < ThreadCost(s.actors, s.threads[t]) + CostRemoved(s, e)
  {
  }

  lemma BatchGetsCheaper(s: State, t: nat, e: Event, s': State)
    requires WellFormed(s) && t < |s.threads| && BatchStep(s, t, e, s') && !MovesMessage(s, t, e)
    ensures ThreadCost(s.actors, s'.threads[t]) + CostAdded(s, t, e)
            < ThreadCost(s.actors, s.threads[t]) + CostRemoved(s, e)
  {
    assert ThreadOk(s.threads[t], s.actors.Keys);
  }

  lemma ReleaseGetsCheaper(s: State, t: nat, e: Event, s': State)
    requires WellFormed(s) && t < |s.threads| && ReleaseStep(s, t, e, s')
    ensures ThreadCost(s.actors, s'.threads[t]) + CostAdded(s, t, e)
            < ThreadCost(s.actors, s.threads[t]) + CostRemoved(s, e)
  {
    assert ThreadOk(s.threads[t], s.actors.Keys);
  }

  lemma CostsFall(s: State, t: nat, e: Event, s': State)
    requires WellFormed(s) && t < |s.threads| && GoesOn(s, t, e, s') && !MovesMessage(s, t, e)
    ensures Messages(s') == Messages(s) && Costs(s') < Costs(s)
  {
    hide WellFormed, SendStep, BatchStep, ReleaseStep, ThreadCost, CostAdded, CostRemoved, ReadyMoves, SameMail;
    OthersKeepMail(s, t, e, s');
    ReadyQueueMoves(s, t, e, s');
    ReadyChanges(s, t, e, s');
    if SendStep(s, t, e, s') {
      SendGetsCheaper(s, t, e, s');
    } else if BatchStep(s, t, e, s') {
      BatchGetsCheaper(s, t, e, s');
    } else {
      ReleaseGetsCheaper(s, t, e, s');
    }
    ThreadCostsUpdate(s.actors, s.threads, t, s'.threads[t]);
    SendsUpdate(s.threads, t, s'.threads[t]);
    SameThreadCosts(s.actors, s'.actors, s'.threads);
    SameIds(s.actors, s'.actors, s'.ready, s.nextId);
  }

  lemma WorkIsNatural(s: State, limit: nat)
    ensures Work(s, limit) >= 0
  {
    hide Messages, Costs;
    Product(Messages(s), limit + 1);
  }

  lemma {:induction false} Product(a: nat, b: nat)
    ensures a * b >= 0
  {
    if a > 0 {
      Product(a - 1, b);
      assert a * b == (a - 1) * b + b;
    }
  }

  lemma FewerMessages(m: nat, m': nat, limit: nat, costs: nat, costs': nat)
    requires m' < m && costs' <= limit
    ensures m' * (limit + 1) + costs' < m * (limit + 1) + costs
  {
    AtLeastOnce(m - m', limit + 1);
    Distributes(m', m - m', limit + 1);
  }

  lemma AtLeastOnce(d: nat, k: nat)
    requires d >= 1
    ensures d * k >= k
  {
    assert d * k == (d - 1) * k + k;
  }

  lemma Distributes(a: nat, b: nat, k: nat)
    ensures (a + b) * k == a * k + b * k
  {
  }

  // Every step of a thread leaves less work.
  lemma WorkFalls(s: State, t: nat, e: Event, s': State, limit: nat)
    requires Inv(s) && t < |s.threads| && GoesOn(s, t, e, s') && CostLimit(s) <= limit
    ensures Inv(s') && Work(s', limit) < Work(s, limit)
  {
    hide Messages, Costs, SendStep, BatchStep, ReleaseStep, MovesMessage, WellFormed, TokenInv, WakeInv, LaneInv;
    assert Step(s, t, e, s');
    StepPreserves(s, s');
    SameLimit(s, t, e, s');
    if MovesMessage(s, t, e) {
      MessageMoves(s, t, e, s');
      CostsBounded(s');
      FewerMessages(Messages(s), Messages(s'), limit, Costs(s), Costs(s'));
    } else {
      CostsFall(s, t, e, s');
    }
  }

  // Registering or unregistering an actor leaves the work as it is; a new actor raises the
  // limit of the costs.
  lemma RegistryKeepsWork(s: State, e: Event, s': State)
    requires Inv(s) && RegistryStep(s, e, s')
    ensures Inv(s') && Messages(s') == Messages(s) && Costs(s') == Costs(s)
    ensures CostLimit(s') == CostLimit(s) + if e.Register? then 9 else 0
    ensures s'.threads == s.threads
  {
    hide SendStep, BatchStep, ReleaseStep, TokenInv, WakeInv, LaneInv, ReadyCost, SameMail;
    RegistryPreserves(s, e, s');
    NewIsEmpty(s, e, s');
    SameThreadCosts(s.actors, s'.actors, s.threads);
    SameIds(s.actors, s'.actors, s.ready, s.nextId);
    if e.Register? {
      assert s.nextId !in s.actors && s.nextId !in s.ready;
      assert multiset(s.ready)[s.nextId] == 0;
    }
  }

  lemma NewIsEmpty(s: State, e: Event, s': State)
    requires WellFormed(s) && RegistryStep(s, e, s')
    ensures SameMail(s.actors, s'.actors)
    ensures Mailbox(s'.actors, s.nextId, true) == [] && Mailbox(s'.actors, s.nextId, false) == []
  {
  }

  lemma SameLimit(s: State, t: nat, e: Event, s': State)
    requires t < |s.threads| && GoesOn(s, t, e, s')
    ensures CostLimit(s') == CostLimit(s) && |s'.threads| == |s.threads|
    ensures forall u :: 0 <= u < |s.threads| ==> s'.threads[u].worker.Off? == s.threads[u].worker.Off?
  {
  }

  // --------------------------------------------------------------------------------------
  // Everything is processed
  // --------------------------------------------------------------------------------------

  predicate IsRegistry(e: Event) {
    e.Register? || e.Unregister?
  }

  // A step of a thread that begins no further Send, or an actor that is registered or
  // unregistered.
  ghost predicate Moves(s: State, act: Act, s': State) {
    if IsRegistry(act.e) then RegistryStep(s, act.e, s')
    else act.t < |s.threads| && GoesOn(s, act.t, act.e, s')
  }

  // A run from s that begins no further Send.
  ghost predicate Continues(s: State, acts: seq<Act>, later: seq<State>) {
    && |later| == |acts| + 1 && later[0] == s
    && forall j :: 0 <= j < |acts| ==> Moves(later[j], acts[j], later[j + 1])
  }

  function ThreadSteps(acts: seq<Act>): nat {
    if acts == [] then 0
    else ThreadSteps(acts[..|acts| - 1]) + if IsRegistry(acts[|acts| - 1].e) then 0 else 1
  }

  function NewActors(acts: seq<Act>): nat {
    if acts == [] then 0
    else NewActors(acts[..|acts| - 1]) + if acts[|acts| - 1].e.Register? then 1 else 0
  }

  lemma {:induction false} FewerAtFirst(acts: seq<Act>, j: nat)
    requires j <= |acts|
    ensures NewActors(acts[..j]) <= NewActors(acts)
  {
    if j == |acts| {
      assert acts[..j] == acts;
    } else {
      assert acts[..|acts| - 1][..j] == acts[..j];
      FewerAtFirst(acts[..|acts| - 1], j);
    }
  }

  lemma {:induction false} WorkRunsOut(s: State, acts: seq<Act>, later: seq<State>, j: nat, limit: nat)
    requires Inv(s) && Continues(s, acts, later) && j <= |acts|
    requires limit == CostLimit(s) + 9 * NewActors(acts)
    ensures Inv(later[j]) && Work(later[j], limit) + ThreadSteps(acts[..j]) <= Work(s, limit)
    ensures CostLimit(later[j]) == CostLimit(s) + 9 * NewActors(acts[..j])
    ensures |later[j].threads| == |s.threads|
    ensures forall u :: 0 <= u < |s.threads| ==> later[j].threads[u].worker.Off? == s.threads[u].worker.Off?
  {
    hide Inv, Work, GoesOn, RegistryStep, CostLimit;
    if j > 0 {
      WorkRunsOut(s, acts, later, j - 1, limit);
      var before, after := later[j - 1], later[j - 1 + 1];
      assert acts[..j][..j - 1] == acts[..j - 1] && Moves(before, acts[j - 1], after);
      FewerAtFirst(acts, j - 1);
      var t, e := acts[j - 1].t, acts[j - 1].e;
      if IsRegistry(e) {
        RegistryMoved(before, e, after, limit);
      } else {
        WorkFalls(before, t, e, after, limit);
        SameLimit(before, t, e, after);
      }
    }
  }

  lemma RegistryMoved(s: State, e: Event, s': State, limit: nat)
    requires Inv(s) && RegistryStep(s, e, s')
    ensures Inv(s') && Work(s', limit) == Work(s, limit) && s'.threads == s.threads
    ensures CostLimit(s') == CostLimit(s) + if e == Register then 9 else 0
  {
    hide Inv, Messages, Costs, CostLimit, RegistryStep;
    RegistryKeepsWork(s, e, s');
  }

  lemma StepMoves(s: State, act: Act, s': State)
    requires Step(s, act.t, act.e, s') && !act.e.SendLookup?
    ensures Moves(s, act, s')
  {
  }

  lemma TraceContinues(run: seq<State>, acts: seq<Act>, n: nat)
    requires IsTrace(run, acts) && n <= |acts|
    requires forall i :: n <= i < |acts| ==> !acts[i].e.SendLookup?
    ensures Continues(run[n], acts[n..], run[n..])
  {
    hide Step, Moves;
    forall j | 0 <= j < |acts[n..]|
      ensures Moves(run[n..][j], acts[n..][j], run[n..][j + 1])
    {
      assert Step(run[n + j], acts[n + j].t, acts[n + j].e, run[n + j + 1]);
      StepMoves(run[n + j], acts[n + j], run[n + j + 1]);
    }
  }

  // In every run in which no Send begins after step n, the threads make at most Work many steps
  // from there, whatever actors are registered and unregistered meanwhile. When no thread can go
  // on, every registered actor has handled exactly the messages that Send accepted for it, in the
  // order in which they entered its mailboxes, and its flag is clear.
  lemma EverythingIsProcessed(run: seq<State>, acts: seq<Act>, n: nat, w: nat, a: ActorId, p: bool)
    requires IsTrace(run, acts) && n <= |acts|
    requires forall i :: n <= i < |acts| ==> !acts[i].e.SendLookup?
    requires w < |run[n].threads| && !run[n].threads[w].worker.Off?
    ensures ThreadSteps(acts[n..]) <= Work(run[n], CostLimit(run[n]) + 9 * NewActors(acts[n..]))
    ensures (forall t: nat :: !CanGoOn(run[|acts|], t)) && a in RegisteredAfter(acts, |acts|) ==>
              && Handled(run, acts, |acts|, a, p) == Entered(run, acts, |acts|, a, p)
              && multiset(Handled(run, acts, |acts|, a, p)) == multiset(Accepted(acts, |acts|, a, p))
              && a in run[|acts|].actors && !run[|acts|].actors[a].scheduled
  {
    hide Inv, Work, CanGoOn, CostLimit, IsTrace, Handled, Entered, Accepted, RegisteredAfter;
    TraceLength(run, acts);
    StepsAreBounded(run, acts, n);
    if (forall t: nat :: !CanGoOn(run[|acts|], t)) && a in RegisteredAfter(acts, |acts|) {
      NothingIsLeft(run, acts, w, a, p);
    }
  }

  lemma StepsAreBounded(run: seq<State>, acts: seq<Act>, n: nat)
    requires IsTrace(run, acts) && n <= |acts|
    requires forall i :: n <= i < |acts| ==> !acts[i].e.SendLookup?
    ensures ThreadSteps(acts[n..]) <= Work(run[n], CostLimit(run[n]) + 9 * NewActors(acts[n..]))
    ensures |run[|acts|].threads| == |run[n].threads|
    ensures forall u :: 0 <= u < |run[n].threads| ==>
              run[|acts|].threads[u].worker.Off? == run[n].threads[u].worker.Off?
  {
    hide Inv, Work, CostLimit, IsTrace, Continues;
    TraceLength(run, acts);
    var rest := acts[n..];
    RunInvAt(run, acts, n);
    TraceContinues(run, acts, n);
    assert |run[n..]| == |rest| + 1 && run[n..][|rest|] == run[|acts|];
    WorkRunsOut(run[n], rest, run[n..], |rest|, CostLimit(run[n]) + 9 * NewActors(rest));
    assert rest[..|rest|] == rest;
    WorkIsNatural(run[|acts|], CostLimit(run[n]) + 9 * NewActors(rest));
  }

  lemma NothingIsLeft(run: seq<State>, acts: seq<Act>, w: nat, a: ActorId, p: bool)
    requires IsTrace(run, acts) && a in RegisteredAfter(acts, |acts|)
    requires w < |run[|acts|].threads| && !run[|acts|].threads[w].worker.Off?
    requires forall t: nat :: !CanGoOn(run[|acts|], t)
    ensures Handled(run, acts, |acts|, a, p) == Entered(run, acts, |acts|, a, p)
    ensures multiset(Handled(run, acts, |acts|, a, p)) == multiset(Accepted(acts, |acts|, a, p))
    ensures a in run[|acts|].actors && !run[|acts|].actors[a].scheduled
  {
    hide Inv, WellFormed, CanGoOn, IsTrace, Quiescent, Handled, Entered, Accepted, RegisteredAfter, Carried;
    TraceLength(run, acts);
    var s := run[|acts|];
    RegistryFollows(run, acts, |acts|);
    RunInvAt(run, acts, |acts|);
    RegisteredExists(s, a);
    IdleMeansProcessed(s, w, a);
    HistoriesAreTrue(run, acts, |acts|, a, p);
    AcceptedAreCarried(run, acts, |acts|, a, p);
    NobodyGoesOn(s, w);
    AllPutDown(s, a, p);
  }

  lemma RegisteredExists(s: State, a: ActorId)
    requires WellFormed(s) && a in s.registered
    ensures a in s.actors
  {
  }

  lemma AllPutDown(s: State, a: ActorId, p: bool)
    requires Quiescent(s)
    ensures Carried(s.threads, a, p) == multiset{}
  {
    NobodyCarries(s.threads, a, p);
  }

  lemma IdleMeansProcessed(s: State, w: nat, a: ActorId)
    requires Inv(s) && w < |s.threads| && !s.threads[w].worker.Off?
    requires forall t: nat :: !CanGoOn(s, t)
    requires a in s.registered && a in s.actors
    ensures s.actors[a].high.pushed == s.actors[a].high.done
    ensures s.actors[a].low.pushed == s.actors[a].low.done
    ensures !s.actors[a].scheduled
  {
    hide CanGoOn;
    NobodyGoesOn(s, w);
    HeldNone(s.threads, a);
    assert multiset(s.ready)[a] == 0;
    assert Tokens(s, a) == 0;
    NothingWaits(s, a, true);
    NothingWaits(s, a, false);
    InFlightNone(s.threads, a, true);
    InFlightNone(s.threads, a, false);
    assert LaneConserved(s, a, true) && LaneConserved(s, a, false);
  }

  lemma NothingWaits(s: State, a: ActorId, p: bool)
    requires WakeInv(s) && Quiescent(s) && a in s.actors && !s.actors[a].scheduled
    ensures s.actors[a].LaneOf(p).queue == []
  {
    if s.actors[a].LaneOf(p).queue != [] {
      assert false;
    }
  }

  // When no thread can go on, all are idle and nothing is ready.
  lemma NobodyGoesOn(s: State, w: nat)
    requires WellFormed(s) && w < |s.threads| && !s.threads[w].worker.Off?
    requires forall t: nat :: !CanGoOn(s, t)
    ensures Quiescent(s) && s.ready == []
  {
    hide CanGoOn, WellFormed;
    forall t | 0 <= t < |s.threads|
      ensures s.threads[t].send.NotSending? && (s.threads[t].worker.Top? || s.threads[t].worker.Off?)
    {
      BusyGoesOn(s, t);
    }
    if s.ready != [] {
      BatchGoesOn(s, w);
    }
  }
}
