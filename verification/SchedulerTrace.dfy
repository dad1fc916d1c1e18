/**
 What a run of the scheduler did, told from its events: which actors were registered, which
 messages were accepted by Send, which entered a mailbox, and which were handled. The histories
 in the state are proved to say the same.
 */
module SchedulerTrace {
  import opened Scheduler

  // One step of a run: the thread and what it did.
  datatype Act = Act(t: nat, e: Event)

  ghost predicate IsTrace(run: seq<State>, acts: seq<Act>) {
    && |run| == |acts| + 1 && Init(run[0])
    && forall i :: 0 <= i < |acts| ==> Step(run[i], acts[i].t, acts[i].e, run[i + 1])
  }

  lemma TraceIsRun(run: seq<State>, acts: seq<Act>)
    requires IsTrace(run, acts)
    ensures IsRun(run)
  {
    hide Step;
    forall i | 0 <= i < |run| - 1
      ensures Next(run[i], run[i + 1])
    {
      assert Step(run[i], acts[i].t, acts[i].e, run[i + 1]);
    }
  }

  // --------------------------------------------------------------------------------------
  // The registry, from events alone
  // --------------------------------------------------------------------------------------

  function NextIdAfter(acts: seq<Act>, i: nat): nat
    requires i <= |acts|
  {
    if i == 0 then 1 else NextIdAfter(acts, i - 1) + if acts[i - 1].e.Register? then 1 else 0
  }

  function RegisteredAfter(acts: seq<Act>, i: nat): set<ActorId>
    requires i <= |acts|
  {
    if i == 0 then {}
    else
      match acts[i - 1].e
      case Register => RegisteredAfter(acts, i - 1) + {NextIdAfter(acts, i - 1)}
      case Unregister(a) => RegisteredAfter(acts, i - 1) - {a}
      case _ => RegisteredAfter(acts, i - 1)
  }

  // Exactly the actors that were registered and not unregistered since are registered, and every
  // id handed out keeps its actor.
  lemma {:induction false} RegistryFollows(run: seq<State>, acts: seq<Act>, i: nat)
    requires IsTrace(run, acts) && i <= |acts|
    ensures run[i].nextId == NextIdAfter(acts, i) && run[i].registered == RegisteredAfter(acts, i)
    ensures forall a :: a in run[i].actors <==> 1 <= a < NextIdAfter(acts, i)
  {
    hide SendStep, BatchStep, ReleaseStep;
    if i > 0 {
      RegistryFollows(run, acts, i - 1);
      assert Step(run[i - 1], acts[i - 1].t, acts[i - 1].e, run[i - 1 + 1]);
      RunInvAt(run, acts, i - 1);
      if !RegistryStep(run[i - 1], acts[i - 1].e, run[i]) {
        ThreadsKeepRegistry(run[i - 1], acts[i - 1].t, acts[i - 1].e, run[i]);
      }
    }
  }

  lemma RunInvAt(run: seq<State>, acts: seq<Act>, i: nat)
    requires IsTrace(run, acts) && i <= |acts|
    ensures Inv(run[i]) && WellFormed(run[i])
  {
    hide Inv, IsTrace, WellFormed;
    assert Inv(run[i]) by {
      hide Inv;
      TraceIsRun(run, acts);
      TraceLength(run, acts);
      RunInv(run, i);
    }
    InvIsWellFormed(run[i]);
  }

  lemma TraceLength(run: seq<State>, acts: seq<Act>)
    requires IsTrace(run, acts)
    ensures |run| == |acts| + 1
  {
  }

  lemma InvIsWellFormed(s: State)
    requires Inv(s)
    ensures WellFormed(s)
  {
  }

  lemma ThreadsKeepRegistry(s: State, t: nat, e: Event, s': State)
    requires WellFormed(s) && t < |s.threads|
    requires SendStep(s, t, e, s') || BatchStep(s, t, e, s') || ReleaseStep(s, t, e, s')
    ensures s'.nextId == s.nextId && s'.registered == s.registered && s'.actors.Keys == s.actors.Keys
    ensures !e.Register? && !e.Unregister?
  {
    if SendStep(s, t, e, s') {
      KeepsRegistryInSend(s, t, e, s');
    } else if BatchStep(s, t, e, s') {
      BatchMoves(s, t, e, s');
    } else {
      ReleaseMoves(s, t, e, s');
    }
  }

  lemma KeepsRegistryInSend(s: State, t: nat, e: Event, s': State)
    requires WellFormed(s) && t < |s.threads| && SendStep(s, t, e, s')
    ensures s'.nextId == s.nextId && s'.registered == s.registered && s'.actors.Keys == s.actors.Keys
  {
    if !(e.SendLookup? && e.to !in s.registered) {
      SendMoves(s, t, e, s');
    }
  }

  // --------------------------------------------------------------------------------------
  // The messages
  // --------------------------------------------------------------------------------------

  // A message accepted in this step: a Send found its actor registered.
  function AcceptedIn(acts: seq<Act>, i: nat, a: ActorId, p: bool): seq<Message>
    requires i < |acts|
  {
    var e := acts[i].e;
    if e.SendLookup? && e.to == a && e.m.priority == p && a in RegisteredAfter(acts, i) then [e.m] else []
  }

  // The message that the thread of this step carries into the mailbox.
  function EnteredIn(s: State, act: Act, a: ActorId, p: bool): seq<Message> {
    if act.e.SendEnqueue? && act.t < |s.threads| then CarriedBy(s.threads[act.t], a, p) else []
  }

  function CarriedBy(th: Thread, a: ActorId, p: bool): seq<Message> {
    if th.send.Found? && th.send.a == a && th.send.m.priority == p then [th.send.m] else []
  }

  // The message whose handler returns or throws in this step.
  function HandledIn(s: State, act: Act, a: ActorId, p: bool): seq<Message> {
    if (act.e.HandlerReturns? || act.e.HandlerThrows?) && act.t < |s.threads| then Share(s.threads[act.t], a, p) else []
  }

  // Of one priority class of an actor: everything that Send accepted, that entered a mailbox,
  // and that was handled, in the order of the steps.
  function Accepted(acts: seq<Act>, i: nat, a: ActorId, p: bool): seq<Message>
    requires i <= |acts|
  {
    if i == 0 then [] else Accepted(acts, i - 1, a, p) + AcceptedIn(acts, i - 1, a, p)
  }

  function Entered(run: seq<State>, acts: seq<Act>, i: nat, a: ActorId, p: bool): seq<Message>
    requires i <= |acts| < |run|
  {
    if i == 0 then [] else Entered(run, acts, i - 1, a, p) + EnteredIn(run[i - 1], acts[i - 1], a, p)
  }

  function Handled(run: seq<State>, acts: seq<Act>, i: nat, a: ActorId, p: bool): seq<Message>
    requires i <= |acts| < |run|
  {
    if i == 0 then [] else Handled(run, acts, i - 1, a, p) + HandledIn(run[i - 1], acts[i - 1], a, p)
  }

  // The messages that threads are carrying to a mailbox.
  function Carried(threads: seq<Thread>, a: ActorId, p: bool): multiset<Message> {
    if threads == [] then multiset{} else multiset(CarriedBy(threads[0], a, p)) + Carried(threads[1..], a, p)
  }

  function LaneIn(s: State, a: ActorId, p: bool): Lane {
    if a in s.actors then s.actors[a].LaneOf(p) else Lane([], [], [])
  }

  // --------------------------------------------------------------------------------------
  // One step
  // --------------------------------------------------------------------------------------

  // The histories of every mailbox grow by what this step enters and handles.
  ghost predicate LanesGrow(s: State, act: Act, s': State, a: ActorId, p: bool) {
    && LaneIn(s', a, p).pushed == LaneIn(s, a, p).pushed + EnteredIn(s, act, a, p)
    && LaneIn(s', a, p).done == LaneIn(s, a, p).done + HandledIn(s, act, a, p)
  }

  lemma SendGrows(s: State, t: nat, e: Event, s': State, a: ActorId, p: bool)
    requires WellFormed(s) && t < |s.threads| && SendStep(s, t, e, s')
    ensures LanesGrow(s, Act(t, e), s', a, p)
  {
    assert ThreadOk(s.threads[t], s.actors.Keys);
  }

  lemma BatchGrows(s: State, t: nat, e: Event, s': State, a: ActorId, p: bool)
    requires WellFormed(s) && t < |s.threads| && BatchStep(s, t, e, s')
    ensures LanesGrow(s, Act(t, e), s', a, p)
  {
    assert ThreadOk(s.threads[t], s.actors.Keys);
  }

  lemma ReleaseGrows(s: State, t: nat, e: Event, s': State, a: ActorId, p: bool)
    requires WellFormed(s) && t < |s.threads| && ReleaseStep(s, t, e, s')
    ensures LanesGrow(s, Act(t, e), s', a, p)
  {
    assert ThreadOk(s.threads[t], s.actors.Keys);
  }

  lemma RegistryGrows(s: State, t: nat, e: Event, s': State, a: ActorId, p: bool)
    requires WellFormed(s) && RegistryStep(s, e, s')
    ensures LanesGrow(s, Act(t, e), s', a, p)
  {
    assert e.Register? ==> s.nextId !in s.actors;
  }

  lemma StepGrows(s: State, t: nat, e: Event, s': State, a: ActorId, p: bool)
    requires WellFormed(s) && Step(s, t, e, s')
    ensures LanesGrow(s, Act(t, e), s', a, p)
  {
    hide RegistryStep, SendStep, BatchStep, ReleaseStep, LanesGrow, WellFormed;
    if RegistryStep(s, e, s') {
      RegistryGrows(s, t, e, s', a, p);
    } else if SendStep(s, t, e, s') {
      SendGrows(s, t, e, s', a, p);
    } else if BatchStep(s, t, e, s') {
      BatchGrows(s, t, e, s', a, p);
    } else {
      ReleaseGrows(s, t, e, s', a, p);
    }
  }

  lemma {:induction false} CarriedUpdate(threads: seq<Thread>, t: nat, th: Thread, a: ActorId, p: bool)
    requires t < |threads|
    ensures Carried(threads[t := th], a, p) + multiset(CarriedBy(threads[t], a, p))
            == Carried(threads, a, p) + multiset(CarriedBy(th, a, p))
  {
    hide CarriedBy;
    if t == 0 {
      assert threads[t := th][1..] == threads[1..];
    } else {
      assert threads[t := th][1..] == threads[1..][t - 1 := th];
      CarriedUpdate(threads[1..], t - 1, th, a, p);
      AddsBoth(multiset(CarriedBy(threads[0], a, p)), Carried(threads[1..][t - 1 := th], a, p),
               multiset(CarriedBy(threads[t], a, p)), Carried(threads[1..], a, p), multiset(CarriedBy(th, a, p)));
    }
  }

  lemma AddsBoth<T>(head: multiset<T>, x: multiset<T>, u: multiset<T>, y: multiset<T>, v: multiset<T>)
    requires x + u == y + v
    ensures head + x + u == head + y + v
  {
    assert head + x + u == head + (x + u);
    assert head + y + v == head + (y + v);
  }

  // What was accepted is what entered or is carried, before and after one step.
  lemma StillBalanced(accepted: seq<Message>, more: seq<Message>, entered: seq<Message>, put: seq<Message>,
                      carried: multiset<Message>, carried': multiset<Message>)
    requires multiset(accepted) == multiset(entered) + carried
    requires multiset(put) + carried' == carried + multiset(more)
    ensures multiset(accepted + more) == multiset(entered + put) + carried'
  {
    assert multiset(entered) + multiset(put) + carried' == multiset(entered) + (multiset(put) + carried');
  }

  // A thread starts to carry what Send accepts, and puts down what it enters.
  ghost predicate Carries(s: State, act: Act, s': State, a: ActorId, p: bool) {
    var e := act.e;
    var accepted := if e.SendLookup? && e.to == a && e.m.priority == p && a in s.registered then [e.m] else [];
    multiset(EnteredIn(s, act, a, p)) + Carried(s'.threads, a, p) == Carried(s.threads, a, p) + multiset(accepted)
  }

  lemma SendCarries(s: State, t: nat, e: Event, s': State, a: ActorId, p: bool)
    requires t < |s.threads| && SendStep(s, t, e, s')
    ensures Carries(s, Act(t, e), s', a, p)
  {
    if e.SendLookup? && e.to !in s.registered {
      return;
    }
    assert s'.threads == s.threads[t := s'.threads[t]];
    CarriedUpdate(s.threads, t, s'.threads[t], a, p);
  }

  lemma WorkCarries(s: State, t: nat, e: Event, s': State, a: ActorId, p: bool)
    requires t < |s.threads| && (BatchStep(s, t, e, s') || ReleaseStep(s, t, e, s'))
    ensures Carries(s, Act(t, e), s', a, p)
  {
    if BatchStep(s, t, e, s') {
      BatchKeepsSend(s, t, e, s');
    } else {
      ReleaseKeepsSend(s, t, e, s');
    }
    CarriedUpdate(s.threads, t, s'.threads[t], a, p);
  }

  lemma BatchKeepsSend(s: State, t: nat, e: Event, s': State)
    requires t < |s.threads| && BatchStep(s, t, e, s')
    ensures |s'.threads| == |s.threads| && s'.threads == s.threads[t := s'.threads[t]]
    ensures s'.threads[t].send == s.threads[t].send && !e.SendLookup? && !e.SendEnqueue?
  {
  }

  lemma ReleaseKeepsSend(s: State, t: nat, e: Event, s': State)
    requires t < |s.threads| && ReleaseStep(s, t, e, s')
    ensures |s'.threads| == |s.threads| && s'.threads == s.threads[t := s'.threads[t]]
    ensures s'.threads[t].send == s.threads[t].send && !e.SendLookup? && !e.SendEnqueue?
  {
  }

  lemma StepCarries(s: State, t: nat, e: Event, s': State, a: ActorId, p: bool)
    requires Step(s, t, e, s')
    ensures Carries(s, Act(t, e), s', a, p)
  {
    hide SendStep, BatchStep, ReleaseStep;
    if RegistryStep(s, e, s') {
    } else if SendStep(s, t, e, s') {
      SendCarries(s, t, e, s', a, p);
    } else {
      WorkCarries(s, t, e, s', a, p);
    }
  }

  // --------------------------------------------------------------------------------------
  // Whole runs
  // --------------------------------------------------------------------------------------

  // What was pushed to a mailbox is what threads carried into it, and what is done is what
  // handlers were run for.
  lemma {:induction false} HistoriesAreTrue(run: seq<State>, acts: seq<Act>, i: nat, a: ActorId, p: bool)
    requires IsTrace(run, acts) && i <= |acts|
    ensures LaneIn(run[i], a, p).pushed == Entered(run, acts, i, a, p)
    ensures LaneIn(run[i], a, p).done == Handled(run, acts, i, a, p)
  {
    hide Step, WellFormed, EnteredIn, HandledIn;
    if i > 0 {
      HistoriesAreTrue(run, acts, i - 1, a, p);
      RunInvAt(run, acts, i - 1);
      assert Step(run[i - 1], acts[i - 1].t, acts[i - 1].e, run[i - 1 + 1]);
      StepGrows(run[i - 1], acts[i - 1].t, acts[i - 1].e, run[i], a, p);
    }
  }

  // No accepted message is lost or made up on its way into the mailbox.
  lemma {:induction false} AcceptedAreCarried(run: seq<State>, acts: seq<Act>, i: nat, a: ActorId, p: bool)
    requires IsTrace(run, acts) && i <= |acts|
    ensures multiset(Accepted(acts, i, a, p)) == multiset(Entered(run, acts, i, a, p)) + Carried(run[i].threads, a, p)
  {
    hide Step, EnteredIn, Carried;
    if i > 0 {
      AcceptedAreCarried(run, acts, i - 1, a, p);
      assert Step(run[i - 1], acts[i - 1].t, acts[i - 1].e, run[i - 1 + 1]);
      StepCarries(run[i - 1], acts[i - 1].t, acts[i - 1].e, run[i], a, p);
      RegistryFollows(run, acts, i - 1);
      StillBalanced(Accepted(acts, i - 1, a, p), AcceptedIn(acts, i - 1, a, p),
                    Entered(run, acts, i - 1, a, p), EnteredIn(run[i - 1], acts[i - 1], a, p),
                    Carried(run[i - 1].threads, a, p), Carried(run[i].threads, a, p));
    } else {
      NobodyCarries(run[0].threads, a, p);
    }
  }

  lemma {:induction false} NobodyCarries(threads: seq<Thread>, a: ActorId, p: bool)
    requires forall t :: 0 <= t < |threads| ==> threads[t].send.NotSending?
    ensures Carried(threads, a, p) == multiset{}
  {
    if threads != [] {
      NobodyCarries(threads[1..], a, p);
    }
  }

  lemma {:induction false} EnteredHavePriority(run: seq<State>, acts: seq<Act>, i: nat, a: ActorId, p: bool)
    requires i <= |acts| < |run|
    ensures forall m :: m in Entered(run, acts, i, a, p) ==> m.priority == p
  {
    if i > 0 {
      EnteredHavePriority(run, acts, i - 1, a, p);
    }
  }

  // Per class, every message that Send accepted for a registered actor is on its way into the
  // mailbox of that class or entered it; and those that entered were handled, in the order in
  // which they entered, except for at most one in process and those still queued.
  lemma FifoPerClass(run: seq<State>, acts: seq<Act>, i: nat, a: ActorId, p: bool)
    requires IsTrace(run, acts) && i <= |acts| && 1 <= a < NextIdAfter(acts, i)
    ensures a in run[i].actors
    ensures multiset(Accepted(acts, i, a, p)) == multiset(Entered(run, acts, i, a, p)) + Carried(run[i].threads, a, p)
    ensures var current := InFlight(run[i].threads, a, p);
            && Entered(run, acts, i, a, p) == Handled(run, acts, i, a, p) + current + run[i].actors[a].LaneOf(p).queue
            && |current| <= 1
    ensures forall m :: m in Entered(run, acts, i, a, p) ==> m.priority == p
  {
    RegistryFollows(run, acts, i);
    AcceptedAreCarried(run, acts, i, a, p);
    HistoriesAreTrue(run, acts, i, a, p);
    EnteredHavePriority(run, acts, i, a, p);
    TraceIsRun(run, acts);
    LanesAreConserved(run, i, a, p);
  }

  // --------------------------------------------------------------------------------------
  // Turns and the ready queue
  // --------------------------------------------------------------------------------------

  // A worker goes on with its turn after every handler that returns, up to the 64th message, and
  // ends it after that one and after a handler that throws.
  lemma TurnGoesOn(run: seq<State>, acts: seq<Act>, i: nat)
    requires IsTrace(run, acts) && i < |acts| && (acts[i].e.HandlerReturns? || acts[i].e.HandlerThrows?)
    ensures var t := acts[i].t;
            && t < |run[i].threads| && t < |run[i + 1].threads| && run[i].threads[t].worker.Handling?
            && var before, after := run[i].threads[t].worker, run[i + 1].threads[t].worker;
            && 1 <= |before.taken| <= 64
            && (acts[i].e.HandlerReturns? && |before.taken| < 64 ==> after == TakingPriority(before.a, before.taken))
            && (acts[i].e.HandlerThrows? || |before.taken| == 64 ==> after == CheckingPriority(before.a))
  {
    assert Step(run[i], acts[i].t, acts[i].e, run[i + 1]);
    HandledIsTaken(run, acts, i, acts[i].t);
    TurnStep(run[i], acts[i].t, acts[i].e, run[i + 1]);
  }

  lemma TurnStep(s: State, t: nat, e: Event, s': State)
    requires Step(s, t, e, s') && (e.HandlerReturns? || e.HandlerThrows?)
    requires t < |s.threads| && s.threads[t].worker.Handling? ==> 1 <= |s.threads[t].worker.taken| <= 64
    ensures t < |s.threads| && t < |s'.threads| && s.threads[t].worker.Handling?
    ensures var before, after := s.threads[t].worker, s'.threads[t].worker;
            && (e.HandlerReturns? && |before.taken| < 64 ==> after == TakingPriority(before.a, before.taken))
            && (e.HandlerThrows? || |before.taken| == 64 ==> after == CheckingPriority(before.a))
  {
  }

  // Whoever handles a message has taken it, and at most 64.
  lemma {:induction false} HandledIsTaken(run: seq<State>, acts: seq<Act>, i: nat, t: nat)
    requires IsTrace(run, acts) && i <= |acts|
    ensures t < |run[i].threads| && run[i].threads[t].worker.Handling? ==> 1 <= |run[i].threads[t].worker.taken| <= 64
  {
    hide Step, Inv, WellFormed;
    RunInvAt(run, acts, i);
    if t < |run[i].threads| {
      ThreadIsOk(run[i], t);
    }
    if i > 0 {
      HandledIsTaken(run, acts, i - 1, t);
      assert Step(run[i - 1], acts[i - 1].t, acts[i - 1].e, run[i - 1 + 1]);
      if t < |run[i].threads| && run[i].threads[t].worker.Handling? {
        TakenStep(run[i - 1], acts[i - 1].t, acts[i - 1].e, run[i], t);
      }
    }
  }

  lemma ThreadIsOk(s: State, t: nat)
    requires WellFormed(s) && t < |s.threads|
    ensures s.threads[t].worker.Handling? ==> |s.threads[t].worker.taken| <= 64
  {
    assert ThreadOk(s.threads[t], s.actors.Keys);
  }

  lemma TakenStep(s: State, u: nat, e: Event, s': State, t: nat)
    requires Step(s, u, e, s') && t < |s'.threads| && s'.threads[t].worker.Handling?
    requires t < |s.threads| && s.threads[t].worker.Handling? ==> 1 <= |s.threads[t].worker.taken|
    ensures 1 <= |s'.threads[t].worker.taken|
  {
    hide SendStep, BatchStep, ReleaseStep, RegistryStep;
    if RegistryStep(s, e, s') {
      RegistryMovesNobody(s, e, s');
    } else if SendStep(s, u, e, s') {
      SendMovesNoWorker(s, u, e, s', t);
    } else if BatchStep(s, u, e, s') {
      BatchTakes(s, u, e, s', t);
    } else {
      ReleaseHandlesNothing(s, u, e, s', t);
    }
  }

  lemma BatchTakes(s: State, u: nat, e: Event, s': State, t: nat)
    requires u < |s.threads| && BatchStep(s, u, e, s') && t < |s'.threads| && s'.threads[t].worker.Handling?
    requires t < |s.threads| && s.threads[t].worker.Handling? ==> 1 <= |s.threads[t].worker.taken|
    ensures 1 <= |s'.threads[t].worker.taken|
  {
    if t != u {
      assert s'.threads[t] == s.threads[t];
    }
  }

  lemma ReleaseHandlesNothing(s: State, u: nat, e: Event, s': State, t: nat)
    requires u < |s.threads| && ReleaseStep(s, u, e, s') && t < |s'.threads| && s'.threads[t].worker.Handling?
    ensures t < |s.threads| && s'.threads[t] == s.threads[t]
  {
  }

  // The id that a step puts into the ready queue, and the one it takes out.
  function MadeReady(s: State, act: Act): seq<ActorId> {
    if act.t >= |s.threads| then []
    else
      var th := s.threads[act.t];
      match act.e
      case SendReady => if th.send.AtPush? then [th.send.a] else []
      case Requeue => if th.worker.Requeueing? then [th.worker.a] else []
      case RetryPush => if th.worker.RetryingPush? then [th.worker.a] else []
      case _ => []
  }

  function TakenUp(s': State, act: Act): seq<ActorId> {
    if act.e.PopReady? && act.t < |s'.threads| && s'.threads[act.t].worker.Popped? then [s'.threads[act.t].worker.a]
    else []
  }

  function AllMadeReady(run: seq<State>, acts: seq<Act>, i: nat): seq<ActorId>
    requires i <= |acts| < |run|
  {
    if i == 0 then [] else AllMadeReady(run, acts, i - 1) + MadeReady(run[i - 1], acts[i - 1])
  }

  function AllTakenUp(run: seq<State>, acts: seq<Act>, i: nat): seq<ActorId>
    requires i <= |acts| < |run|
  {
    if i == 0 then [] else AllTakenUp(run, acts, i - 1) + TakenUp(run[i], acts[i - 1])
  }

  // Workers take actors up in the order in which they became ready: nobody is overtaken.
  lemma {:induction false} ReadyInOrder(run: seq<State>, acts: seq<Act>, i: nat)
    requires IsTrace(run, acts) && i <= |acts|
    ensures AllMadeReady(run, acts, i) == AllTakenUp(run, acts, i) + run[i].ready
  {
    hide Step, MadeReady, TakenUp;
    if i > 0 {
      ReadyInOrder(run, acts, i - 1);
      var s, act, s' := run[i - 1], acts[i - 1], run[i - 1 + 1];
      assert Step(s, act.t, act.e, s');
      ReadyStep(s, act.t, act.e, s');
      var up := AllTakenUp(run, acts, i - 1);
      assert up + s.ready + MadeReady(s, act) == up + (s.ready + MadeReady(s, act));
      assert up + (TakenUp(s', act) + s'.ready) == up + TakenUp(s', act) + s'.ready;
    }
  }

  lemma ReadyStep(s: State, t: nat, e: Event, s': State)
    requires Step(s, t, e, s')
    ensures s.ready + MadeReady(s, Act(t, e)) == TakenUp(s', Act(t, e)) + s'.ready
  {
    hide SendStep, BatchStep, ReleaseStep, RegistryStep, MadeReady, TakenUp;
    if RegistryStep(s, e, s') {
      RegistryReady(s, t, e, s');
    } else if SendStep(s, t, e, s') {
      SendReadies(s, t, e, s');
    } else if BatchStep(s, t, e, s') {
      BatchReadies(s, t, e, s');
    } else {
      ReleaseReadies(s, t, e, s');
    }
  }

  lemma RegistryReady(s: State, t: nat, e: Event, s': State)
    requires RegistryStep(s, e, s')
    ensures s.ready + MadeReady(s, Act(t, e)) == TakenUp(s', Act(t, e)) + s'.ready
  {
  }

  lemma SendReadies(s: State, t: nat, e: Event, s': State)
    requires t < |s.threads| && SendStep(s, t, e, s')
    ensures s.ready + MadeReady(s, Act(t, e)) == TakenUp(s', Act(t, e)) + s'.ready
  {
  }

  lemma BatchReadies(s: State, t: nat, e: Event, s': State)
    requires t < |s.threads| && BatchStep(s, t, e, s')
    ensures s.ready + MadeReady(s, Act(t, e)) == TakenUp(s', Act(t, e)) + s'.ready
  {
    if e.PopReady? {
      assert s.ready == [s.ready[0]] + s.ready[1..];
    }
  }

  lemma ReleaseReadies(s: State, t: nat, e: Event, s': State)
    requires t < |s.threads| && ReleaseStep(s, t, e, s')
    ensures s.ready + MadeReady(s, Act(t, e)) == TakenUp(s', Act(t, e)) + s'.ready
  {
  }

  // Any thread outside the scheduler, and any handler, can begin a Send to anyone at any time, and
  // actors can always be registered and unregistered.
  lemma AnyoneCanSend(s: State, t: nat, to: ActorId, m: Message)
    requires t < |s.threads| && s.threads[t].send.NotSending?
    requires s.threads[t].worker.Off? || s.threads[t].worker.Handling?
    ensures exists s' :: Step(s, t, SendLookup(to, m), s')
    ensures exists s' :: Step(s, t, Register, s')
    ensures exists s' :: Step(s, t, Unregister(to), s')
  {
    hide ReleaseStep, BatchStep;
    assert Step(s, t, SendLookup(to, m), if to in s.registered then SetSend(s, t, Found(to, m)) else s);
    assert Step(s, t, Register, s.(nextId := s.nextId + 1, registered := s.registered + {s.nextId},
                                   actors := s.actors[s.nextId := EmptyActor()]));
    assert Step(s, t, Unregister(to), s.(registered := s.registered - {to}));
  }
}
