/**
 The task queue of EventLoop and its wake-up by eventfd, run by the loop thread and any number
 of producer threads. One step is one critical section, one system call or one task.
 */
module EventLoop {

  // Who queued a task: another thread, a callback of a file descriptor, or a pending task. The
  // last two run in the loop thread and do not write the eventfd.
  datatype Origin = External | FromCallback | FromTask

  datatype Task = Task(id: nat, origin: Origin)

  datatype LoopPc =
    | AtTop
    | Waiting
    | Dispatching(wakeFired: bool)
    | AtSwap
    | Running(rest: seq<Task>)
    | Executing(rest: seq<Task>)
    | Exited

  // A producer between its enqueue (or its stop request) and its write of the eventfd.
  datatype ProducerPc = Idle | MustWake

  // `counter` is the eventfd. `enqueued` and `executed` are histories of all tasks.
  datatype State = State(
    pending: seq<Task>,
    counter: nat,
    stop: bool,
    loop: LoopPc,
    producers: seq<ProducerPc>,
    enqueued: seq<Task>,
    executed: seq<Task>)

  datatype Event =
    | Produce(t: nat, id: nat)
    | RequestStop(t: nat)
    | Wakeup(t: nat)
    | CheckStop
    | WaitReturns(wake: bool)
    | WaitInterrupted
    | WaitFails
    | HandleWakeup
    | CallbackQueues(id: nat)
    | DispatchEnds
    | Swap
    | TaskBegins
    | TaskQueues(id: nat)
    | TaskEnds
    | BatchEnds

  function Enqueue(s: State, t: Task): State {
    s.(pending := s.pending + [t], enqueued := s.enqueued + [t])
  }

  // The producers: QueueInLoop from another thread, and Stop.
  ghost predicate ProducerStep(s: State, e: Event, s': State) {
    match e
    case Produce(t, id) =>
      && t < |s.producers| && s.producers[t].Idle?
      && s' == Enqueue(s, Task(id, External)).(producers := s.producers[t := MustWake])
    case RequestStop(t) =>
      && t < |s.producers| && s.producers[t].Idle? && !s.stop
      && s' == s.(stop := true, producers := s.producers[t := MustWake])
    case Wakeup(t) =>
      && t < |s.producers| && s.producers[t].MustWake?
      && s' == s.(counter := s.counter + 1, producers := s.producers[t := Idle])
    case _ => false
  }

  // The loop thread: run and runPendingTasks. The eventfd is level-triggered, and a poll with
  // many events need not report it at once.
  ghost predicate LoopStep(s: State, e: Event, s': State) {
    match e
    case CheckStop => s.loop.AtTop? && s' == s.(loop := if s.stop then Exited else Waiting)
    case WaitReturns(wake) => s.loop.Waiting? && (wake ==> s.counter > 0) && s' == s.(loop := Dispatching(wake))
    case WaitInterrupted => s.loop.Waiting? && s' == s.(loop := AtTop)
    case WaitFails => s.loop.Waiting? && s' == s.(loop := Exited)
    case HandleWakeup => s.loop == Dispatching(true) && s' == s.(counter := 0, loop := Dispatching(false))
    case CallbackQueues(id) => s.loop.Dispatching? && s' == Enqueue(s, Task(id, FromCallback))
    case DispatchEnds => s.loop == Dispatching(false) && s' == s.(loop := AtSwap)
    case Swap => s.loop.AtSwap? && s' == s.(pending := [], loop := Running(s.pending))
    case TaskBegins =>
      && s.loop.Running? && s.loop.rest != []
      && s' == s.(executed := s.executed + [s.loop.rest[0]], loop := Executing(s.loop.rest[1..]))
    case TaskQueues(id) => s.loop.Executing? && s' == Enqueue(s, Task(id, FromTask))
    case TaskEnds => s.loop.Executing? && s' == s.(loop := Running(s.loop.rest))
    case BatchEnds => s.loop == Running([]) && s' == s.(loop := AtTop)
    case _ => false
  }

  ghost predicate Step(s: State, e: Event, s': State) {
    ProducerStep(s, e, s') || LoopStep(s, e, s')
  }

  ghost predicate Init(s: State) {
    && s.pending == [] && s.counter == 0 && !s.stop && s.loop == AtTop
    && s.enqueued == [] && s.executed == []
    && forall t :: 0 <= t < |s.producers| ==> s.producers[t].Idle?
  }

  ghost predicate IsRun(run: seq<State>, events: seq<Event>) {
    && |run| == |events| + 1
    && Init(run[0])
    && forall i :: 0 <= i < |events| ==> Step(run[i], events[i], run[i + 1])
  }

  // --------------------------------------------------------------------------------------
  // Invariants
  // --------------------------------------------------------------------------------------

  // The swapped-out tasks that have not begun.
  function Batch(s: State): seq<Task> {
    if s.loop.Running? || s.loop.Executing? then s.loop.rest else []
  }

  ghost predicate Fifo(s: State) {
    s.enqueued == s.executed + Batch(s) + s.pending
  }

  // The loop will come back from Wait: the eventfd is readable, or a producer is about to make
  // it so.
  ghost predicate Alerted(s: State) {
    s.counter > 0 || exists t :: 0 <= t < |s.producers| && s.producers[t].MustWake?
  }

  ghost predicate BeforeSwap(pc: LoopPc) {
    pc.Dispatching? || pc.AtSwap?
  }

  ghost predicate WakeInv(s: State) {
    && (forall i :: 0 <= i < |s.pending| && s.pending[i].origin.External? ==>
           Alerted(s) || BeforeSwap(s.loop) || s.loop.Exited?)
    && (forall i :: 0 <= i < |s.pending| && s.pending[i].origin.FromCallback? ==> BeforeSwap(s.loop))
    && (s.stop && s.loop.Waiting? ==> Alerted(s))
  }

  ghost predicate Inv(s: State) {
    Fifo(s) && WakeInv(s)
  }

  lemma AlertedKept(s: State, s': State)
    requires Alerted(s) && s'.counter >= s.counter && s'.producers == s.producers
    ensures Alerted(s')
  {
  }

  lemma ProducerAlerts(s: State, e: Event, s': State)
    requires ProducerStep(s, e, s')
    ensures Alerted(s')
  {
    match e {
      case Produce(t, _) => assert s'.producers[t].MustWake?;
      case RequestStop(t) => assert s'.producers[t].MustWake?;
      case Wakeup(t) =>
    }
  }

  lemma StepKeepsFifo(s: State, e: Event, s': State)
    requires Fifo(s) && Step(s, e, s')
    ensures Fifo(s')
  {
    if e.TaskBegins? {
      FirstMoves(s.executed, s.loop.rest, s.pending);
    } else if s'.enqueued != s.enqueued {
      LastJoins(s.executed, Batch(s), s.pending, s'.pending[|s.pending|]);
    }
  }

  lemma FirstMoves(done: seq<Task>, rest: seq<Task>, pending: seq<Task>)
    requires rest != []
    ensures done + rest + pending == done + [rest[0]] + rest[1..] + pending
  {
  }

  lemma LastJoins(done: seq<Task>, rest: seq<Task>, pending: seq<Task>, t: Task)
    ensures done + rest + pending + [t] == done + rest + (pending + [t])
  {
  }

  lemma StepKeepsWake(s: State, e: Event, s': State)
    requires WakeInv(s) && Step(s, e, s')
    ensures WakeInv(s')
  {
    if ProducerStep(s, e, s') {
      ProducerAlerts(s, e, s');
    } else if Alerted(s) && !e.HandleWakeup? {
      AlertedKept(s, s');
    }
  }

  lemma {:induction false} RunInv(run: seq<State>, events: seq<Event>, i: nat)
    requires IsRun(run, events) && i < |run|
    ensures Inv(run[i])
  {
    if i > 0 {
      RunInv(run, events, i - 1);
      StepKeepsFifo(run[i - 1], events[i - 1], run[i]);
      StepKeepsWake(run[i - 1], events[i - 1], run[i]);
    }
  }

  // --------------------------------------------------------------------------------------
  // Safety over whole runs
  // --------------------------------------------------------------------------------------

  // The tasks queued by these events, in order and with who queued them.
  function QueuedBy(events: seq<Event>): seq<Task> {
    if events == [] then []
    else
      QueuedBy(events[..|events| - 1]) +
      match events[|events| - 1]
      case Produce(_, id) => [Task(id, External)]
      case CallbackQueues(id) => [Task(id, FromCallback)]
      case TaskQueues(id) => [Task(id, FromTask)]
      case _ => []
  }

  function Begun(events: seq<Event>): nat {
    if events == [] then 0 else Begun(events[..|events| - 1]) + if events[|events| - 1].TaskBegins? then 1 else 0
  }

  lemma StepQueues(s: State, e: Event, s': State)
    requires Step(s, e, s')
    ensures s'.enqueued == s.enqueued + match e
                                        case Produce(_, id) => [Task(id, External)]
                                        case CallbackQueues(id) => [Task(id, FromCallback)]
                                        case TaskQueues(id) => [Task(id, FromTask)]
                                        case _ => []
    ensures |s'.executed| == |s.executed| + if e.TaskBegins? then 1 else 0
  {
  }

  lemma {:induction false} HistoriesAreTrue(run: seq<State>, events: seq<Event>, i: nat)
    requires IsRun(run, events) && i < |run|
    ensures run[i].enqueued == QueuedBy(events[..i]) && |run[i].executed| == Begun(events[..i])
  {
    hide Step;
    if i > 0 {
      HistoriesAreTrue(run, events, i - 1);
      assert Step(run[i - 1], events[i - 1], run[i - 1 + 1]);
      assert events[..i][..i - 1] == events[..i - 1];
      StepQueues(run[i - 1], events[i - 1], run[i]);
    }
  }

  // The tasks that have begun are the first ones that were queued, by whomever, in that order;
  // the others are in the swapped batch and then pending.
  lemma TasksRunInOrder(run: seq<State>, events: seq<Event>, i: nat)
    requires IsRun(run, events) && i < |run|
    ensures QueuedBy(events[..i]) == run[i].executed + Batch(run[i]) + run[i].pending
    ensures |run[i].executed| == Begun(events[..i])
  {
    RunInv(run, events, i);
    HistoriesAreTrue(run, events, i);
  }

  // The loop never blocks on a task from another thread or from a callback, nor on a stop
  // request, unless it is about to be woken.
  lemma WaitsOnlyWhenAlerted(run: seq<State>, events: seq<Event>, i: nat)
    requires IsRun(run, events) && i < |run| && run[i].loop.Waiting?
    requires run[i].stop || exists k :: 0 <= k < |run[i].pending| && !run[i].pending[k].origin.FromTask?
    ensures Alerted(run[i])
  {
    RunInv(run, events, i);
  }

  // A stop request stays, and the loop ends exactly when it looks for one and finds it, or when
  // waiting fails.
  lemma StopEndsLoop(run: seq<State>, events: seq<Event>, i: nat)
    requires IsRun(run, events) && i < |events|
    ensures run[i].stop || events[i].RequestStop? <==> run[i + 1].stop
    ensures events[i].CheckStop? ==> (run[i + 1].loop.Exited? <==> run[i].stop)
    ensures run[i + 1].loop.Exited? && !run[i].loop.Exited? ==> events[i].CheckStop? || events[i].WaitFails?
    ensures run[i].loop.Exited? ==> run[i + 1].loop.Exited?
  {
    assert Step(run[i], events[i], run[i + 1]);
  }

  // Whatever the loop does, an idle producer can queue a task or ask it to stop; and callbacks and
  // tasks can queue more.
  lemma AnyoneCanQueue(s: State, t: nat, id: nat)
    requires t < |s.producers| && s.producers[t].Idle?
    ensures exists s' :: Step(s, Produce(t, id), s')
    ensures !s.stop ==> exists s' :: Step(s, RequestStop(t), s')
    ensures s.loop.Dispatching? ==> exists s' :: Step(s, CallbackQueues(id), s')
    ensures s.loop.Executing? ==> exists s' :: Step(s, TaskQueues(id), s')
  {
    assert Step(s, Produce(t, id), Enqueue(s, Task(id, External)).(producers := s.producers[t := MustWake]));
    if !s.stop {
      assert Step(s, RequestStop(t), s.(stop := true, producers := s.producers[t := MustWake]));
    }
    if s.loop.Dispatching? {
      assert Step(s, CallbackQueues(id), Enqueue(s, Task(id, FromCallback)));
    }
    if s.loop.Executing? {
      assert Step(s, TaskQueues(id), Enqueue(s, Task(id, FromTask)));
    }
  }

  // Seen from the other side: whatever waits while the loop sleeps unalerted was queued by tasks.
  lemma UnalertedLeftoversAreFromTasks(run: seq<State>, events: seq<Event>, i: nat)
    requires IsRun(run, events) && i < |run| && run[i].loop.Waiting? && !Alerted(run[i])
    ensures forall k :: 0 <= k < |run[i].pending| ==> run[i].pending[k].origin.FromTask?
    ensures !run[i].stop
  {
    RunInv(run, events, i);
  }

  // Whenever a pending task queues a task while no producer is about to write the eventfd and
  // none comes along, the loop goes to its next wait unalerted, with that task still pending.
  lemma {:induction false} TaskQueuedByTaskWaits(run: seq<State>, events: seq<Event>, i: nat, j: nat, id: nat)
    requires IsRun(run, events) && i < j < |run|
    requires run[i].loop.Executing? && !run[i].stop && !Alerted(run[i]) && events[i] == TaskQueues(id)
    requires forall k :: i <= k < j ==> !ProducerStep(run[k], events[k], run[k + 1])
    requires forall k :: i < k < j ==> !run[k].loop.Waiting?
    ensures Task(id, FromTask) in run[j].pending && !Alerted(run[j]) && !run[j].stop
    ensures run[j].loop.Executing? || run[j].loop.Running? || run[j].loop.AtTop? || run[j].loop.Waiting?
  {
    hide ProducerStep, Alerted;
    assert Step(run[j - 1], events[j - 1], run[j - 1 + 1]);
    if i < j - 1 {
      TaskQueuedByTaskWaits(run, events, i, j - 1, id);
      StaysUnalerted(run[j - 1], events[j - 1], run[j]);
    } else {
      QueuedUnalerted(run[i], id, run[j]);
    }
  }

  lemma QueuedUnalerted(s: State, id: nat, s': State)
    requires LoopStep(s, TaskQueues(id), s') && !Alerted(s)
    ensures Task(id, FromTask) in s'.pending && !Alerted(s') && s'.stop == s.stop && s'.loop == s.loop
  {
    assert s'.pending[|s.pending|] == Task(id, FromTask);
  }

  lemma StaysUnalerted(s: State, e: Event, s': State)
    requires LoopStep(s, e, s') && !Alerted(s) && !s.stop
    requires s.loop.Executing? || s.loop.Running? || s.loop.AtTop?
    ensures !Alerted(s') && !s'.stop && s.pending <= s'.pending
    ensures s'.loop.Executing? || s'.loop.Running? || s'.loop.AtTop? || s'.loop.Waiting?
  {
  }

  // A task queued by a pending task does get no wake-up: here the loop sleeps on it.
  lemma TaskQueuedByTaskSleeps()
    ensures exists run: seq<State>, events: seq<Event> :: IsRun(run, events)
              && run[|run| - 1].loop.Waiting? && !Alerted(run[|run| - 1])
              && run[|run| - 1].pending == [Task(2, FromTask)]
  {
    hide ProducerStep, LoopStep, Step;
    var one, two := Task(1, External), Task(2, FromTask);
    var s0 := State([], 0, false, AtTop, [Idle], [], []);
    var s1 := s0.(pending := [one], enqueued := [one], producers := [MustWake]);
    var s2 := s1.(counter := 1, producers := [Idle]);
    var s3 := s2.(loop := Waiting);
    var s4 := s3.(loop := Dispatching(true));
    var s5 := s4.(counter := 0, loop := Dispatching(false));
    var s6 := s5.(loop := AtSwap);
    var s7 := s6.(pending := [], loop := Running([one]));
    var s8 := s7.(executed := [one], loop := Executing([]));
    var s9 := s8.(pending := [two], enqueued := [one, two]);
    var s10 := s9.(loop := Running([]));
    var s11 := s10.(loop := AtTop);
    var s12 := s11.(loop := Waiting);
    FirstHalf(s0, s1, s2, s3, s4, s5, s6, s7);
    SecondHalf(s7, s8, s9, s10, s11, s12);
    var run, events := [s0], [];
    run, events := Extend(run, events, Produce(0, 1), s1);
    run, events := Extend(run, events, Wakeup(0), s2);
    run, events := Extend(run, events, CheckStop, s3);
    run, events := Extend(run, events, WaitReturns(true), s4);
    run, events := Extend(run, events, HandleWakeup, s5);
    run, events := Extend(run, events, DispatchEnds, s6);
    run, events := Extend(run, events, Swap, s7);
    run, events := Extend(run, events, TaskBegins, s8);
    run, events := Extend(run, events, TaskQueues(2), s9);
    run, events := Extend(run, events, TaskEnds, s10);
    run, events := Extend(run, events, BatchEnds, s11);
    run, events := Extend(run, events, CheckStop, s12);
  }

  lemma Extend(run: seq<State>, events: seq<Event>, e: Event, s: State) returns (longer: seq<State>, more: seq<Event>)
    requires IsRun(run, events) && Step(run[|run| - 1], e, s)
    ensures IsRun(longer, more) && longer[|longer| - 1] == s
  {
    longer, more := run + [s], events + [e];
    forall i | 0 <= i < |more|
      ensures Step(longer[i], more[i], longer[i + 1])
    {
      if i < |events| {
        assert longer[i] == run[i] && longer[i + 1] == run[i + 1] && more[i] == events[i];
      }
    }
  }

  lemma FirstHalf(s0: State, s1: State, s2: State, s3: State, s4: State, s5: State, s6: State, s7: State)
    requires s0 == State([], 0, false, AtTop, [Idle], [], [])
    requires s1 == s0.(pending := [Task(1, External)], enqueued := [Task(1, External)], producers := [MustWake])
    requires s2 == s1.(counter := 1, producers := [Idle])
    requires s3 == s2.(loop := Waiting) && s4 == s3.(loop := Dispatching(true))
    requires s5 == s4.(counter := 0, loop := Dispatching(false)) && s6 == s5.(loop := AtSwap)
    requires s7 == s6.(pending := [], loop := Running([Task(1, External)]))
    ensures Init(s0) && Step(s0, Produce(0, 1), s1) && Step(s1, Wakeup(0), s2) && Step(s2, CheckStop, s3)
    ensures Step(s3, WaitReturns(true), s4) && Step(s4, HandleWakeup, s5) && Step(s5, DispatchEnds, s6)
    ensures Step(s6, Swap, s7)
  {
    assert s0.producers[0 := MustWake] == [MustWake];
    assert s1.producers[0 := Idle] == [Idle];
    assert [] + [Task(1, External)] == [Task(1, External)];
  }

  lemma SecondHalf(s7: State, s8: State, s9: State, s10: State, s11: State, s12: State)
    requires s7.pending == [] && s7.counter == 0 && !s7.stop && s7.loop == Running([Task(1, External)])
    requires s7.enqueued == [Task(1, External)] && s7.executed == []
    requires s8 == s7.(executed := [Task(1, External)], loop := Executing([]))
    requires s9 == s8.(pending := [Task(2, FromTask)], enqueued := [Task(1, External), Task(2, FromTask)])
    requires s10 == s9.(loop := Running([])) && s11 == s10.(loop := AtTop) && s12 == s11.(loop := Waiting)
    ensures Step(s7, TaskBegins, s8) && Step(s8, TaskQueues(2), s9) && Step(s9, TaskEnds, s10)
    ensures Step(s10, BatchEnds, s11) && Step(s11, CheckStop, s12)
  {
    assert [] + [Task(1, External)] == [Task(1, External)];
    assert [Task(1, External)][1..] == [];
    assert [] + [Task(2, FromTask)] == [Task(2, FromTask)];
    assert [Task(1, External)] + [Task(2, FromTask)] == [Task(1, External), Task(2, FromTask)];
  }
}
