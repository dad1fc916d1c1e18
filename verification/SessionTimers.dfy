/**
 What the sessions of an actor put out: each call sends its request once and, with a timeout, sets
 its timer once; each sleep sets its timer; and exactly the timers of answered calls are cancelled.
 */
module SessionTimers {
  import opened Bytes
  import opened Messages
  import opened Coroutines
  import opened SessionHistory

  // --------------------------------------------------------------------------------------
  // Reading the outputs
  // --------------------------------------------------------------------------------------

  // The output is a request or a timer of the session.
  predicate IsOf(o: Output, session: SessionId) {
    !o.TimerCancelled? && o.msg.sessionId == session
  }

  // The requests and timers of one session, in order.
  function OutputsOf(out: seq<Output>, session: SessionId): seq<Output> {
    if out == [] then []
    else OutputsOf(out[..|out| - 1], session) + if IsOf(out[|out| - 1], session) then [out[|out| - 1]] else []
  }

  // All cancelled timers, in order.
  function CancelledIn(out: seq<Output>): seq<TimerId> {
    if out == [] then []
    else
      var last := out[|out| - 1];
      CancelledIn(out[..|out| - 1]) + if last.TimerCancelled? then [last.timerId] else []
  }

  // The timer that the session set last; 0 if its last output is none.
  function TimerOf(out: seq<Output>, session: SessionId): TimerId {
    var own := OutputsOf(out, session);
    if own != [] && own[|own| - 1].TimerSet? then own[|own| - 1].timerId else 0
  }

  // What a session has to put out for its await, with this id for its timer.
  function Due(self: ActorId, session: SessionId, a: Await, timer: TimerId): seq<Output> {
    match a
    case Call(target, msg, timeoutMs) =>
      [Sent(target, msg.(sessionId := session, sourceId := self))] + TimeoutDue(session, timeoutMs, timer)
    case ClusterCall(node, name, msg, timeoutMs) =>
      [SentRemote(node, name, msg.(sessionId := session, sourceId := self))] + TimeoutDue(session, timeoutMs, timer)
    case Sleep(milliseconds) =>
      [TimerSet(timer, milliseconds, ActorMessage(UserMessage, sessionId := session, isResponse := true))]
  }

  function TimeoutDue(session: SessionId, timeoutMs: int, timer: TimerId): seq<Output> {
    if timeoutMs <= 0 then []
    else [TimerSet(timer, timeoutMs, ActorMessage(UserMessage, sessionId := session, isResponse := true,
                                                  error := Timeout))]
  }

  predicate HasTimeout(a: Await) {
    !a.Sleep? && a.timeoutMs > 0
  }

  // The timers of calls that were answered without an error, in the order of their resumption.
  function CancelsDue(resumed: seq<Resumption>, out: seq<Output>): seq<TimerId> {
    if resumed == [] then []
    else
      var last := resumed[|resumed| - 1];
      CancelsDue(resumed[..|resumed| - 1], out)
      + if HasTimeout(last.await) && last.result.error == Ok then [TimerOf(out, last.session)] else []
  }

  // --------------------------------------------------------------------------------------
  // The invariant
  // --------------------------------------------------------------------------------------

  ghost predicate PutOutOnce(c: Coro, self: ActorId) {
    && c.nextTimer >= 1
    && (forall s :: s in c.awaits ==>
          && OutputsOf(c.out, s) == Due(self, s, c.awaits[s], TimerOf(c.out, s))
          && TimerOf(c.out, s) < c.nextTimer
          && (HasTimeout(c.awaits[s]) ==> TimerOf(c.out, s) >= 1))
    && (forall s :: s !in c.awaits ==> OutputsOf(c.out, s) == [])
  }

  // A waiting frame remembers the timer of its session.
  ghost predicate FramesHold(c: Coro) {
    forall f :: f in c.frames ==>
      c.frames[f].timerId == if HasTimeout(c.frames[f].await) then TimerOf(c.out, c.frames[f].sessionId) else 0
  }

  ghost predicate TimersOk(c: Coro, self: ActorId) {
    PutOutOnce(c, self) && FramesHold(c) && CancelledIn(c.out) == CancelsDue(c.resumed, c.out)
  }

  lemma {:induction false} OutputsAppend(out: seq<Output>, more: seq<Output>, session: SessionId)
    ensures OutputsOf(out + more, session) == OutputsOf(out, session) + OutputsOf(more, session)
  {
    if more == [] {
      assert out + more == out;
    } else {
      var n := |more| - 1;
      assert (out + more)[..|out| + n] == out + more[..n];
      OutputsAppend(out, more[..n], session);
    }
  }

  lemma {:induction false} CancelledAppend(out: seq<Output>, more: seq<Output>)
    ensures CancelledIn(out + more) == CancelledIn(out) + CancelledIn(more)
  {
    if more == [] {
      assert out + more == out;
    } else {
      var n := |more| - 1;
      assert (out + more)[..|out| + n] == out + more[..n];
      CancelledAppend(out, more[..n]);
    }
  }

  // Outputs of other sessions do not matter to a session.
  lemma {:induction false} SameCancels(resumed: seq<Resumption>, out: seq<Output>, out': seq<Output>)
    requires forall i :: 0 <= i < |resumed| ==> TimerOf(out', resumed[i].session) == TimerOf(out, resumed[i].session)
    ensures CancelsDue(resumed, out') == CancelsDue(resumed, out)
  {
    if resumed != [] {
      SameCancels(resumed[..|resumed| - 1], out, out');
    }
  }

  // --------------------------------------------------------------------------------------
  // Steps
  // --------------------------------------------------------------------------------------

  // What one suspension adds to the outputs.
  function NewOutputs(c: Coro, self: ActorId, a: Await): seq<Output> {
    Due(self, c.nextSession, a, c.nextTimer)
  }

  lemma SuspendOutputs(c: Coro, self: ActorId, frame: FrameId, a: Await)
    requires c.nextTimer >= 1
    ensures var d := Suspend(c, self, frame, a);
            && d.out == c.out + NewOutputs(c, self, a)
            && d.awaits == c.awaits[c.nextSession := a]
            && d.nextTimer == (if a.Sleep? || HasTimeout(a) then c.nextTimer + 1 else c.nextTimer)
            && d.frames == c.frames[frame := Suspended(c.nextSession, a, if HasTimeout(a) then c.nextTimer else 0)]
            && d.resumed == c.resumed
  {
    var d := Suspend(c, self, frame, a);
    if a.Sleep? {
      assert c.out + [] + [TimerSet(c.nextTimer, a.milliseconds, WakeUp(c.nextSession, Ok))]
             == c.out + [TimerSet(c.nextTimer, a.milliseconds, WakeUp(c.nextSession, Ok))];
    }
  }

  // The new outputs are all of the new session.
  lemma DueIsOwn(self: ActorId, session: SessionId, a: Await, timer: TimerId, other: SessionId)
    ensures OutputsOf(Due(self, session, a, timer), other)
            == if other == session then Due(self, session, a, timer) else []
    ensures CancelledIn(Due(self, session, a, timer)) == []
  {
    AllOwn(Due(self, session, a, timer), session, other);
  }

  lemma {:induction false} AllOwn(out: seq<Output>, session: SessionId, other: SessionId)
    requires forall i :: 0 <= i < |out| ==> IsOf(out[i], session)
    ensures OutputsOf(out, other) == if other == session then out else []
    ensures CancelledIn(out) == []
  {
    hide IsOf;
    if out != [] {
      AllOwn(out[..|out| - 1], session, other);
      OwnOnly(out[|out| - 1], session, other);
      assert out == out[..|out| - 1] + [out[|out| - 1]];
    }
  }

  lemma OwnOnly(o: Output, session: SessionId, other: SessionId)
    requires IsOf(o, session)
    ensures !o.TimerCancelled? && (IsOf(o, other) <==> other == session)
  {
  }

  lemma SuspendTimers(c: Coro, self: ActorId, frame: FrameId, a: Await)
    requires TimersOk(c, self) && AwaitInv(c, self) && c.nextSession < SESSIONS - 1
    ensures TimersOk(Suspend(c, self, frame, a), self)
  {
    hide Suspend, Due, OutputsOf, CancelledIn, CancelsDue, OutputOk, HasTimeout;
    var d := Suspend(c, self, frame, a);
    var n := c.nextSession;
    SuspendOutputs(c, self, frame, a);
    assert n !in c.awaits;
    forall s
      ensures OutputsOf(d.out, s) == if s == n then NewOutputs(c, self, a) else OutputsOf(c.out, s)
    {
      OutputsAppend(c.out, NewOutputs(c, self, a), s);
      DueIsOwn(self, n, a, c.nextTimer, s);
    }
    NewTimer(c, self, a);
    CancelledAppend(c.out, NewOutputs(c, self, a));
    DueIsOwn(self, n, a, c.nextTimer, n);
    SameCancels(c.resumed, c.out, d.out);
  }

  // The timer of the new session is the one it sets.
  lemma NewTimer(c: Coro, self: ActorId, a: Await)
    ensures var due := NewOutputs(c, self, a);
            && due != []
            && (if a.Sleep? || HasTimeout(a) then due[|due| - 1].TimerSet? && due[|due| - 1].timerId == c.nextTimer
                else !due[|due| - 1].TimerSet?)
            && due == Due(self, c.nextSession, a, if a.Sleep? || HasTimeout(a) then c.nextTimer else 0)
  {
  }

  lemma {:induction false} RunTimers(c: Coro, self: ActorId, frame: FrameId, script: seq<Await>)
    requires TimersOk(c, self) && AwaitInv(c, self) && c.nextSession < SESSIONS - 1
    ensures TimersOk(Run(c, self, frame, script), self)
  {
    hide AwaitInv, Suspend, OutputsOf, CancelledIn, CancelsDue;
    if script == [] {
    } else if script[0].Ready() {
      RunTimers(c, self, frame, script[1..]);
    } else {
      SuspendTimers(c, self, frame, script[0]);
    }
  }

  // A resumed call cancels its own timer exactly if it was answered without an error.
  lemma ResumeTimers(c: Coro, self: ActorId, session: SessionId, response: ActorMessage, script: seq<Await>)
    requires CoroInv(c) && AwaitInv(c, self) && TimersOk(c, self)
    requires session in c.waiting && c.nextSession < SESSIONS - 1
    ensures TimersOk(Resume(c, self, session, response, script), self)
  {
    hide Run, OutputOk, FramesLinear, SessionsFresh, TakeResult, TimersOk, OutputsOf;
    var frame := c.waiting[session];
    var stored := c.(waiting := c.waiting - {session},
                     responses := c.responses[session := response],
                     frames := c.frames - {frame});
    var (taken, result) := TakeResult(stored, c.frames[frame]);
    var running := taken.(resumed := taken.resumed + [Resumption(session, frame, c.frames[frame].await, result)]);
    TakenHistory(c, self, stored, c.frames[frame]);
    TakenTimers(c, self, session, response);
    RunTimers(running, self, frame, script);
  }

  lemma TakenTimers(c: Coro, self: ActorId, session: SessionId, response: ActorMessage)
    requires FramesOwned(c) && AwaitInv(c, self) && TimersOk(c, self) && session in c.waiting
    ensures var frame := c.waiting[session];
            var stored := c.(waiting := c.waiting - {session},
                             responses := c.responses[session := response],
                             frames := c.frames - {frame});
            var (taken, result) := TakeResult(stored, c.frames[frame]);
            TimersOk(taken.(resumed := taken.resumed + [Resumption(session, frame, c.frames[frame].await, result)]),
                     self)
  {
    hide OutputOk, Due, OutputsOf, CancelledIn, CancelsDue;
    var frame := c.waiting[session];
    var s := c.frames[frame];
    var stored := c.(waiting := c.waiting - {session},
                     responses := c.responses[session := response],
                     frames := c.frames - {frame});
    var (taken, result) := TakeResult(stored, s);
    var more := if HasTimeout(s.await) && response.error == Ok then [TimerCancelled(s.timerId)] else [];
    assert c.awaits[session] == s.await;
    assert !s.await.Sleep? ==> result == response;
    assert taken.out == c.out + more;
    forall r
      ensures OutputsOf(taken.out, r) == OutputsOf(c.out, r)
    {
      OutputsAppend(c.out, more, r);
      CancelsAreNobodys(more, r);
    }
    CancelledAppend(c.out, more);
    CancelsAreNobodys(more, session);
    OneMoreCancel(c.resumed, Resumption(session, frame, s.await, result), taken.out);
    SameCancels(c.resumed, c.out, taken.out);
  }

  lemma CancelsAreNobodys(more: seq<Output>, session: SessionId)
    requires |more| <= 1 && forall o :: o in more ==> o.TimerCancelled?
    ensures OutputsOf(more, session) == []
    ensures CancelledIn(more) == if more == [] then [] else [more[0].timerId]
  {
    if more != [] {
      assert more[..0] == [];
    }
  }

  lemma OneMoreCancel(resumed: seq<Resumption>, r: Resumption, out: seq<Output>)
    ensures CancelsDue(resumed + [r], out)
            == CancelsDue(resumed, out)
               + if HasTimeout(r.await) && r.result.error == Ok then [TimerOf(out, r.session)] else []
  {
    assert (resumed + [r])[..|resumed|] == resumed;
  }

  lemma ApplyTimers(c: Coro, self: ActorId, e: Event)
    requires CoroInv(c) && AwaitInv(c, self) && TimersOk(c, self) && c.nextSession < SESSIONS - 1
    ensures AwaitInv(Apply(c, self, e), self) && TimersOk(Apply(c, self, e), self)
  {
    hide CoroInv, AwaitInv, Resume, Run, OutputsOf, CancelledIn, CancelsDue;
    match e {
      case DestroyCoroutines => DestroyedHistory(c, self);
      case Deliver(msg, script) =>
        OnMessageHistory(c, self, msg, script);
        if msg.isResponse && msg.sessionId > 0 {
          if msg.sessionId in c.waiting {
            ResumeTimers(c, self, msg.sessionId, msg, script);
          }
        } else {
          var started := c.(nextFrame := c.nextFrame + 1);
          SameHistory(c, started, self);
          RunTimers(started, self, c.nextFrame, script);
        }
    }
  }

  lemma DestroyedHistory(c: Coro, self: ActorId)
    requires AwaitInv(c, self)
    ensures AwaitInv(DestroyAll(c), self)
  {
    hide OutputOk;
  }

  // --------------------------------------------------------------------------------------
  // Whole runs
  // --------------------------------------------------------------------------------------

  lemma {:induction false} TimersOkInRuns(self: ActorId, events: seq<Event>, k: nat)
    requires k <= |events| && BelowWrap(self, events, k)
    ensures AwaitInv(After(self, events, k), self) && TimersOk(After(self, events, k), self)
  {
    hide AwaitInv, TimersOk, CoroInv, Apply;
    if k == 0 {
      FreshHistory(self);
    } else {
      TimersOkInRuns(self, events, k - 1);
      AfterNext(self, events, k - 1);
      ApplyTimers(After(self, events, k - 1), self, events[k - 1]);
    }
  }

  lemma FreshHistory(self: ActorId)
    ensures AwaitInv(FRESH, self) && TimersOk(FRESH, self)
  {
  }

  // In every run each session put out exactly what is due for its await, once: a call its request
  // and, only with a timeout, a timer with that delay that reports the timeout; a sleep a timer
  // with its duration. A frame that waits in a call with a timeout holds the timer of its session.
  lemma EverySessionPutsOutOnce(self: ActorId, events: seq<Event>, k: nat, session: SessionId)
    requires k <= |events| && BelowWrap(self, events, k)
    ensures var c := After(self, events, k);
            && OutputsOf(c.out, session) == (if session in c.awaits
                                             then Due(self, session, c.awaits[session], TimerOf(c.out, session))
                                             else [])
            && (session in c.awaits && HasTimeout(c.awaits[session]) ==> TimerOf(c.out, session) >= 1)
            && (session in c.waiting ==> session in c.awaits)
            && (session in c.waiting && HasTimeout(c.awaits[session]) ==>
                  c.frames[c.waiting[session]].timerId == TimerOf(c.out, session))
  {
    hide After, Due, OutputsOf, CancelledIn, CancelsDue;
    TimersOkInRuns(self, events, k);
  }

  // In every run the timers cancelled are exactly those that answered calls had set for
  // themselves, in the order of their resumption: none after a timeout or for a sleep.
  lemma CancelledAreAnswered(self: ActorId, events: seq<Event>, k: nat)
    requires k <= |events| && BelowWrap(self, events, k)
    ensures var c := After(self, events, k);
            CancelledIn(c.out) == CancelsDue(c.resumed, c.out)
  {
    hide After;
    TimersOkInRuns(self, events, k);
  }
}
