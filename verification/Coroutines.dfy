/**
 The coroutine side of an actor: sessions, suspended frames and their responses.

 A frame runs user code between two suspension points. What the code awaits is an oracle: every
 message comes with the list of awaits its run performs, and runs of the actor range over all
 such lists.
 */
module Coroutines {
  import opened Bytes
  import opened Wrappers
  import opened Messages
  import opened Queues

  type FrameId = nat
  type TimerId = nat

  const SESSIONS: nat := 0x1_0000_0000

  datatype Await =
    | Call(targetId: ActorId, msg: ActorMessage, timeoutMs: int)
    | ClusterCall(targetNodeId: bytes, targetActorName: bytes, msg: ActorMessage, timeoutMs: int)
    | Sleep(milliseconds: int)
  {
    // await_ready: only a sleep of no duration does not suspend.
    predicate Ready() {
      Sleep? && milliseconds <= 0
    }
  }

  // The awaiter that lives in a suspended frame. Timer 0 is no timer.
  datatype Suspended = Suspended(sessionId: SessionId, await: Await, timerId: TimerId)

  // What the actor asks the rest of the system to do.
  datatype Output =
    | Sent(targetId: ActorId, msg: ActorMessage)
    | SentRemote(targetNodeId: bytes, targetActorName: bytes, msg: ActorMessage)
    | TimerSet(timerId: TimerId, delayMs: int, msg: ActorMessage)
    | TimerCancelled(timerId: TimerId)

  datatype Resumption = Resumption(session: SessionId, frame: FrameId, await: Await, result: ActorMessage)

  // frames holds the suspended frames. completed, destroyed, resumed and out are histories, and
  // awaits records what each session was allocated for; slept holds the sessions of completed
  // sleeps whose wake-up has not been cleared.
  datatype Coro = Coro(
    nextSession: SessionId,
    waiting: map<SessionId, FrameId>,
    responses: map<SessionId, ActorMessage>,
    frames: map<FrameId, Suspended>,
    nextFrame: FrameId,
    nextTimer: TimerId,
    completed: seq<FrameId>,
    destroyed: multiset<FrameId>,
    resumed: seq<Resumption>,
    slept: set<SessionId>,
    awaits: map<SessionId, Await>,
    out: seq<Output>)

  const FRESH: Coro := Coro(1, map[], map[], map[], 0, 1, [], multiset{}, [], {}, map[], [])

  // --------------------------------------------------------------------------------------
  // Transitions
  // --------------------------------------------------------------------------------------

  function WakeUp(session: SessionId, error: CallError): ActorMessage {
    ActorMessage(UserMessage, sessionId := session, isResponse := true, error := error)
  }

  // What await_suspend sends, and the delay of the timer it sets, if any.
  function Request(self: ActorId, a: Await, session: SessionId): seq<Output> {
    match a
    case Call(target, msg, _) => [Sent(target, msg.(sessionId := session, sourceId := self))]
    case ClusterCall(node, name, msg, _) => [SentRemote(node, name, msg.(sessionId := session, sourceId := self))]
    case Sleep(_) => []
  }

  function Delay(a: Await): int {
    match a
    case Call(_, _, timeoutMs) => timeoutMs
    case ClusterCall(_, _, _, timeoutMs) => timeoutMs
    case Sleep(ms) => ms
  }

  function Suspend(c: Coro, self: ActorId, frame: FrameId, a: Await): Coro {
    var session := c.nextSession;
    var timed := a.Sleep? || Delay(a) > 0;
    var timer := if timed && !a.Sleep? then c.nextTimer else 0;
    c.(nextSession := (session + 1) % SESSIONS,
       waiting := c.waiting[session := frame],
       frames := c.frames[frame := Suspended(session, a, timer)],
       nextTimer := if timed then c.nextTimer + 1 else c.nextTimer,
       awaits := c.awaits[session := a],
       out := c.out + Request(self, a, session)
              + if timed then [TimerSet(c.nextTimer, Delay(a),
                                         WakeUp(session, if a.Sleep? then Ok else Timeout))] else [])
  }

  // A frame runs until its first await that is not ready, or to its end.
  function Run(c: Coro, self: ActorId, frame: FrameId, script: seq<Await>): Coro {
    if script == [] then c.(completed := c.completed + [frame])
    else if script[0].Ready() then Run(c, self, frame, script[1..])
    else Suspend(c, self, frame, script[0])
  }

  function Start(c: Coro, self: ActorId, script: seq<Await>): Coro {
    Run(c.(nextFrame := c.nextFrame + 1), self, c.nextFrame, script)
  }

  // await_resume: a call takes its response out and, on success, cancels its timer.
  function TakeResult(c: Coro, s: Suspended): (Coro, ActorMessage) {
    if s.await.Sleep? then (c.(slept := c.slept + {s.sessionId}), ActorMessage(NoType))
    else
      var result := if s.sessionId in c.responses then c.responses[s.sessionId] else ActorMessage(NoType);
      (c.(responses := c.responses - {s.sessionId},
          out := if result.error == Ok && s.timerId != 0 then c.out + [TimerCancelled(s.timerId)] else c.out),
       result)
  }

  function Resume(c: Coro, self: ActorId, session: SessionId, response: ActorMessage, script: seq<Await>): Coro
    requires session in c.waiting && c.waiting[session] in c.frames
  {
    var frame := c.waiting[session];
    var stored := c.(waiting := c.waiting - {session},
                     responses := c.responses[session := response],
                     frames := c.frames - {frame});
    var (taken, result) := TakeResult(stored, c.frames[frame]);
    Run(taken.(resumed := taken.resumed + [Resumption(session, frame, c.frames[frame].await, result)]),
        self, frame, script)
  }

  predicate IsResponseTo(msg: ActorMessage, session: SessionId) {
    msg.isResponse && msg.sessionId == session && session > 0
  }

  function OnMessage(c: Coro, self: ActorId, msg: ActorMessage, script: seq<Await>): Coro
    requires FramesOwned(c)
  {
    if msg.isResponse && msg.sessionId > 0 then
      if msg.sessionId in c.waiting then Resume(c, self, msg.sessionId, msg, script) else c
    else Start(c, self, script)
  }

  function DestroyAll(c: Coro): Coro {
    c.(waiting := map[], responses := map[], frames := map[], slept := {},
       destroyed := c.destroyed + multiset(c.frames.Keys))
  }

  // --------------------------------------------------------------------------------------
  // The invariant
  // --------------------------------------------------------------------------------------

  // Every suspended frame sits under exactly one session, which its awaiter remembers.
  ghost predicate FramesOwned(c: Coro) {
    && (forall s :: s in c.waiting ==> c.waiting[s] in c.frames && c.frames[c.waiting[s]].sessionId == s)
    && (forall f :: f in c.frames ==> c.frames[f].sessionId in c.waiting && c.waiting[c.frames[f].sessionId] == f)
  }

  // Every frame ever started is suspended, completed or destroyed, in exactly one way and once.
  ghost predicate FramesLinear(c: Coro) {
    && (forall f: FrameId :: multiset(c.completed)[f] + c.destroyed[f] + (if f in c.frames then 1 else 0)
                             == if f < c.nextFrame then 1 else 0)
  }

  ghost predicate SessionsFresh(c: Coro) {
    && 1 <= c.nextSession
    && (forall s :: s in c.waiting ==> 1 <= s < c.nextSession)
    && (forall s :: s in c.slept ==> 1 <= s < c.nextSession && s !in c.waiting)
    && (forall i :: 0 <= i < |c.resumed| ==>
           c.resumed[i].session < c.nextSession && c.resumed[i].session !in c.waiting)
    && (forall i, j :: 0 <= i < j < |c.resumed| ==> c.resumed[i].session != c.resumed[j].session)
  }

  ghost predicate CoroInv(c: Coro) {
    && FramesOwned(c) && FramesLinear(c) && SessionsFresh(c)
    && c.responses.Keys == c.slept
    && c.nextTimer >= 1
  }

  lemma FreshIsGood()
    ensures CoroInv(FRESH)
  {
  }

  // A frame that is running: it is owned by no session, and not yet completed.
  ghost predicate RunningInv(c: Coro, frame: FrameId) {
    && FramesOwned(c) && SessionsFresh(c) && c.responses.Keys == c.slept && c.nextTimer >= 1
    && frame !in c.frames && frame < c.nextFrame
    && (forall f: FrameId :: multiset(c.completed)[f] + c.destroyed[f] + (if f in c.frames then 1 else 0)
                             == if f < c.nextFrame && f != frame then 1 else 0)
  }

  // Suspending takes a session nobody waits on.
  lemma SuspendKeeps(c: Coro, self: ActorId, frame: FrameId, a: Await)
    requires RunningInv(c, frame) && c.nextSession < SESSIONS - 1
    ensures c.nextSession !in c.waiting
    ensures CoroInv(Suspend(c, self, frame, a))
  {
    hide Request, Delay, WakeUp, FramesOwned, SessionsFresh;
    SuspendFresh(c, self, frame, a);
    SuspendOwnsIffUnused(c, self, frame, a);
    var d := Suspend(c, self, frame, a);
    assert d.frames.Keys == c.frames.Keys + {frame};
  }

  lemma SuspendFresh(c: Coro, self: ActorId, frame: FrameId, a: Await)
    requires SessionsFresh(c) && c.nextSession < SESSIONS - 1
    ensures SessionsFresh(Suspend(c, self, frame, a)) && c.nextSession !in c.waiting
  {
    hide Request, Delay, WakeUp;
    assert Suspend(c, self, frame, a).nextSession == c.nextSession + 1;
  }

  lemma CompleteKeeps(c: Coro, frame: FrameId)
    requires RunningInv(c, frame)
    ensures CoroInv(c.(completed := c.completed + [frame]))
  {
  }

  // Awaiting this does not suspend.
  predicate PassesOn(a: Await) {
    a.Sleep? && a.milliseconds <= 0
  }

  // The first await of the script that suspends is the k-th.
  ghost predicate StopsAt(script: seq<Await>, k: nat) {
    k < |script| && !PassesOn(script[k]) && forall i :: 0 <= i < k ==> PassesOn(script[i])
  }

  ghost predicate SuspendedFor(c: Coro, frame: FrameId, a: Await, d: Coro) {
    && d.completed == c.completed && d.awaits == c.awaits[c.nextSession := a]
    && frame in d.frames && d.frames[frame].await == a && d.frames[frame].sessionId == c.nextSession
  }

  // The frame ran up to its first await that suspends, and is suspended for that await under
  // the next session; or there is none and the frame has ended.
  ghost predicate RanOn(c: Coro, frame: FrameId, script: seq<Await>, d: Coro) {
    || (&& (forall i :: 0 <= i < |script| ==> PassesOn(script[i]))
        && d.completed == c.completed + [frame] && d.awaits == c.awaits)
    || (exists k: nat :: StopsAt(script, k) && SuspendedFor(c, frame, script[k], d))
  }

  // What one run of a frame does to the actor: the frame ends, or is suspended under the one
  // session it allocates; no other frame and no session of another frame is touched.
  ghost predicate RunEffect(c: Coro, frame: FrameId, script: seq<Await>, d: Coro) {
    && RanOn(c, frame, script, d)
    && c.nextSession <= d.nextSession <= c.nextSession + 1 && d.nextFrame == c.nextFrame
    && (forall s :: s in c.waiting ==> s in d.waiting && d.waiting[s] == c.waiting[s])
    && (forall f :: f in c.frames ==> f in d.frames && d.frames[f] == c.frames[f])
    && (|| (d.completed == c.completed + [frame] && d.waiting == c.waiting && d.frames == c.frames)
        || (&& d.completed == c.completed
            && c.nextSession !in c.waiting && d.waiting == c.waiting[c.nextSession := frame]
            && d.frames.Keys == c.frames.Keys + {frame} && d.frames[frame].sessionId == c.nextSession))
    && d.resumed == c.resumed && d.responses == c.responses && d.destroyed == c.destroyed && d.slept == c.slept
  }

  lemma SuspendEffect(c: Coro, self: ActorId, frame: FrameId, script: seq<Await>)
    requires RunningInv(c, frame) && c.nextSession < SESSIONS - 1 && StopsAt(script, 0)
    ensures RunEffect(c, frame, script, Suspend(c, self, frame, script[0]))
  {
    hide Request, Delay, WakeUp, FramesOwned, FramesLinear, SessionsFresh, CoroInv, RanOn;
    SuspendKeeps(c, self, frame, script[0]);
    SuspendRanOn(c, self, frame, script);
  }

  lemma SuspendRanOn(c: Coro, self: ActorId, frame: FrameId, script: seq<Await>)
    requires StopsAt(script, 0)
    ensures RanOn(c, frame, script, Suspend(c, self, frame, script[0]))
  {
    hide Request, Delay, WakeUp;
    assert SuspendedFor(c, frame, script[0], Suspend(c, self, frame, script[0]));
  }

  lemma {:induction false} RunKeeps(c: Coro, self: ActorId, frame: FrameId, script: seq<Await>)
    requires RunningInv(c, frame) && c.nextSession < SESSIONS - 1
    ensures CoroInv(Run(c, self, frame, script))
    ensures RunEffect(c, frame, script, Run(c, self, frame, script))
  {
    hide RunningInv, CoroInv, Suspend, RanOn;
    if script == [] {
      CompleteKeeps(c, frame);
      assert RanOn(c, frame, script, Run(c, self, frame, script)) by {
        NothingToRun(c, frame);
      }
    } else if script[0].Ready() {
      RunKeeps(c, self, frame, script[1..]);
      RanOnLater(c, frame, script, Run(c, self, frame, script[1..]));
    } else {
      SuspendKeeps(c, self, frame, script[0]);
      SuspendEffect(c, self, frame, script);
    }
  }

  lemma NothingToRun(c: Coro, frame: FrameId)
    ensures RanOn(c, frame, [], c.(completed := c.completed + [frame]))
  {
  }

  lemma RanOnLater(c: Coro, frame: FrameId, script: seq<Await>, d: Coro)
    requires script != [] && PassesOn(script[0]) && RanOn(c, frame, script[1..], d)
    ensures RanOn(c, frame, script, d)
  {
    assert forall i :: 1 <= i < |script| ==> script[i] == script[1..][i - 1];
    if k: nat :| StopsAt(script[1..], k) && SuspendedFor(c, frame, script[1..][k], d) {
      assert script[k + 1] == script[1..][k];
      assert StopsAt(script, k + 1);
    }
  }

  lemma NewFrameRuns(c: Coro)
    requires CoroInv(c)
    ensures RunningInv(c.(nextFrame := c.nextFrame + 1), c.nextFrame)
  {
  }

  lemma StartKeeps(c: Coro, self: ActorId, script: seq<Await>)
    requires CoroInv(c) && c.nextSession < SESSIONS - 1
    ensures CoroInv(Start(c, self, script))
    ensures RunEffect(c.(nextFrame := c.nextFrame + 1), c.nextFrame, script, Start(c, self, script))
  {
    hide CoroInv, RunningInv, Run;
    NewFrameRuns(c);
    RunKeeps(c.(nextFrame := c.nextFrame + 1), self, c.nextFrame, script);
  }

  // A response was stored for a session, and `before` is what the map held until then. A call
  // gets the response and leaves the map as it was before; a sleep leaves its wake-up in it.
  lemma TakeResultEffect(c: Coro, s: Suspended, response: ActorMessage, before: map<SessionId, ActorMessage>)
    requires before.Keys == c.slept && s.sessionId !in before
    requires c.responses == before[s.sessionId := response]
    ensures var (d, result) := TakeResult(c, s);
            && d.responses == (if s.await.Sleep? then before[s.sessionId := response] else before)
            && d.slept == (if s.await.Sleep? then c.slept + {s.sessionId} else c.slept)
            && d.responses.Keys == d.slept
            && (!s.await.Sleep? ==> result == response)
            && d == c.(responses := d.responses, slept := d.slept, out := d.out)
  {
  }

  // Resuming a session ends it, logs its frame with the response, and runs the frame on.
  ghost predicate ResumeEffect(c: Coro, session: SessionId, response: ActorMessage, script: seq<Await>, d: Coro)
    requires session in c.waiting && c.waiting[session] in c.frames
  {
    var frame := c.waiting[session];
    && c.nextSession <= d.nextSession <= c.nextSession + 1
    && session !in d.waiting && RanOn(c, frame, script, d)
    && (forall s :: s in c.waiting && s != session ==> s in d.waiting && d.waiting[s] == c.waiting[s])
    && |d.resumed| == |c.resumed| + 1 && d.resumed[..|c.resumed|] == c.resumed
    && d.resumed[|c.resumed|].session == session && d.resumed[|c.resumed|].frame == frame
    && d.resumed[|c.resumed|].await == c.frames[frame].await
    && d.slept == (if c.frames[frame].await.Sleep? then c.slept + {session} else c.slept)
    && (!c.frames[frame].await.Sleep? ==> d.resumed[|c.resumed|].result == response)
  }

  lemma ResumeKeeps(c: Coro, self: ActorId, session: SessionId, response: ActorMessage, script: seq<Await>)
    requires CoroInv(c) && session in c.waiting && c.nextSession < SESSIONS - 1
    ensures CoroInv(Resume(c, self, session, response, script))
    ensures ResumeEffect(c, session, response, script, Resume(c, self, session, response, script))
  {
    hide Run, RunEffect, ResumeEffect, TakeResult, FramesLinear;
    var frame := c.waiting[session];
    var stored := c.(waiting := c.waiting - {session},
                     responses := c.responses[session := response],
                     frames := c.frames - {frame});
    var (taken, result) := TakeResult(stored, c.frames[frame]);
    TakeResultEffect(stored, c.frames[frame], response, c.responses);
    var running := taken.(resumed := taken.resumed + [Resumption(session, frame, c.frames[frame].await, result)]);
    ResumedIsRunning(c, session, taken, running, result);
    RunKeeps(running, self, frame, script);
    ResumeHasEffect(c, session, response, script, running, result, Run(running, self, frame, script));
  }

  lemma ResumeHasEffect(c: Coro, session: SessionId, response: ActorMessage, script: seq<Await>, running: Coro,
                        result: ActorMessage, d: Coro)
    requires session in c.waiting && c.waiting[session] in c.frames && session < c.nextSession
    requires running.waiting == c.waiting - {session} && running.nextSession == c.nextSession
    requires running.slept == if c.frames[c.waiting[session]].await.Sleep? then c.slept + {session} else c.slept
    requires running.resumed == c.resumed +
                                 [Resumption(session, c.waiting[session], c.frames[c.waiting[session]].await, result)]
    requires !c.frames[c.waiting[session]].await.Sleep? ==> result == response
    requires running.completed == c.completed && running.awaits == c.awaits
    requires RunEffect(running, c.waiting[session], script, d)
    ensures ResumeEffect(c, session, response, script, d)
  {
  }

  lemma ResumedIsRunning(c: Coro, session: SessionId, taken: Coro, running: Coro, result: ActorMessage)
    requires CoroInv(c) && session in c.waiting && c.waiting[session] in c.frames
    requires taken == c.(waiting := c.waiting - {session}, frames := c.frames - {c.waiting[session]},
                         responses := taken.responses, slept := taken.slept, out := taken.out)
    requires taken.responses.Keys == taken.slept && taken.slept <= c.slept + {session}
    requires running == taken.(resumed := taken.resumed +
                               [Resumption(session, c.waiting[session], c.frames[c.waiting[session]].await, result)])
    ensures RunningInv(running, c.waiting[session])
  {
    hide FramesOwned, SessionsFresh;
    var frame := c.waiting[session];
    ResumedOwned(c, session, running);
    ResumedFresh(c, session, running);
    assert running.frames.Keys == c.frames.Keys - {frame};
    assert multiset(c.completed)[frame] + c.destroyed[frame] + 1 == if frame < c.nextFrame then 1 else 0;
  }

  lemma ResumedOwned(c: Coro, session: SessionId, d: Coro)
    requires FramesOwned(c) && session in c.waiting
    requires d.waiting == c.waiting - {session} && d.frames == c.frames - {c.waiting[session]}
    ensures FramesOwned(d)
    ensures c.waiting[session] in c.frames && c.waiting[session] !in d.frames
  {
  }

  lemma ResumedFresh(c: Coro, session: SessionId, d: Coro)
    requires SessionsFresh(c) && session in c.waiting
    requires d.waiting == c.waiting - {session} && d.nextSession == c.nextSession
    requires d.slept <= c.slept + {session}
    requires |d.resumed| == |c.resumed| + 1 && d.resumed[..|c.resumed|] == c.resumed
    requires d.resumed[|c.resumed|].session == session
    ensures SessionsFresh(d)
  {
    assert forall i :: 0 <= i < |c.resumed| ==> d.resumed[i] == d.resumed[..|c.resumed|][i];
  }

  lemma OnMessageKeeps(c: Coro, self: ActorId, msg: ActorMessage, script: seq<Await>)
    requires CoroInv(c) && c.nextSession < SESSIONS - 1
    ensures CoroInv(OnMessage(c, self, msg, script))
    ensures c.nextSession <= OnMessage(c, self, msg, script).nextSession <= c.nextSession + 1
  {
    hide CoroInv, Resume, Start;
    if msg.isResponse && msg.sessionId > 0 {
      if msg.sessionId in c.waiting {
        ResumeKeeps(c, self, msg.sessionId, msg, script);
      }
    } else {
      StartKeeps(c, self, script);
    }
  }

  lemma DestroyKeeps(c: Coro)
    requires CoroInv(c)
    ensures CoroInv(DestroyAll(c)) && DestroyAll(c).nextSession == c.nextSession
  {
    var d := DestroyAll(c);
    forall f: FrameId
      ensures multiset(d.completed)[f] + d.destroyed[f] == if f < d.nextFrame then 1 else 0
    {
      assert multiset(c.completed)[f] + c.destroyed[f] + (if f in c.frames then 1 else 0)
             == if f < c.nextFrame then 1 else 0;
    }
  }

  // A frame stays owned after suspending exactly when nobody waits on the session it gets. The
  // session counter wraps after 2^32 sessions, so a call that waits that long can lose its frame.
  lemma SuspendOwnsIffUnused(c: Coro, self: ActorId, frame: FrameId, a: Await)
    requires FramesOwned(c) && frame !in c.frames
    ensures FramesOwned(Suspend(c, self, frame, a)) <==> c.nextSession !in c.waiting
  {
    hide Request, Delay, WakeUp;
    var d := Suspend(c, self, frame, a);
    var s := c.nextSession;
    if s in c.waiting {
      var lost := c.waiting[s];
      assert lost in d.frames && d.frames[lost].sessionId == s && d.waiting[s] == frame;
    }
  }

  // --------------------------------------------------------------------------------------
  // Runs of an actor
  // --------------------------------------------------------------------------------------

  datatype Event = Deliver(msg: ActorMessage, script: seq<Await>) | DestroyCoroutines

  ghost function Apply(c: Coro, self: ActorId, e: Event): Coro
    requires CoroInv(c)
  {
    match e
    case Deliver(msg, script) => OnMessage(c, self, msg, script)
    case DestroyCoroutines => DestroyAll(c)
  }

  lemma ApplyKeeps(c: Coro, self: ActorId, e: Event)
    requires CoroInv(c) && c.nextSession < SESSIONS - 1
    ensures CoroInv(Apply(c, self, e))
    ensures c.nextSession <= Apply(c, self, e).nextSession <= c.nextSession + 1
  {
    hide CoroInv, OnMessage, DestroyAll;
    match e {
      case Deliver(msg, script) => OnMessageKeeps(c, self, msg, script);
      case DestroyCoroutines => DestroyKeeps(c);
    }
  }

  // The actor after processing the first k messages. It stands still once its session counter has
  // reached its end; BelowWrap says that this has not happened.
  ghost function After(self: ActorId, events: seq<Event>, k: nat): (c: Coro)
    requires k <= |events|
    ensures CoroInv(c)
  {
    hide CoroInv, Apply;
    if k == 0 then
      FreshIsGood();
      FRESH
    else
      var before := After(self, events, k - 1);
      if before.nextSession < SESSIONS - 1 then
        ApplyKeeps(before, self, events[k - 1]);
        Apply(before, self, events[k - 1])
      else before
  }

  // How many events there are does not matter, only how many sessions they allocate.
  ghost predicate BelowWrap(self: ActorId, events: seq<Event>, n: nat)
    requires n <= |events|
  {
    forall k :: 0 <= k < n ==> After(self, events, k).nextSession < SESSIONS - 1
  }

  lemma AfterNext(self: ActorId, events: seq<Event>, k: nat)
    requires k < |events| && After(self, events, k).nextSession < SESSIONS - 1
    ensures After(self, events, k + 1) == Apply(After(self, events, k), self, events[k])
  {
    hide CoroInv, Apply;
  }

  predicate Answers(e: Event, session: SessionId) {
    e.Deliver? && IsResponseTo(e.msg, session)
  }

  // Until the first response to it is processed, a session keeps its frame suspended.
  lemma {:induction false} WaitsUntilAnswered(self: ActorId, events: seq<Event>, i: nat, j: nat, session: SessionId)
    requires BelowWrap(self, events, |events|) && i <= j <= |events|
    requires session in After(self, events, i).waiting
    requires forall k :: i <= k < j ==> events[k].Deliver? && !Answers(events[k], session)
    ensures session in After(self, events, j).waiting
    ensures After(self, events, j).waiting[session] == After(self, events, i).waiting[session]
  {
    hide CoroInv, Apply, After;
    if i < j {
      WaitsUntilAnswered(self, events, i, j - 1, session);
      AfterNext(self, events, j - 1);
      OthersKeepWaiting(After(self, events, j - 1), self, events[j - 1], session);
    }
  }

  lemma OthersKeepWaiting(c: Coro, self: ActorId, e: Event, session: SessionId)
    requires CoroInv(c) && c.nextSession < SESSIONS - 1
    requires session in c.waiting && e.Deliver? && !Answers(e, session)
    ensures session in Apply(c, self, e).waiting && Apply(c, self, e).waiting[session] == c.waiting[session]
  {
    hide FramesLinear, Resume, Start;
    if e.msg.isResponse && e.msg.sessionId > 0 {
      if e.msg.sessionId in c.waiting {
        ResumeKeeps(c, self, e.msg.sessionId, e.msg, e.script);
      }
    } else {
      StartKeeps(c, self, e.script);
    }
  }

  // The first processed response to a session resumes the frame suspended under it, with that
  // very response if it awaits a call; the frame has left the wait map when it runs.
  lemma FirstResponseWins(self: ActorId, events: seq<Event>, i: nat, j: nat, session: SessionId)
    requires BelowWrap(self, events, |events|) && i <= j < |events|
    requires session in After(self, events, i).waiting
    requires forall k :: i <= k < j ==> events[k].Deliver? && !Answers(events[k], session)
    requires Answers(events[j], session)
    ensures var before := After(self, events, j);
            && session in before.waiting
            && before.waiting[session] == After(self, events, i).waiting[session]
            && before.waiting[session] in before.frames
            && ResumeEffect(before, session, events[j].msg, events[j].script, After(self, events, j + 1))
  {
    hide FramesLinear, Resume, After;
    WaitsUntilAnswered(self, events, i, j, session);
    AfterNext(self, events, j);
    ResumeKeeps(After(self, events, j), self, session, events[j].msg, events[j].script);
  }

  // Every message that is no response starts a frame of its own, which runs up to its first await
  // that suspends.
  lemma EveryMessageRuns(self: ActorId, events: seq<Event>, k: nat)
    requires k < |events| && After(self, events, k).nextSession < SESSIONS - 1 && events[k].Deliver?
    requires !(events[k].msg.isResponse && events[k].msg.sessionId > 0)
    ensures var c, d := After(self, events, k), After(self, events, k + 1);
            && d.nextFrame == c.nextFrame + 1 && d.waiting.Keys >= c.waiting.Keys && d.resumed == c.resumed
            && RanOn(c, c.nextFrame, events[k].script, d)
  {
    hide After, Start, RanOn;
    AfterNext(self, events, k);
    var c, d := After(self, events, k), After(self, events, k + 1);
    StartKeeps(c, self, events[k].script);
    SameRan(c, c.nextFrame, events[k].script, d);
  }

  lemma SameRan(c: Coro, frame: FrameId, script: seq<Await>, d: Coro)
    requires RanOn(c.(nextFrame := c.nextFrame + 1), frame, script, d)
    ensures RanOn(c, frame, script, d)
  {
  }

  // A session that is not waited on, and was allocated, is never waited on again.
  lemma {:induction false} NeverWaitsAgain(self: ActorId, events: seq<Event>, i: nat, j: nat, session: SessionId)
    requires BelowWrap(self, events, |events|) && i <= j <= |events|
    requires session !in After(self, events, i).waiting && session < After(self, events, i).nextSession
    ensures session !in After(self, events, j).waiting && session < After(self, events, j).nextSession
  {
    hide CoroInv, Apply, After;
    if i < j {
      NeverWaitsAgain(self, events, i, j - 1, session);
      AfterNext(self, events, j - 1);
      OnlyFreshSessions(After(self, events, j - 1), self, events[j - 1]);
    }
  }

  lemma OnlyFreshSessions(c: Coro, self: ActorId, e: Event)
    requires CoroInv(c) && c.nextSession < SESSIONS - 1
    ensures c.nextSession <= Apply(c, self, e).nextSession
    ensures forall s :: s in Apply(c, self, e).waiting ==> s in c.waiting || s == c.nextSession
  {
    hide FramesLinear, Run, TakeResult;
    match e {
      case DestroyCoroutines =>
      case Deliver(msg, script) =>
        if msg.isResponse && msg.sessionId > 0 {
          if msg.sessionId in c.waiting {
            ResumeOnlyFresh(c, self, msg.sessionId, msg, script);
          }
        } else {
          StartKeeps(c, self, script);
        }
    }
  }

  lemma ResumeOnlyFresh(c: Coro, self: ActorId, session: SessionId, response: ActorMessage, script: seq<Await>)
    requires CoroInv(c) && session in c.waiting && c.nextSession < SESSIONS - 1
    ensures c.nextSession <= Resume(c, self, session, response, script).nextSession
    ensures forall s :: s in Resume(c, self, session, response, script).waiting ==>
              s in c.waiting || s == c.nextSession
  {
    hide Run, TakeResult, FramesLinear;
    var frame := c.waiting[session];
    var stored := c.(waiting := c.waiting - {session},
                     responses := c.responses[session := response],
                     frames := c.frames - {frame});
    var (taken, result) := TakeResult(stored, c.frames[frame]);
    TakeResultEffect(stored, c.frames[frame], response, c.responses);
    var running := taken.(resumed := taken.resumed + [Resumption(session, frame, c.frames[frame].await, result)]);
    ResumedIsRunning(c, session, taken, running, result);
    RunKeeps(running, self, frame, script);
  }

  // Once a session was answered, every later response or timeout for it changes nothing.
  lemma LaterResponsesIgnored(self: ActorId, events: seq<Event>, j: nat, k: nat, session: SessionId)
    requires BelowWrap(self, events, |events|) && j < k < |events|
    requires session in After(self, events, j).waiting && Answers(events[j], session)
    requires Answers(events[k], session)
    ensures After(self, events, k + 1) == After(self, events, k)
  {
    hide FramesLinear, FramesOwned, Resume, After;
    AfterNext(self, events, j);
    ResumeKeeps(After(self, events, j), self, session, events[j].msg, events[j].script);
    NeverWaitsAgain(self, events, j + 1, k, session);
    AfterNext(self, events, k);
  }

  // In every run each frame is suspended, completed or destroyed, in one way and once; each
  // suspended frame sits under exactly one session; and no session is resumed twice.
  lemma FramesLinearInRuns(self: ActorId, events: seq<Event>, f: FrameId)
    requires BelowWrap(self, events, |events|)
    ensures var c := After(self, events, |events|);
            && multiset(c.completed)[f] + c.destroyed[f] + (if f in c.frames then 1 else 0)
               == (if f < c.nextFrame then 1 else 0)
            && (f in c.frames <==> exists s :: s in c.waiting && c.waiting[s] == f)
            && (forall s, r :: s in c.waiting && r in c.waiting && c.waiting[s] == c.waiting[r] ==> s == r)
            && (forall i, j :: 0 <= i < j < |c.resumed| ==> c.resumed[i].session != c.resumed[j].session)
  {
    hide After;
    var c := After(self, events, |events|);
    if f in c.frames {
      assert c.waiting[c.frames[f].sessionId] == f;
    }
  }

  // The session was resumed, and what it awaited was a sleep.
  ghost predicate SleptIn(c: Coro, session: SessionId) {
    exists i :: 0 <= i < |c.resumed| && c.resumed[i].session == session && c.resumed[i].await.Sleep?
  }

  // Between two messages the keys of the response map are exactly the sessions of completed
  // sleeps: calls leave nothing behind.
  lemma {:induction false} OnlySleepsLeaveResponses(self: ActorId, events: seq<Event>, k: nat)
    requires k <= |events| && BelowWrap(self, events, k)
    requires forall i :: 0 <= i < k ==> events[i].Deliver?
    ensures forall s :: s in After(self, events, k).responses <==> SleptIn(After(self, events, k), s)
  {
    hide After, Apply, SleptIn, FramesLinear, FramesOwned;
    if k == 0 {
      EmptyRun(self, events);
    } else {
      OnlySleepsLeaveResponses(self, events, k - 1);
      AfterNext(self, events, k - 1);
      SleepsExtend(After(self, events, k - 1), self, events[k - 1]);
    }
  }

  lemma EmptyRun(self: ActorId, events: seq<Event>)
    ensures After(self, events, 0) == FRESH
    ensures forall s :: !SleptIn(FRESH, s)
  {
  }

  lemma SleepsExtend(c: Coro, self: ActorId, e: Event)
    requires CoroInv(c) && c.nextSession < SESSIONS - 1 && e.Deliver?
    requires forall s :: s in c.slept <==> SleptIn(c, s)
    ensures forall s :: s in Apply(c, self, e).slept <==> SleptIn(Apply(c, self, e), s)
  {
    hide FramesLinear, Resume, Start;
    if e.msg.isResponse && e.msg.sessionId > 0 {
      if e.msg.sessionId in c.waiting {
        var session := e.msg.sessionId;
        var d := Resume(c, self, session, e.msg, e.script);
        ResumeKeeps(c, self, session, e.msg, e.script);
        SleepsAfterResume(c, session, e.msg, e.script, d);
      }
    } else {
      StartKeeps(c, self, e.script);
    }
  }

  lemma SleepsAfterResume(c: Coro, session: SessionId, response: ActorMessage, script: seq<Await>, d: Coro)
    requires session in c.waiting && c.waiting[session] in c.frames
    requires ResumeEffect(c, session, response, script, d)
    requires forall s :: s in c.slept <==> SleptIn(c, s)
    ensures forall s :: s in d.slept <==> SleptIn(d, s)
  {
    var n := |c.resumed|;
    assert forall i :: 0 <= i < n ==> d.resumed[i] == d.resumed[..n][i];
    forall s
      ensures SleptIn(d, s) <==> SleptIn(c, s) || (s == session && d.resumed[n].await.Sleep?)
    {
      if SleptIn(c, s) {
        var i :| 0 <= i < n && c.resumed[i].session == s && c.resumed[i].await.Sleep?;
        assert d.resumed[i] == c.resumed[i];
      }
      if SleptIn(d, s) {
        var i :| 0 <= i < |d.resumed| && d.resumed[i].session == s && d.resumed[i].await.Sleep?;
        assert i < n ==> d.resumed[i] == c.resumed[i];
      }
    }
  }

  // A completed sleep does leave its wake-up.
  lemma SleepLeavesWakeUp(self: ActorId, ms: int, msg: ActorMessage)
    requires ms > 0 && !msg.isResponse
    ensures var events := [Deliver(msg, [Sleep(ms)]), Deliver(WakeUp(1, Ok), [])];
            && BelowWrap(self, events, 2)
            && After(self, events, 2).responses == map[1 := WakeUp(1, Ok)]
  {
    hide CoroInv;
    var events := [Deliver(msg, [Sleep(ms)]), Deliver(WakeUp(1, Ok), [])];
    AfterNext(self, events, 0);
    var c := After(self, events, 1);
    assert c.waiting == map[1 := 0] && c.nextSession == 2;
    AfterNext(self, events, 1);
  }

  // --------------------------------------------------------------------------------------
  // The wrap-around of sessions
  // --------------------------------------------------------------------------------------

  // A run keeps every session but the one it allocates.
  lemma {:induction false} RunKeepsSession(c: Coro, self: ActorId, frame: FrameId, script: seq<Await>, s: SessionId)
    requires s in c.waiting && s != c.nextSession
    ensures s in Run(c, self, frame, script).waiting && Run(c, self, frame, script).waiting[s] == c.waiting[s]
  {
    if script != [] && script[0].Ready() {
      RunKeepsSession(c, self, frame, script[1..], s);
    }
  }

  lemma SessionZeroKeeps(c: Coro, self: ActorId, msg: ActorMessage, script: seq<Await>)
    requires FramesOwned(c) && 0 in c.waiting && c.nextSession != 0
    ensures var d := OnMessage(c, self, msg, script);
            0 in d.waiting && d.waiting[0] == c.waiting[0]
  {
    hide Run;
    if msg.isResponse && msg.sessionId > 0 {
      if msg.sessionId in c.waiting {
        var frame := c.waiting[msg.sessionId];
        var stored := c.(waiting := c.waiting - {msg.sessionId},
                         responses := c.responses[msg.sessionId := msg],
                         frames := c.frames - {frame});
        var (taken, result) := TakeResult(stored, c.frames[frame]);
        var resumption := Resumption(msg.sessionId, frame, c.frames[frame].await, result);
        RunKeepsSession(taken.(resumed := taken.resumed + [resumption]), self, frame, script, 0);
      }
    } else {
      RunKeepsSession(c.(nextFrame := c.nextFrame + 1), self, c.nextFrame, script, 0);
    }
  }

  // The states of an actor that processes messages, past the wrap-around too.
  ghost predicate IsCoroRun(self: ActorId, run: seq<Coro>) {
    && run != [] && run[0] == FRESH
    && forall i :: 0 <= i < |run| - 1 ==> Processes(self, run[i], run[i + 1])
  }

  ghost predicate Processes(self: ActorId, c: Coro, d: Coro) {
    FramesOwned(c) && exists msg, script :: d == OnMessage(c, self, msg, script)
  }

  lemma RunGoesOn(self: ActorId, run: seq<Coro>, msg: ActorMessage, script: seq<Await>)
    requires IsCoroRun(self, run) && FramesOwned(run[|run| - 1])
    ensures IsCoroRun(self, run + [OnMessage(run[|run| - 1], self, msg, script)])
  {
    hide OnMessage;
    var c := run[|run| - 1];
    assert Processes(self, c, OnMessage(c, self, msg, script));
  }

  // The counter hands out session 0 after the last one, and no messages resume a frame that waits
  // under it: it stays until the counter comes back to 0, whatever else the actor does.
  lemma {:induction false} SessionZeroNeverResumes(self: ActorId, run: seq<Coro>, i: nat, j: nat)
    requires IsCoroRun(self, run) && i <= j < |run| && 0 in run[i].waiting
    requires forall k :: i <= k < j ==> run[k].nextSession != 0
    ensures 0 in run[j].waiting && run[j].waiting[0] == run[i].waiting[0]
  {
    hide OnMessage, FramesOwned;
    if i < j {
      SessionZeroNeverResumes(self, run, i, j - 1);
      assert Processes(self, run[j - 1], run[j - 1 + 1]);
      var msg, script :| run[j] == OnMessage(run[j - 1], self, msg, script);
      SessionZeroKeeps(run[j - 1], self, msg, script);
    }
  }

  const REQUEST: ActorMessage := ActorMessage(UserMessage)

  // A call without a timeout.
  const PATIENT: Await := Call(1, REQUEST, 0)

  // The first frame waits under session 1 and nothing else does; session n comes next.
  ghost predicate FirstStillWaits(c: Coro, n: nat) {
    && c.waiting == map[1 := 0] && c.frames == map[0 := Suspended(1, PATIENT, 0)]
    && c.nextFrame >= 1 && c.nextSession == n
  }

  ghost predicate ReachesSession(self: ActorId, n: nat) {
    exists run :: run != [] && IsCoroRun(self, run) && FirstStillWaits(run[|run| - 1], n)
  }

  lemma CallSuspends(c: Coro, self: ActorId)
    requires FramesOwned(c) && c.nextFrame !in c.frames
    ensures var d := OnMessage(c, self, REQUEST, [PATIENT]);
            && d.waiting == c.waiting[c.nextSession := c.nextFrame]
            && d.frames == c.frames[c.nextFrame := Suspended(c.nextSession, PATIENT, 0)]
            && d.nextFrame == c.nextFrame + 1 && d.nextSession == (c.nextSession + 1) % SESSIONS
            && (c.nextSession !in c.waiting ==> FramesOwned(d))
  {
    hide FramesOwned;
    assert OnMessage(c, self, REQUEST, [PATIENT])
           == Suspend(c.(nextFrame := c.nextFrame + 1), self, c.nextFrame, PATIENT);
    if c.nextSession !in c.waiting {
      StillOwned(c, OnMessage(c, self, REQUEST, [PATIENT]));
    }
  }

  lemma StillOwned(c: Coro, d: Coro)
    requires FramesOwned(c) && c.nextFrame !in c.frames && c.nextSession !in c.waiting
    requires d.waiting == c.waiting[c.nextSession := c.nextFrame]
    requires d.frames == c.frames[c.nextFrame := Suspended(c.nextSession, PATIENT, 0)]
    ensures FramesOwned(d)
  {
  }

  // A call that is answered at once uses up one session.
  lemma OneSessionMore(self: ActorId, c: Coro, n: nat)
    requires FirstStillWaits(c, n) && 2 <= n < SESSIONS
    ensures var d := OnMessage(c, self, REQUEST, [PATIENT]);
            FramesOwned(d) && FirstStillWaits(OnMessage(d, self, WakeUp(n, Ok), []), (n + 1) % SESSIONS)
  {
    hide Start;
    FirstIsOwned(c, n);
    CallSuspends(c, self);
    var d := OnMessage(c, self, REQUEST, [PATIENT]);
    assert d.waiting == map[1 := 0, n := c.nextFrame];
    var e := OnMessage(d, self, WakeUp(n, Ok), []);
    assert e.waiting == map[1 := 0];
    assert e.frames == map[0 := Suspended(1, PATIENT, 0)];
  }

  lemma {:induction false} EverySessionIsReached(self: ActorId, n: nat)
    requires 2 <= n <= SESSIONS
    ensures ReachesSession(self, n % SESSIONS)
    decreases n
  {
    hide OnMessage, IsCoroRun, FirstStillWaits;
    if n == 2 {
      FirstCallWaits(self);
    } else {
      EverySessionIsReached(self, n - 1);
      var run :| run != [] && IsCoroRun(self, run) && FirstStillWaits(run[|run| - 1], n - 1);
      var c := run[|run| - 1];
      assert FramesOwned(c) by {
        FirstIsOwned(c, n - 1);
      }
      OneSessionMore(self, c, n - 1);
      var d := OnMessage(c, self, REQUEST, [PATIENT]);
      RunGoesOn(self, run, REQUEST, [PATIENT]);
      RunGoesOn(self, run + [d], WakeUp(n - 1, Ok), []);
      var longer := run + [d] + [OnMessage(d, self, WakeUp(n - 1, Ok), [])];
      assert FirstStillWaits(longer[|longer| - 1], n % SESSIONS);
    }
  }

  lemma FirstIsOwned(c: Coro, n: nat)
    requires FirstStillWaits(c, n)
    ensures FramesOwned(c)
  {
  }

  lemma FirstCallWaits(self: ActorId)
    ensures ReachesSession(self, 2)
  {
    var run := [FRESH];
    assert IsCoroRun(self, run);
    RunGoesOn(self, run, REQUEST, [PATIENT]);
    var c := OnMessage(FRESH, self, REQUEST, [PATIENT]);
    assert c.waiting == map[1 := 0] && c.frames == map[0 := Suspended(1, PATIENT, 0)];
    assert FirstStillWaits((run + [c])[|run + [c]| - 1], 2);
  }

  // A frame that is suspended, but that no session leads to any more.
  ghost predicate Lost(c: Coro, frame: FrameId) {
    frame in c.frames && forall s :: s in c.waiting ==> c.waiting[s] != frame
  }

  // Two more calls take the sessions 0 and 1.
  lemma SecondCallTakesSession(self: ActorId, c: Coro)
    requires FirstStillWaits(c, 0)
    ensures var d := OnMessage(c, self, REQUEST, [PATIENT]);
            FramesOwned(d) && Lost(OnMessage(d, self, REQUEST, [PATIENT]), 0)
  {
    hide OnMessage, FramesOwned;
    FirstIsOwned(c, 0);
    CallSuspends(c, self);
    var d := OnMessage(c, self, REQUEST, [PATIENT]);
    assert d.nextFrame !in d.frames;
    CallSuspends(d, self);
    var e := OnMessage(d, self, REQUEST, [PATIENT]);
    assert e.waiting == map[1 := d.nextFrame, 0 := c.nextFrame] && 0 in e.frames;
  }

  // A call that is not answered while 2^32 sessions pass does lose its frame to another call.
  lemma LongCallLosesFrame(self: ActorId)
    ensures exists run :: run != [] && IsCoroRun(self, run) && Lost(run[|run| - 1], 0)
  {
    hide IsCoroRun, FirstStillWaits, OnMessage, Lost;
    EverySessionIsReached(self, SESSIONS);
    var run :| run != [] && IsCoroRun(self, run) && FirstStillWaits(run[|run| - 1], 0);
    var c := run[|run| - 1];
    FirstIsOwned(c, 0);
    SecondCallTakesSession(self, c);
    var d := OnMessage(c, self, REQUEST, [PATIENT]);
    RunGoesOn(self, run, REQUEST, [PATIENT]);
    RunGoesOn(self, run + [d], REQUEST, [PATIENT]);
    var longer := run + [d] + [OnMessage(d, self, REQUEST, [PATIENT])];
    assert Lost(longer[|longer| - 1], 0);
  }
}
