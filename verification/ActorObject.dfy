/**
 The Actor object: two mailboxes, the wait and response maps, and the methods that process one
 message. Each method is proved against the transition of module Coroutines it performs.
 */
module ActorObject {
  import opened Bytes
  import opened Wrappers
  import opened Messages
  import opened Queues
  import opened Coroutines

  class Actor {
    const actorId: ActorId
    const priorityMailbox: SpinLockQueue<ActorMessage>
    const normalMailbox: SpinLockQueue<ActorMessage>
    var nextSessionId: SessionId
    var waitMap: map<SessionId, FrameId>
    var responseMap: map<SessionId, ActorMessage>
    // The suspended coroutine frames, with the awaiter each of them holds.
    var frames: map<FrameId, Suspended>
    // The timer ids handed out by the timer manager, and everything asked of the system.
    var nextTimer: TimerId
    var out: seq<Output>
    ghost var nextFrame: FrameId
    ghost var completed: seq<FrameId>
    ghost var destroyed: multiset<FrameId>
    ghost var resumed: seq<Resumption>
    ghost var slept: set<SessionId>
    ghost var awaits: map<SessionId, Await>

    constructor (id: ActorId)
      ensures State() == FRESH && CoroInv(State())
      ensures actorId == id && priorityMailbox != normalMailbox
      ensures fresh(priorityMailbox) && fresh(normalMailbox)
      ensures priorityMailbox.queue == [] && normalMailbox.queue == []
    {
      actorId := id;
      priorityMailbox := new SpinLockQueue();
      normalMailbox := new SpinLockQueue();
      nextSessionId, waitMap, responseMap, frames := 1, map[], map[], map[];
      nextTimer, out := 1, [];
      nextFrame, completed, destroyed, resumed, slept, awaits := 0, [], multiset{}, [], {}, map[];
      new;
      FreshIsGood();
    }

    ghost function State(): Coro
      reads this
    {
      Coro(nextSessionId, waitMap, responseMap, frames, nextFrame, nextTimer, completed, destroyed, resumed,
           slept, awaits, out)
    }

    method PushMessage(msg: ActorMessage)
      modifies priorityMailbox, normalMailbox
      requires priorityMailbox != normalMailbox
      ensures priorityMailbox.queue == if msg.priority then old(priorityMailbox.queue) + [msg]
                                         else old(priorityMailbox.queue)
      ensures normalMailbox.queue == if msg.priority then old(normalMailbox.queue)
                                       else old(normalMailbox.queue) + [msg]
    {
      if msg.priority {
        priorityMailbox.push(msg);
      } else {
        normalMailbox.push(msg);
      }
    }

    method IsMailboxEmpty() returns (isEmpty: bool)
      ensures isEmpty <==> priorityMailbox.queue == [] && normalMailbox.queue == []
    {
      isEmpty := priorityMailbox.empty();
      if isEmpty {
        isEmpty := normalMailbox.empty();
      }
    }

    method AllocSession() returns (session: SessionId)
      modifies this`nextSessionId
      ensures session == old(nextSessionId) && nextSessionId == (session + 1) % SESSIONS
    {
      session := nextSessionId;
      nextSessionId := (nextSessionId + 1) % SESSIONS;
    }

    method StoreWaiting(session: SessionId, h: FrameId)
      modifies this`waitMap
      ensures waitMap == old(waitMap)[session := h]
    {
      waitMap := waitMap[session := h];
    }

    method SetTimeout(delayMs: int, msg: ActorMessage) returns (timerId: TimerId)
      modifies this`nextTimer, this`out
      ensures timerId == old(nextTimer) && nextTimer == timerId + 1
      ensures out == old(out) + [TimerSet(timerId, delayMs, msg)]
    {
      timerId := nextTimer;
      nextTimer := nextTimer + 1;
      out := out + [TimerSet(timerId, delayMs, msg)];
    }

    // What the three awaiters send once the frame is stored: the request, then a timer.
    method SendRequest(a: Await, sessionId: SessionId) returns (timerId: TimerId)
      modifies this`nextTimer, this`out
      ensures var timed := a.Sleep? || Delay(a) > 0;
              && timerId == (if timed && !a.Sleep? then old(nextTimer) else 0)
              && nextTimer == (if timed then old(nextTimer) + 1 else old(nextTimer))
              && out == old(out) + Request(actorId, a, sessionId)
                        + if timed
                          then [TimerSet(old(nextTimer), Delay(a),
                                          WakeUp(sessionId, if a.Sleep? then Ok else Timeout))]
                          else []
    {
      timerId := 0;
      match a {
        case Call(targetId, msg, timeoutMs) =>
          out := out + [Sent(targetId, msg.(sessionId := sessionId, sourceId := actorId))];
          if timeoutMs > 0 {
            timerId := SetTimeout(timeoutMs, WakeUp(sessionId, Timeout));
          }
        case ClusterCall(targetNodeId, targetActorName, msg, timeoutMs) =>
          out := out + [SentRemote(targetNodeId, targetActorName, msg.(sessionId := sessionId, sourceId := actorId))];
          if timeoutMs > 0 {
            timerId := SetTimeout(timeoutMs, WakeUp(sessionId, Timeout));
          }
        case Sleep(milliseconds) =>
          assert old(out) + [] == old(out);
          var _ := SetTimeout(milliseconds, WakeUp(sessionId, Ok));
      }
    }

    // await_suspend of the three awaiters.
    method AwaitSuspend(h: FrameId, a: Await)
      modifies this
      ensures State() == Suspend(old(State()), actorId, h, a)
    {
      hide Request, Delay, WakeUp;
      var sessionId := AllocSession();
      StoreWaiting(sessionId, h);
      var timerId := SendRequest(a, sessionId);
      frames := frames[h := Suspended(sessionId, a, timerId)];
      awaits := awaits[sessionId := a];
    }

    // await_resume of the three awaiters.
    method AwaitResume(awaiter: Suspended) returns (result: ActorMessage)
      modifies this
      ensures (State(), result) == TakeResult(old(State()), awaiter)
    {
      result := ActorMessage(NoType);
      if awaiter.await.Sleep? {
        slept := slept + {awaiter.sessionId};
        return;
      }
      if awaiter.sessionId in responseMap {
        result := responseMap[awaiter.sessionId];
        responseMap := responseMap - {awaiter.sessionId};
      }
      assert responseMap == old(responseMap) - {awaiter.sessionId};
      if result.error == Ok && awaiter.timerId != 0 {
        out := out + [TimerCancelled(awaiter.timerId)];
      }
    }

    // The frame runs: awaits that are ready do not suspend it, the first other one does.
    method RunFrame(h: FrameId, script: seq<Await>)
      modifies this
      ensures State() == Coroutines.Run(old(State()), actorId, h, script)
    {
      var i := 0;
      while i < |script| && script[i].Ready()
        invariant i <= |script|
        invariant State() == old(State())
        invariant Coroutines.Run(State(), actorId, h, script) == Coroutines.Run(State(), actorId, h, script[i..])
      {
        assert script[i..][1..] == script[i + 1..];
        i := i + 1;
      }
      if i < |script| {
        AwaitSuspend(h, script[i]);
      } else {
        completed := completed + [h];
      }
    }

    // OnCoroutineMessage creates the frame h and runs it.
    method OnCoroutineMessage(h: FrameId, script: seq<Await>)
      requires h == nextFrame
      modifies this
      ensures State() == Start(old(State()), actorId, script)
    {
      nextFrame := nextFrame + 1;
      RunFrame(h, script);
    }

    method ResumeWaiting(session: SessionId, response: ActorMessage, script: seq<Await>) returns (found: bool)
      requires FramesOwned(State())
      modifies this
      ensures found == (session in old(waitMap))
      ensures State() == if found then Resume(old(State()), actorId, session, response, script) else old(State())
    {
      hide FramesLinear, SessionsFresh, TakeResult, Coroutines.Run;
      if session !in waitMap {
        return false;
      }
      var h := waitMap[session];
      waitMap := waitMap - {session};
      responseMap := responseMap[session := response];
      var awaiter := frames[h];
      frames := frames - {h};
      var result := AwaitResume(awaiter);
      resumed := resumed + [Resumption(session, h, awaiter.await, result)];
      RunFrame(h, script);
      found := true;
    }

    method OnMessage(h: FrameId, msg: ActorMessage, script: seq<Await>)
      requires FramesOwned(State()) && h == nextFrame
      modifies this
      ensures State() == Coroutines.OnMessage(old(State()), actorId, msg, script)
    {
      hide Resume, Start;
      if msg.isResponse && msg.sessionId > 0 {
        var found := ResumeWaiting(msg.sessionId, msg, script);
      } else {
        OnCoroutineMessage(h, script);
      }
    }

    // The two pops of ProcessOne.
    method PopNext() returns (opt: Option<ActorMessage>)
      requires priorityMailbox != normalMailbox
      modifies priorityMailbox, normalMailbox
      ensures var all := old(priorityMailbox.queue) + old(normalMailbox.queue);
              && opt == (if all == [] then None else Some(all[0]))
              && priorityMailbox.queue + normalMailbox.queue == (if all == [] then [] else all[1..])
              && (all != [] ==> |normalMailbox.queue| == if old(priorityMailbox.queue) != []
                                                         then |old(normalMailbox.queue)|
                                                         else |old(normalMailbox.queue)| - 1)
    {
      opt := priorityMailbox.pop();
      if opt.None? {
        opt := normalMailbox.pop();
      }
    }

    // Takes one message, from the priority queue if it holds any, and runs it.
    method ProcessOne(h: FrameId, script: seq<Await>) returns (processed: bool)
      requires FramesOwned(State()) && h == nextFrame && priorityMailbox != normalMailbox
      modifies this, priorityMailbox, normalMailbox
      ensures processed <==> old(priorityMailbox.queue) + old(normalMailbox.queue) != []
      ensures processed ==>
                var all := old(priorityMailbox.queue) + old(normalMailbox.queue);
                && State() == Coroutines.OnMessage(old(State()), actorId, all[0], script)
                && priorityMailbox.queue + normalMailbox.queue == all[1..]
                && |normalMailbox.queue| == if old(priorityMailbox.queue) != [] then |old(normalMailbox.queue)|
                                            else |old(normalMailbox.queue)| - 1
      ensures !processed ==> State() == old(State())
      ensures old(CoroInv(State()) && nextSessionId < SESSIONS - 1) ==> CoroInv(State())
    {
      hide CoroInv, FramesOwned, Coroutines.OnMessage;
      ghost var before := State();
      var opt := PopNext();
      if opt.None? {
        return false;
      }
      assert State() == before;
      if CoroInv(before) && nextSessionId < SESSIONS - 1 {
        OnMessageKeeps(before, actorId, opt.value, script);
      }
      OnMessage(h, opt.value, script);
      processed := true;
    }

    // The loop of DestroyAllCoroutines: every frame that still waits is destroyed once.
    method DestroyFrames()
      requires CoroInv(State())
      modifies this`frames, this`destroyed
      ensures frames == map[]
      ensures destroyed == old(destroyed) + multiset(old(frames).Keys)
    {
      hide CoroInv, Destroying;
      ghost var c := State();
      var rest := waitMap.Keys;
      DestroyStarts(c);
      while rest != {}
        invariant Destroying(c, rest, frames, destroyed)
        decreases rest
      {
        var session :| session in rest;
        DestroyStep(c, rest, frames, destroyed, session);
        var h := waitMap[session];
        frames := frames - {h};
        destroyed := destroyed + multiset{h};
        rest := rest - {session};
      }
      DestroyEnds(c, frames, destroyed);
    }

    method DestroyAllCoroutines()
      requires CoroInv(State())
      modifies this
      ensures State() == DestroyAll(old(State()))
      ensures CoroInv(State())
    {
      hide CoroInv;
      DestroyKeeps(State());
      DestroyFrames();
      waitMap := map[];
      responseMap := map[];
      slept := {};
    }
  }

  // The frames whose session is in `rest` are still suspended, the others were destroyed once.
  ghost predicate Destroying(c: Coro, rest: set<SessionId>, frames: map<FrameId, Suspended>,
                             destroyed: multiset<FrameId>) {
    && rest <= c.waiting.Keys
    && frames.Keys <= c.frames.Keys
    && (forall f :: f in c.frames ==> (f in frames <==> c.frames[f].sessionId in rest))
    && destroyed == c.destroyed + multiset(c.frames.Keys - frames.Keys)
  }

  lemma DestroyStarts(c: Coro)
    requires CoroInv(c)
    ensures Destroying(c, c.waiting.Keys, c.frames, c.destroyed)
  {
    assert c.frames.Keys - c.frames.Keys == {};
  }

  lemma DestroyStep(c: Coro, rest: set<SessionId>, frames: map<FrameId, Suspended>, destroyed: multiset<FrameId>,
                    session: SessionId)
    requires CoroInv(c) && session in rest && Destroying(c, rest, frames, destroyed)
    ensures session in c.waiting
    ensures Destroying(c, rest - {session}, frames - {c.waiting[session]}, destroyed + multiset{c.waiting[session]})
  {
    var h := c.waiting[session];
    assert h in frames;
    assert c.frames.Keys - (frames - {h}).Keys == (c.frames.Keys - frames.Keys) + {h};
  }

  lemma DestroyEnds(c: Coro, frames: map<FrameId, Suspended>, destroyed: multiset<FrameId>)
    requires Destroying(c, {}, frames, destroyed)
    ensures frames == map[] && destroyed == c.destroyed + multiset(c.frames.Keys)
  {
    assert forall f :: f in frames ==> f in c.frames;
    assert c.frames.Keys - frames.Keys == c.frames.Keys;
  }
}
