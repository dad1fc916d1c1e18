/**
 What an actor's history says about its sessions: every request and every timer it put out
 belongs to the one await its session was allocated for.
 */
module SessionHistory {
  import opened Bytes
  import opened Messages
  import opened Coroutines

  // The output is the request or the timer of the await recorded for its session.
  ghost predicate OutputOk(awaits: map<SessionId, Await>, self: ActorId, o: Output) {
    match o
    case Sent(_, m) => m.sessionId in awaits && Request(self, awaits[m.sessionId], m.sessionId) == [o]
    case SentRemote(_, _, m) => m.sessionId in awaits && Request(self, awaits[m.sessionId], m.sessionId) == [o]
    case TimerSet(_, _, m) =>
      && m.sessionId in awaits
      && m == WakeUp(m.sessionId, if awaits[m.sessionId].Sleep? then Ok else Timeout)
    case TimerCancelled(_) => true
  }

  ghost predicate AwaitInv(c: Coro, self: ActorId) {
    && (forall s :: s in c.awaits ==> 1 <= s < c.nextSession)
    && (forall f :: f in c.frames ==>
          c.frames[f].sessionId in c.awaits && c.awaits[c.frames[f].sessionId] == c.frames[f].await)
    && (forall i :: 0 <= i < |c.resumed| ==>
          c.resumed[i].session in c.awaits && c.awaits[c.resumed[i].session] == c.resumed[i].await)
    && (forall o :: o in c.out ==> OutputOk(c.awaits, self, o))
  }

  // Histories only grow, and new awaits come from the script.
  ghost predicate Grows(c: Coro, d: Coro, script: seq<Await>) {
    && c.out <= d.out
    && (forall s :: s in c.awaits ==> s in d.awaits && d.awaits[s] == c.awaits[s])
    && (forall s :: s in d.awaits ==> s in c.awaits || d.awaits[s] in script)
  }

  lemma OutputStaysOk(awaits: map<SessionId, Await>, session: SessionId, a: Await, self: ActorId, o: Output)
    requires OutputOk(awaits, self, o) && session !in awaits
    ensures OutputOk(awaits[session := a], self, o)
  {
    hide Request;
  }

  lemma SuspendHistory(c: Coro, self: ActorId, frame: FrameId, a: Await)
    requires AwaitInv(c, self) && 1 <= c.nextSession < SESSIONS - 1
    ensures AwaitInv(Suspend(c, self, frame, a), self)
    ensures Grows(c, Suspend(c, self, frame, a), [a])
  {
    var d := Suspend(c, self, frame, a);
    var s := c.nextSession;
    assert d.nextSession == s + 1;
    NewOutputs(c, self, frame, a);
    forall o | o in d.out
      ensures OutputOk(d.awaits, self, o)
    {
      if o in c.out {
        OutputStaysOk(c.awaits, s, a, self, o);
      }
    }
  }

  lemma NewOutputs(c: Coro, self: ActorId, frame: FrameId, a: Await)
    ensures var d := Suspend(c, self, frame, a);
            && c.out <= d.out
            && (forall o :: o in d.out ==> o in c.out || OutputOk(d.awaits, self, o))
  {
    var s := c.nextSession;
    var d := Suspend(c, self, frame, a);
    var request := Request(self, a, s);
    var timer := if a.Sleep? || Delay(a) > 0
                 then [TimerSet(c.nextTimer, Delay(a), WakeUp(s, if a.Sleep? then Ok else Timeout))] else [];
    assert d.out == c.out + request + timer;
    forall o | o in d.out && o !in c.out
      ensures OutputOk(d.awaits, self, o)
    {
      assert o in request || o in timer;
    }
  }

  lemma {:induction false} RunHistory(c: Coro, self: ActorId, frame: FrameId, script: seq<Await>)
    requires AwaitInv(c, self) && 1 <= c.nextSession < SESSIONS - 1
    ensures AwaitInv(Run(c, self, frame, script), self)
    ensures Grows(c, Run(c, self, frame, script), script)
  {
    hide Suspend, OutputOk;
    if script == [] {
    } else if script[0].Ready() {
      RunHistory(c, self, frame, script[1..]);
      GrowsWith(c, Run(c, self, frame, script[1..]), script[1..], script);
    } else {
      SuspendHistory(c, self, frame, script[0]);
      GrowsWith(c, Suspend(c, self, frame, script[0]), [script[0]], script);
    }
  }

  lemma GrowsWith(c: Coro, d: Coro, script: seq<Await>, longer: seq<Await>)
    requires Grows(c, d, script) && forall a :: a in script ==> a in longer
    ensures Grows(c, d, longer)
  {
  }

  lemma ResumeHistory(c: Coro, self: ActorId, session: SessionId, response: ActorMessage, script: seq<Await>)
    requires CoroInv(c) && AwaitInv(c, self) && session in c.waiting && c.nextSession < SESSIONS - 1
    ensures AwaitInv(Resume(c, self, session, response, script), self)
    ensures Grows(c, Resume(c, self, session, response, script), script)
  {
    hide Run, OutputOk, FramesLinear, SessionsFresh;
    var frame := c.waiting[session];
    var stored := c.(waiting := c.waiting - {session},
                     responses := c.responses[session := response],
                     frames := c.frames - {frame});
    var (taken, result) := TakeResult(stored, c.frames[frame]);
    var running := taken.(resumed := taken.resumed + [Resumption(session, frame, c.frames[frame].await, result)]);
    TakenHistory(c, self, stored, c.frames[frame]);
    RunHistory(running, self, frame, script);
    assert c.out <= running.out;
  }

  lemma TakenHistory(c: Coro, self: ActorId, stored: Coro, s: Suspended)
    requires AwaitInv(c, self) && stored.awaits == c.awaits && stored.out == c.out
    ensures var d := TakeResult(stored, s).0;
            && d == stored.(responses := d.responses, slept := d.slept, out := d.out)
            && c.out <= d.out
            && (forall o :: o in d.out ==> OutputOk(c.awaits, self, o))
  {
    hide Request, WakeUp;
  }

  lemma OnMessageHistory(c: Coro, self: ActorId, msg: ActorMessage, script: seq<Await>)
    requires CoroInv(c) && AwaitInv(c, self) && c.nextSession < SESSIONS - 1
    ensures AwaitInv(OnMessage(c, self, msg, script), self)
    ensures Grows(c, OnMessage(c, self, msg, script), script)
  {
    hide Resume, Run, AwaitInv, FramesLinear, FramesOwned;
    if msg.isResponse && msg.sessionId > 0 {
      if msg.sessionId in c.waiting {
        ResumeHistory(c, self, msg.sessionId, msg, script);
      }
    } else {
      var fresh_ := c.(nextFrame := c.nextFrame + 1);
      SameHistory(c, fresh_, self);
      RunHistory(fresh_, self, c.nextFrame, script);
    }
  }

  lemma SameHistory(c: Coro, d: Coro, self: ActorId)
    requires AwaitInv(c, self) && d == c.(nextFrame := d.nextFrame)
    ensures AwaitInv(d, self)
  {
  }

  // Every resumption that a message causes is of its session, with that message as the result
  // of a call.
  lemma OnMessageResumes(c: Coro, self: ActorId, msg: ActorMessage, script: seq<Await>)
    requires CoroInv(c) && c.nextSession < SESSIONS - 1
    ensures var d := OnMessage(c, self, msg, script);
            && c.resumed <= d.resumed
            && (forall i :: |c.resumed| <= i < |d.resumed| ==>
                  && IsResponseTo(msg, d.resumed[i].session)
                  && (!d.resumed[i].await.Sleep? ==> d.resumed[i].result == msg))
  {
    hide Resume, Start, FramesLinear;
    if msg.isResponse && msg.sessionId > 0 {
      if msg.sessionId in c.waiting {
        ResumeKeeps(c, self, msg.sessionId, msg, script);
      }
    } else {
      StartKeeps(c, self, script);
    }
  }
}
