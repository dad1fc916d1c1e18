/**
 What the timer manager is for: a set of live timers, from which the earliest one that is due
 is taken again and again. TimerManager refines this with its heap, its lookup map and lazy
 cancellation.
 */
module TimerSchedule {
  import opened Messages

  type TimerId = nat
  type int32 = x: int | -0x8000_0000 <= x < 0x8000_0000

  // A steady clock in milliseconds stays far below the end of 64 bits.
  type Millis = x: int | 0 <= x < 0x8000_0000_0000_0000

  const TWO64: nat := 0x1_0000_0000_0000_0000

  datatype Timer = Timer(expire: nat, actorId: ActorId, msg: ActorMessage, interval: int32)

  datatype Timers = Timers(live: map<TimerId, Timer>, nextId: TimerId)

  // One collected timer: its id, what it was, the clock reading that found it due, and the
  // later reading from which a periodic timer is armed again.
  datatype Fired = Fired(id: TimerId, timer: Timer, readAt: Millis, rearmAt: Millis)

  // The sum of a clock reading and a signed delay, in 64 bits.
  function Deadline(now: Millis, delay: int32): nat {
    (now + delay) % TWO64
  }

  // Below zero the sum wraps around, beyond every reading of the clock.
  lemma DeadlineIs(now: Millis, delay: int32)
    ensures 0 <= now + delay ==> Deadline(now, delay) == now + delay
    ensures now + delay < 0 ==> Deadline(now, delay) >= 0x8000_0000_0000_0000
  {
  }

  function Add(s: Timers, t: Timer): Timers {
    Timers(s.live[s.nextId := t], s.nextId + 1)
  }

  function Cancel(s: Timers, id: TimerId): Timers {
    s.(live := s.live - {id})
  }

  // A periodic timer is armed again, a one-shot timer is gone.
  function Fire(s: Timers, f: Fired): Timers {
    if f.timer.interval > 0 then s.(live := s.live[f.id := f.timer.(expire := f.rearmAt + f.timer.interval)])
    else s.(live := s.live - {f.id})
  }

  function FireAll(s: Timers, batch: seq<Fired>): Timers {
    if batch == [] then s else Fire(FireAll(s, batch[..|batch| - 1]), batch[|batch| - 1])
  }

  // The timer is live, due at its reading, and no live timer expires earlier.
  ghost predicate Legal(s: Timers, f: Fired) {
    && f.id in s.live && s.live[f.id] == f.timer
    && f.timer.expire <= f.readAt <= f.rearmAt
    && forall id :: id in s.live ==> f.timer.expire <= s.live[id].expire
  }

  // A batch collected while the clock went from `low` to `now`.
  ghost predicate LegalBatch(s: Timers, batch: seq<Fired>, low: Millis, now: Millis) {
    if batch == [] then low <= now
    else
      var n := |batch| - 1;
      && LegalBatch(s, batch[..n], low, batch[n].readAt)
      && Legal(FireAll(s, batch[..n]), batch[n])
      && batch[n].rearmAt <= now
  }

  // No live timer is due any more.
  ghost predicate NothingDue(s: Timers, now: Millis) {
    forall id :: id in s.live ==> s.live[id].expire > now
  }

  lemma {:induction false} BatchPrefix(s: Timers, batch: seq<Fired>, low: Millis, now: Millis, k: nat)
    requires LegalBatch(s, batch, low, now) && k < |batch|
    ensures LegalBatch(s, batch[..k], low, batch[k].readAt) && Legal(FireAll(s, batch[..k]), batch[k])
    ensures low <= batch[k].readAt <= batch[k].rearmAt <= now
  {
    var n := |batch| - 1;
    if k < n {
      assert batch[..n][..k] == batch[..k];
      BatchPrefix(s, batch[..n], low, batch[n].readAt, k);
    } else {
      ClockMoves(s, batch[..n], low, batch[n].readAt);
    }
  }

  lemma {:induction false} ClockMoves(s: Timers, batch: seq<Fired>, low: Millis, now: Millis)
    requires LegalBatch(s, batch, low, now)
    ensures low <= now
  {
    if batch != [] {
      ClockMoves(s, batch[..|batch| - 1], low, batch[|batch| - 1].readAt);
    }
  }

  // Whatever was collected, only later timers are left, although periodic timers come back.
  lemma {:induction false} LeftIsLater(s: Timers, batch: seq<Fired>, low: Millis, now: Millis, i: nat)
    requires LegalBatch(s, batch, low, now) && i < |batch|
    ensures forall id :: id in FireAll(s, batch).live ==> batch[i].timer.expire <= FireAll(s, batch).live[id].expire
  {
    var n := |batch| - 1;
    var before := FireAll(s, batch[..n]);
    if i < n {
      LeftIsLater(s, batch[..n], low, batch[n].readAt, i);
      assert batch[..n][i] == batch[i];
    }
  }

  // Collection is in order of expiry.
  lemma CollectedInOrder(s: Timers, batch: seq<Fired>, low: Millis, now: Millis, i: nat, j: nat)
    requires LegalBatch(s, batch, low, now) && i < j < |batch|
    ensures batch[i].timer.expire <= batch[j].timer.expire
  {
    BatchPrefix(s, batch, low, now, j);
    LeftIsLater(s, batch[..j], low, batch[j].readAt, i);
    assert batch[..j][i] == batch[i];
  }

  // A timer that is not live, and whose id was handed out, does not come back by firing others.
  lemma {:induction false} GoneStaysGone(s: Timers, batch: seq<Fired>, low: Millis, now: Millis, id: TimerId)
    requires LegalBatch(s, batch, low, now) && id !in s.live
    ensures id !in FireAll(s, batch).live
    ensures forall i :: 0 <= i < |batch| ==> batch[i].id != id
  {
    if batch != [] {
      var n := |batch| - 1;
      GoneStaysGone(s, batch[..n], low, batch[n].readAt, id);
      assert forall i :: 0 <= i < n ==> batch[i] == batch[..n][i];
    }
  }

  lemma {:induction false} FireAllSplit(s: Timers, batch: seq<Fired>, k: nat)
    requires k <= |batch|
    ensures FireAll(s, batch) == FireAll(FireAll(s, batch[..k]), batch[k..])
  {
    var n := |batch| - 1;
    if k == |batch| {
      assert batch[..k] == batch;
    } else {
      assert batch[..n][..k] == batch[..k];
      assert batch[k..][..|batch[k..]| - 1] == batch[..n][k..];
      FireAllSplit(s, batch[..n], k);
    }
  }

  lemma {:induction false} BatchSuffix(s: Timers, batch: seq<Fired>, low: Millis, now: Millis, k: nat)
    requires LegalBatch(s, batch, low, now) && k < |batch|
    ensures LegalBatch(FireAll(s, batch[..k + 1]), batch[k + 1..], batch[k].rearmAt, now)
  {
    hide FireAll, Legal;
    var n := |batch| - 1;
    if k < n {
      assert batch[..n][..k + 1] == batch[..k + 1];
      BatchSuffix(s, batch[..n], low, batch[n].readAt, k);
      var tail := batch[k + 1..];
      assert tail[..|tail| - 1] == batch[..n][k + 1..];
      assert tail[|tail| - 1] == batch[n] && batch[..n][k] == batch[k];
      FireAllSplit(s, batch[..n], k + 1);
    } else {
      BatchPrefix(s, batch, low, now, k);
    }
  }

  // A one-shot timer is collected at most once in a batch, and is not live afterwards.
  lemma OneShotOnce(s: Timers, batch: seq<Fired>, low: Millis, now: Millis, i: nat)
    requires LegalBatch(s, batch, low, now) && i < |batch| && batch[i].timer.interval <= 0
    ensures batch[i].id !in FireAll(s, batch).live
    ensures forall j :: 0 <= j < |batch| && j != i ==> batch[j].id != batch[i].id
  {
    var id := batch[i].id;
    var rest := batch[i + 1..];
    BatchSuffix(s, batch, low, now, i);
    FireAllSplit(s, batch, i + 1);
    assert batch[..i + 1][..i] == batch[..i];
    GoneStaysGone(FireAll(s, batch[..i + 1]), rest, batch[i].rearmAt, now, id);
    forall j | 0 <= j < i
      ensures batch[j].id != id
    {
      if batch[j].id == id {
        FiredEarlierIsPeriodic(s, batch, low, now, j, i);
        assert false;
      }
    }
    assert forall j :: i < j < |batch| ==> batch[j] == rest[j - i - 1];
  }

  // A timer collected again later in the batch is periodic.
  lemma FiredEarlierIsPeriodic(s: Timers, batch: seq<Fired>, low: Millis, now: Millis, j: nat, i: nat)
    requires LegalBatch(s, batch, low, now) && j < i < |batch| && batch[j].id == batch[i].id
    ensures batch[j].timer.interval > 0 && batch[i].timer.interval > 0
  {
    assert batch[i] == batch[j + 1..][i - j - 1];
    if batch[j].timer.interval <= 0 {
      BatchSuffix(s, batch, low, now, j);
      assert batch[..j + 1][..j] == batch[..j];
      GoneStaysGone(FireAll(s, batch[..j + 1]), batch[j + 1..], batch[j].rearmAt, now, batch[j].id);
      assert false;
    }
    IntervalIsFixed(s, batch, low, now, j, batch[j].id);
    IntervalIsFixed(s, batch, low, now, i, batch[i].id);
  }

  lemma {:induction false} IntervalIsFixed(s: Timers, batch: seq<Fired>, low: Millis, now: Millis,
                                        k: nat, id: TimerId)
    requires LegalBatch(s, batch, low, now) && k < |batch| && batch[k].id == id
    ensures id in s.live && s.live[id].interval == batch[k].timer.interval
  {
    BatchPrefix(s, batch, low, now, k);
    LiveIntervals(s, batch[..k], low, batch[k].readAt, id);
  }

  lemma {:induction false} LiveIntervals(s: Timers, batch: seq<Fired>, low: Millis, now: Millis, id: TimerId)
    requires LegalBatch(s, batch, low, now) && id in FireAll(s, batch).live
    ensures id in s.live && s.live[id].interval == FireAll(s, batch).live[id].interval
  {
    if batch != [] {
      var n := |batch| - 1;
      var before := FireAll(s, batch[..n]);
      assert id in before.live;
      LiveIntervals(s, batch[..n], low, batch[n].readAt, id);
    }
  }

  // With a clock that stands still, a batch that leaves nothing due has collected exactly the
  // timers that were due, each once.
  lemma StandingClock(s: Timers, batch: seq<Fired>, now: Millis)
    requires LegalBatch(s, batch, now, now) && NothingDue(FireAll(s, batch), now)
    ensures forall i, j :: 0 <= i < j < |batch| ==> batch[i].id != batch[j].id
    ensures forall id :: (id in s.live && s.live[id].expire <= now)
              <==> exists i :: 0 <= i < |batch| && batch[i].id == id
  {
    forall i, j | 0 <= i < j < |batch|
      ensures batch[i].id != batch[j].id
    {
      BatchPrefix(s, batch, now, now, j);
      FiredIsNotDue(s, batch[..j], now, i);
      assert batch[..j][i] == batch[i];
    }
    forall id
      ensures (id in s.live && s.live[id].expire <= now) <==> exists i :: 0 <= i < |batch| && batch[i].id == id
    {
      if id in s.live && s.live[id].expire <= now {
        DueIsFired(s, batch, now, id);
      }
      if i :| 0 <= i < |batch| && batch[i].id == id {
        BatchPrefix(s, batch, now, now, i);
        StillOriginal(s, batch[..i], now, id);
      }
    }
  }

  // After firing under a standing clock, the timer is gone or armed for later.
  lemma {:induction false} FiredIsNotDue(s: Timers, batch: seq<Fired>, now: Millis, i: nat)
    requires LegalBatch(s, batch, now, now) && i < |batch|
    ensures batch[i].id in FireAll(s, batch).live ==> FireAll(s, batch).live[batch[i].id].expire > now
  {
    var n := |batch| - 1;
    BatchPrefix(s, batch, now, now, n);
    if i < n && batch[i].id != batch[n].id {
      FiredIsNotDue(s, batch[..n], now, i);
      assert batch[..n][i] == batch[i];
    }
  }

  // Under a standing clock a live timer that is due is still the original one.
  lemma {:induction false} StillOriginal(s: Timers, batch: seq<Fired>, now: Millis, id: TimerId)
    requires LegalBatch(s, batch, now, now)
    requires id in FireAll(s, batch).live && FireAll(s, batch).live[id].expire <= now
    ensures id in s.live && s.live[id] == FireAll(s, batch).live[id]
  {
    if batch != [] {
      var n := |batch| - 1;
      BatchPrefix(s, batch, now, now, n);
      StillOriginal(s, batch[..n], now, id);
    }
  }

  // A timer that was due and was not collected is still live and due.
  lemma {:induction false} DueIsFired(s: Timers, batch: seq<Fired>, now: Millis, id: TimerId)
    requires LegalBatch(s, batch, now, now) && id in s.live && s.live[id].expire <= now
    ensures (exists i :: 0 <= i < |batch| && batch[i].id == id)
            || (id in FireAll(s, batch).live && FireAll(s, batch).live[id].expire <= now)
  {
    if batch != [] {
      var n := |batch| - 1;
      BatchPrefix(s, batch, now, now, n);
      DueIsFired(s, batch[..n], now, id);
      assert forall i :: 0 <= i < n ==> batch[i] == batch[..n][i];
      if batch[n].id != id {
        if i :| 0 <= i < n && batch[..n][i].id == id {
          assert batch[i].id == id;
        }
      }
    }
  }

  // --------------------------------------------------------------------------------------
  // A clock that keeps advancing
  // --------------------------------------------------------------------------------------

  // The timer keeps what it was set for; only its expiry may move.
  ghost predicate SamePurpose(t: Timer, u: Timer) {
    t.actorId == u.actorId && t.msg == u.msg && t.interval == u.interval
  }

  // Expiry only moves forward.
  lemma {:induction false} ExpiresLater(s: Timers, batch: seq<Fired>, low: Millis, now: Millis, id: TimerId)
    requires LegalBatch(s, batch, low, now) && id in FireAll(s, batch).live
    ensures id in s.live && s.live[id].expire <= FireAll(s, batch).live[id].expire
    ensures SamePurpose(s.live[id], FireAll(s, batch).live[id])
  {
    if batch != [] {
      var n := |batch| - 1;
      ExpiresLater(s, batch[..n], low, batch[n].readAt, id);
    }
  }

  // A timer that is collected again in the same batch had its whole interval pass meanwhile.
  lemma AgainAfterInterval(s: Timers, batch: seq<Fired>, low: Millis, now: Millis, i: nat, j: nat)
    requires LegalBatch(s, batch, low, now) && i < j < |batch| && batch[i].id == batch[j].id
    ensures 0 < batch[i].timer.interval && batch[i].rearmAt + batch[i].timer.interval <= batch[j].readAt
  {
    hide LegalBatch;
    FiredEarlierIsPeriodic(s, batch, low, now, i, j);
    BatchSuffix(s, batch, low, now, i);
    var after := FireAll(s, batch[..i + 1]);
    assert batch[..i + 1][..i] == batch[..i];
    var rest := batch[i + 1..];
    assert rest[j - i - 1] == batch[j];
    BatchPrefix(after, rest, batch[i].rearmAt, now, j - i - 1);
    ExpiresLater(after, rest[..j - i - 1], batch[i].rearmAt, batch[j].readAt, batch[j].id);
  }

  // So a batch that takes less time than the shortest interval ends: it has no timer twice.
  lemma QuickBatchEnds(s: Timers, batch: seq<Fired>, low: Millis, now: Millis)
    requires LegalBatch(s, batch, low, now)
    requires forall id :: id in s.live && s.live[id].interval > 0 ==> now < low + s.live[id].interval
    ensures forall i :: 0 <= i < |batch| ==> batch[i].id in s.live
    ensures forall i, j :: 0 <= i < j < |batch| ==> batch[i].id != batch[j].id
  {
    hide LegalBatch;
    forall i | 0 <= i < |batch|
      ensures batch[i].id in s.live && s.live[batch[i].id].interval == batch[i].timer.interval
      ensures low <= batch[i].readAt <= batch[i].rearmAt <= now
    {
      BatchPrefix(s, batch, low, now, i);
      IntervalIsFixed(s, batch, low, now, i, batch[i].id);
    }
    forall i, j | 0 <= i < j < |batch|
      ensures batch[i].id != batch[j].id
    {
      if batch[i].id == batch[j].id {
        AgainAfterInterval(s, batch, low, now, i, j);
      }
    }
  }

  // A timer that fires every millisecond, first at `start`.
  function EveryMillisecond(start: Millis): Timers {
    Timers(map[1 := Timer(start, 1, ActorMessage(UserMessage), 1)], 2)
  }

  function Ticks(start: Millis, n: nat): (batch: seq<Fired>)
    requires start + n < 0x8000_0000_0000_0000
    ensures |batch| == n
  {
    if n == 0 then []
    else
      var now: Millis := start + n - 1;
      Ticks(start, n - 1) + [Fired(1, Timer(now, 1, ActorMessage(UserMessage), 1), now, now)]
  }

  // But if the clock advances by a millisecond from reading to reading, the batch with such a
  // timer gets as long as the clock runs: at its last reading the timer is due again.
  lemma {:induction false} BatchNeedNotEnd(start: Millis, n: nat)
    requires start + n < 0x8000_0000_0000_0000
    ensures |Ticks(start, n)| == n && LegalBatch(EveryMillisecond(start), Ticks(start, n), start, start + n)
    ensures FireAll(EveryMillisecond(start), Ticks(start, n)).live
            == map[1 := Timer(start + n, 1, ActorMessage(UserMessage), 1)]
    ensures !NothingDue(FireAll(EveryMillisecond(start), Ticks(start, n)), start + n)
  {
    if n > 0 {
      BatchNeedNotEnd(start, n - 1);
      assert Ticks(start, n)[..n - 1] == Ticks(start, n - 1);
    }
    assert 1 in FireAll(EveryMillisecond(start), Ticks(start, n)).live;
  }

  // --------------------------------------------------------------------------------------
  // Runs
  // --------------------------------------------------------------------------------------

  // The critical sections of the timer mutex.
  datatype Op =
    | AddOp(now: Millis, delay: int32, actorId: ActorId, msg: ActorMessage, interval: int32)
    | CancelOp(id: TimerId)
    | BatchOp(batch: seq<Fired>, low: Millis, last: Millis)

  function ApplyOp(s: Timers, op: Op): Timers {
    match op
    case AddOp(now, delay, actorId, msg, interval) => Add(s, Timer(Deadline(now, delay), actorId, msg, interval))
    case CancelOp(id) => Cancel(s, id)
    case BatchOp(batch, _, _) => FireAll(s, batch)
  }

  const NO_TIMERS: Timers := Timers(map[], 1)

  function TimersAfter(ops: seq<Op>): Timers {
    if ops == [] then NO_TIMERS else ApplyOp(TimersAfter(ops[..|ops| - 1]), ops[|ops| - 1])
  }

  ghost predicate LegalOps(ops: seq<Op>) {
    forall k :: 0 <= k < |ops| && ops[k].BatchOp? ==>
      LegalBatch(TimersAfter(ops[..k]), ops[k].batch, ops[k].low, ops[k].last)
  }

  lemma {:induction false} FiringKeepsNextId(s: Timers, batch: seq<Fired>)
    ensures FireAll(s, batch).nextId == s.nextId
  {
    if batch != [] {
      FiringKeepsNextId(s, batch[..|batch| - 1]);
    }
  }

  // An id that was handed out and is not live never comes back.
  lemma {:induction false} NeverReturns(ops: seq<Op>, i: nat, j: nat, id: TimerId)
    requires LegalOps(ops) && i <= j <= |ops|
    requires id !in TimersAfter(ops[..i]).live && id < TimersAfter(ops[..i]).nextId
    ensures id !in TimersAfter(ops[..j]).live && id < TimersAfter(ops[..j]).nextId
  {
    if i < j {
      NeverReturns(ops, i, j - 1, id);
      assert ops[..j][..j - 1] == ops[..j - 1];
      var op := ops[j - 1];
      if op.BatchOp? {
        GoneStaysGone(TimersAfter(ops[..j - 1]), op.batch, op.low, op.last, id);
        FiringKeepsNextId(TimersAfter(ops[..j - 1]), op.batch);
      }
    }
  }

  // No batch collected under the mutex after CancelTimer returned contains the cancelled id.
  lemma CancelledIsNotCollected(ops: seq<Op>, i: nat, j: nat, k: nat)
    requires LegalOps(ops) && i < j < |ops|
    requires ops[i].CancelOp? && ops[i].id < TimersAfter(ops[..i]).nextId
    requires ops[j].BatchOp? && k < |ops[j].batch|
    ensures ops[j].batch[k].id != ops[i].id
  {
    assert ops[..i + 1][..i] == ops[..i];
    NeverReturns(ops, i + 1, j, ops[i].id);
    GoneStaysGone(TimersAfter(ops[..j]), ops[j].batch, ops[j].low, ops[j].last, ops[i].id);
  }

  lemma {:induction false} LiveIdsHandedOut(ops: seq<Op>, id: TimerId)
    requires LegalOps(ops) && id in TimersAfter(ops).live
    ensures id < TimersAfter(ops).nextId
  {
    if ops != [] {
      var n := |ops| - 1;
      var before := TimersAfter(ops[..n]);
      assert LegalOps(ops[..n]) by {
        assert forall k :: 0 <= k < n ==> ops[..n][k] == ops[k] && ops[..n][..k] == ops[..k];
      }
      if id in before.live {
        LiveIdsHandedOut(ops[..n], id);
      } else if ops[n].BatchOp? {
        GoneStaysGone(before, ops[n].batch, ops[n].low, ops[n].last, id);
      }
      if ops[n].BatchOp? {
        FiringKeepsNextId(before, ops[n].batch);
      }
    }
  }

  // A one-shot timer is collected at most once in a whole run.
  lemma OneShotOnceInRun(ops: seq<Op>, i: nat, k: nat, j: nat, l: nat)
    requires LegalOps(ops) && i <= j < |ops| && ops[i].BatchOp? && ops[j].BatchOp?
    requires k < |ops[i].batch| && l < |ops[j].batch| && (i, k) != (j, l)
    requires ops[i].batch[k].timer.interval <= 0
    ensures ops[j].batch[l].id != ops[i].batch[k].id
  {
    var before := TimersAfter(ops[..i]);
    var id := ops[i].batch[k].id;
    OneShotOnce(before, ops[i].batch, ops[i].low, ops[i].last, k);
    if i < j {
      assert ops[..i + 1][..i] == ops[..i];
      IntervalIsFixed(before, ops[i].batch, ops[i].low, ops[i].last, k, id);
      assert LegalOps(ops[..i]) by {
        assert forall m :: 0 <= m < i ==> ops[..i][m] == ops[m] && ops[..i][..m] == ops[..m];
      }
      LiveIdsHandedOut(ops[..i], id);
      FiringKeepsNextId(before, ops[i].batch);
      NeverReturns(ops, i + 1, j, id);
      GoneStaysGone(TimersAfter(ops[..j]), ops[j].batch, ops[j].low, ops[j].last, id);
    }
  }

  // --------------------------------------------------------------------------------------
  // When a timer comes
  // --------------------------------------------------------------------------------------

  // The id that AddOp number i hands out.
  function AddedId(ops: seq<Op>, i: nat): TimerId
    requires i < |ops|
  {
    TimersAfter(ops[..i]).nextId
  }

  lemma JustAdded(ops: seq<Op>, i: nat)
    requires i < |ops| && ops[i].AddOp?
    ensures var s := TimersAfter(ops[..i + 1]);
            && AddedId(ops, i) in s.live && AddedId(ops, i) < s.nextId
            && var t := s.live[AddedId(ops, i)];
            && t.actorId == ops[i].actorId && t.msg == ops[i].msg && t.interval == ops[i].interval
            && (if 0 <= ops[i].now + ops[i].delay then t.expire == ops[i].now + ops[i].delay
                else t.expire >= 0x8000_0000_0000_0000)
  {
    assert ops[..i + 1][..i] == ops[..i];
  }

  // What is live at step j was live since its id was handed out, for the same purpose, and its
  // expiry only moved forward.
  lemma {:induction false} LiveSince(ops: seq<Op>, i: nat, j: nat, id: TimerId)
    requires LegalOps(ops) && i <= j <= |ops|
    requires id < TimersAfter(ops[..i]).nextId && id in TimersAfter(ops[..j]).live
    ensures id in TimersAfter(ops[..i]).live
    ensures TimersAfter(ops[..i]).live[id].expire <= TimersAfter(ops[..j]).live[id].expire
    ensures SamePurpose(TimersAfter(ops[..i]).live[id], TimersAfter(ops[..j]).live[id])
  {
    if i < j {
      var op, before := ops[j - 1], TimersAfter(ops[..j - 1]);
      assert ops[..j][..j - 1] == ops[..j - 1];
      IdsGrow(ops, i, j - 1);
      if op.BatchOp? {
        ExpiresLater(before, op.batch, op.low, op.last, id);
      }
      LiveSince(ops, i, j - 1, id);
    }
  }

  lemma {:induction false} IdsGrow(ops: seq<Op>, i: nat, j: nat)
    requires i <= j <= |ops|
    ensures TimersAfter(ops[..i]).nextId <= TimersAfter(ops[..j]).nextId
  {
    if i < j {
      IdsGrow(ops, i, j - 1);
      assert ops[..j][..j - 1] == ops[..j - 1];
      if ops[j - 1].BatchOp? {
        FiringKeepsNextId(TimersAfter(ops[..j - 1]), ops[j - 1].batch);
      }
    }
  }

  // In every run a timer that was set for `delay` at the reading `now` is collected at no reading
  // before now + delay, and only for the actor and with the message it was set for. One whose
  // time lies before the start of the clock wraps around and is never collected.
  lemma NotBeforeItsTime(ops: seq<Op>, i: nat, j: nat, k: nat)
    requires LegalOps(ops) && i < j < |ops| && ops[i].AddOp? && ops[j].BatchOp?
    requires k < |ops[j].batch| && ops[j].batch[k].id == AddedId(ops, i)
    ensures 0 <= ops[i].now + ops[i].delay <= ops[j].batch[k].readAt
    ensures ops[j].batch[k].timer.actorId == ops[i].actorId && ops[j].batch[k].timer.msg == ops[i].msg
  {
    hide LegalBatch;
    var id, s, op := AddedId(ops, i), TimersAfter(ops[..j]), ops[j];
    JustAdded(ops, i);
    BatchPrefix(s, op.batch, op.low, op.last, k);
    ExpiresLater(s, op.batch[..k], op.low, op.batch[k].readAt, id);
    LiveSince(ops, i + 1, j, id);
  }

  // The operation cancels or collects the timer.
  ghost predicate Ends(op: Op, id: TimerId) {
    match op
    case AddOp(_, _, _, _, _) => false
    case CancelOp(x) => x == id
    case BatchOp(batch, _, _) => exists k :: 0 <= k < |batch| && batch[k].id == id
  }

  lemma {:induction false} OthersFire(s: Timers, batch: seq<Fired>, id: TimerId)
    requires id in s.live && forall k :: 0 <= k < |batch| ==> batch[k].id != id
    ensures id in FireAll(s, batch).live && FireAll(s, batch).live[id] == s.live[id]
  {
    if batch != [] {
      OthersFire(s, batch[..|batch| - 1], id);
    }
  }

  lemma {:induction false} StaysLive(ops: seq<Op>, i: nat, j: nat, id: TimerId)
    requires LegalOps(ops) && i <= j <= |ops|
    requires id in TimersAfter(ops[..i]).live && id < TimersAfter(ops[..i]).nextId
    requires forall m :: i <= m < j ==> !Ends(ops[m], id)
    ensures id in TimersAfter(ops[..j]).live && TimersAfter(ops[..j]).live[id] == TimersAfter(ops[..i]).live[id]
  {
    if i < j {
      StaysLive(ops, i, j - 1, id);
      assert ops[..j][..j - 1] == ops[..j - 1];
      IdsGrow(ops, i, j - 1);
      if ops[j - 1].BatchOp? {
        OthersFire(TimersAfter(ops[..j - 1]), ops[j - 1].batch, id);
      }
    }
  }

  // In every run, once a batch leaves nothing due at a reading from now + delay on, the timer was
  // collected, by that batch or before, unless it was cancelled.
  lemma CollectedByItsTime(ops: seq<Op>, i: nat, j: nat)
    requires LegalOps(ops) && i < j < |ops| && ops[i].AddOp? && ops[j].BatchOp?
    requires 0 <= ops[i].now + ops[i].delay <= ops[j].last
    requires NothingDue(TimersAfter(ops[..j + 1]), ops[j].last)
    requires forall m :: i < m < j ==> ops[m] != CancelOp(AddedId(ops, i))
    ensures exists m :: i < m <= j && ops[m].BatchOp? && Ends(ops[m], AddedId(ops, i))
  {
    JustAdded(ops, i);
    if !exists m :: i < m <= j && ops[m].BatchOp? && Ends(ops[m], AddedId(ops, i)) {
      StaysLive(ops, i + 1, j + 1, AddedId(ops, i));
      assert false;
    }
  }

  // The id occurs in the batch behind position k.
  ghost predicate FiresAgain(batch: seq<Fired>, k: nat, id: TimerId) {
    exists l :: k < l < |batch| && batch[l].id == id
  }

  // A periodic timer that was collected, and armed again at the reading `rearmAt`, is collected
  // again once a batch leaves nothing due at a reading from rearmAt + interval on, unless it was
  // cancelled: later in the same batch, or in another up to that one.
  lemma PeriodicComesAgain(ops: seq<Op>, i: nat, k: nat, j: nat)
    requires LegalOps(ops) && i <= j < |ops| && ops[i].BatchOp? && ops[j].BatchOp? && k < |ops[i].batch|
    requires ops[i].batch[k].timer.interval > 0
    requires ops[i].batch[k].rearmAt + ops[i].batch[k].timer.interval <= ops[j].last
    requires NothingDue(TimersAfter(ops[..j + 1]), ops[j].last)
    requires forall m :: i < m < j ==> ops[m] != CancelOp(ops[i].batch[k].id)
    ensures || FiresAgain(ops[i].batch, k, ops[i].batch[k].id)
            || exists m :: i < m <= j && ops[m].BatchOp? && Ends(ops[m], ops[i].batch[k].id)
  {
    hide LegalBatch, TimersAfter, FiresAgain;
    var id := ops[i].batch[k].id;
    if !FiresAgain(ops[i].batch, k, id) && !exists m :: i < m <= j && ops[m].BatchOp? && Ends(ops[m], id) {
      RearmedInRun(ops, i, k);
      StaysLive(ops, i + 1, j + 1, id);
      assert false;
    }
  }

  lemma RearmedInRun(ops: seq<Op>, i: nat, k: nat)
    requires LegalOps(ops) && i < |ops| && ops[i].BatchOp? && k < |ops[i].batch|
    requires ops[i].batch[k].timer.interval > 0 && !FiresAgain(ops[i].batch, k, ops[i].batch[k].id)
    ensures var s, f := TimersAfter(ops[..i + 1]), ops[i].batch[k];
            f.id in s.live && f.id < s.nextId && s.live[f.id].expire == f.rearmAt + f.timer.interval
  {
    hide LegalBatch, FiresAgain;
    var s, op, f := TimersAfter(ops[..i]), ops[i], ops[i].batch[k];
    RearmedAt(s, op.batch, op.low, op.last, k);
    assert ops[..i + 1][..i] == ops[..i];
    BatchPrefix(s, op.batch, op.low, op.last, k);
    ExpiresLater(s, op.batch[..k], op.low, f.readAt, f.id);
    FiringKeepsNextId(s, op.batch);
    LegalPrefix(ops, i);
    LiveIdsHandedOut(ops[..i], f.id);
  }

  lemma LegalPrefix(ops: seq<Op>, i: nat)
    requires LegalOps(ops) && i <= |ops|
    ensures LegalOps(ops[..i])
  {
    hide LegalBatch;
    assert forall k :: 0 <= k < i ==> ops[..i][k] == ops[k] && ops[..i][..k] == ops[..k];
  }

  // A periodic timer that does not fire again is left with the expiry it was armed for.
  lemma RearmedAt(s: Timers, batch: seq<Fired>, low: Millis, now: Millis, k: nat)
    requires LegalBatch(s, batch, low, now) && k < |batch| && batch[k].timer.interval > 0
    requires !FiresAgain(batch, k, batch[k].id)
    ensures batch[k].id in FireAll(s, batch).live
    ensures FireAll(s, batch).live[batch[k].id].expire == batch[k].rearmAt + batch[k].timer.interval
  {
    hide LegalBatch;
    FireAllSplit(s, batch, k + 1);
    assert batch[..k + 1][..k] == batch[..k];
    var rest := batch[k + 1..];
    assert forall l :: 0 <= l < |rest| ==> rest[l] == batch[k + 1 + l];
    OthersFire(FireAll(s, batch[..k + 1]), rest, batch[k].id);
  }
}
