/**
 TimerManager: entries shared between a heap ordered by expiry and a lookup map. CancelTimer
 marks the shared entry and leaves it in the heap, where the batch loop skips it.

 The priority queue is used by its contract: top is an entry no other expires before.
 */
module TimerManager {
  import opened Messages
  import opened TimerSchedule

  // A steady clock: each reading may be later than the one before. How it advances is an oracle
  // of arbitrary length, after which it stands still.
  class Clock {
    var now: Millis
    var advances: seq<nat>

    constructor (now: Millis, advances: seq<nat>)
      ensures this.now == now && this.advances == advances
    {
      this.now, this.advances := now, advances;
    }

    method NowMs() returns (t: Millis)
      modifies this
      ensures t == now >= old(now)
      ensures old(advances) == [] ==> now == old(now) && advances == []
      ensures old(advances) != [] ==> advances == old(advances)[1..]
    {
      if |advances| > 0 {
        if now + advances[0] < 0x8000_0000_0000_0000 {
          now := now + advances[0];
        }
        advances := advances[1..];
      }
      t := now;
    }
  }

  class TimerEntry {
    const timerId: TimerId
    const actorId: ActorId
    const msg: ActorMessage
    const intervalMs: int32
    var expireTimeMs: nat
    var cancelled: bool

    constructor (timerId: TimerId, expireTimeMs: nat, actorId: ActorId, msg: ActorMessage, intervalMs: int32)
      ensures this.timerId == timerId && this.expireTimeMs == expireTimeMs && this.actorId == actorId
      ensures this.msg == msg && this.intervalMs == intervalMs && !cancelled
    {
      this.timerId, this.expireTimeMs, this.actorId := timerId, expireTimeMs, actorId;
      this.msg, this.intervalMs, cancelled := msg, intervalMs, false;
    }

    function Value(): Timer
      reads this
    {
      Timer(expireTimeMs, actorId, msg, intervalMs)
    }
  }

  class TimerManager {
    const clock: Clock
    var heap: set<TimerEntry>
    var timerMap: map<TimerId, TimerEntry>
    var nextTimerId: TimerId

    constructor (clock: Clock)
      ensures this.clock == clock && Valid() && heap == {} && Model() == NO_TIMERS
    {
      this.clock := clock;
      heap, timerMap, nextTimerId := {}, map[], 1;
    }

    // Ids in the heap are distinct, and the entries that are not cancelled are exactly those
    // the map finds.
    ghost predicate Valid()
      reads this, heap
    {
      && nextTimerId >= 1
      && (forall e :: e in heap ==> 1 <= e.timerId < nextTimerId)
      && (forall e, f :: e in heap && f in heap && e.timerId == f.timerId ==> e == f)
      && (forall e :: e in heap && !e.cancelled ==> e.timerId in timerMap)
      && (forall id :: id in timerMap ==>
             timerMap[id] in heap && timerMap[id].timerId == id && !timerMap[id].cancelled)
    }

    // The live timers.
    ghost function Model(): Timers
      requires Valid()
      reads this, heap
    {
      Timers(map id | id in timerMap :: timerMap[id].Value(), nextTimerId)
    }

    // nextTimerId_.fetch_add(1)
    method FetchId() returns (timerId: TimerId)
      requires Valid()
      modifies this`nextTimerId
      ensures Valid() && timerId == old(Model()).nextId && nextTimerId == timerId + 1
      ensures 1 <= timerId && forall e :: e in heap ==> e.timerId < timerId
      ensures Model() == old(Model()).(nextId := timerId + 1)
    {
      timerId := nextTimerId;
      nextTimerId := nextTimerId + 1;
    }

    method addTimer(actorId: ActorId, delayMs: int32, msg: ActorMessage, intervalMs: int32) returns (timerId: TimerId)
      requires Valid()
      modifies this, clock
      ensures Valid() && old(heap) <= heap
      ensures timerId == old(Model()).nextId
      ensures old(clock.now) <= clock.now
      ensures Model() == Add(old(Model()), Timer(Deadline(clock.now, delayMs), actorId, msg, intervalMs))
      ensures timerId in Model().live && SetFor(Model().live[timerId], clock.now, delayMs, actorId, msg, intervalMs)
    {
      hide Deadline, Valid, Model;
      timerId := FetchId();
      var now := clock.NowMs();
      var entry := new TimerEntry(timerId, Deadline(now, delayMs), actorId, msg, intervalMs);
      Insert(entry);
      DeadlineIs(now, delayMs);
    }

    // The critical section of addTimer.
    method Insert(entry: TimerEntry)
      requires Valid() && 1 <= entry.timerId < nextTimerId && !entry.cancelled
      requires forall e :: e in heap ==> e.timerId != entry.timerId
      modifies this`heap, this`timerMap
      ensures Valid() && heap == old(heap) + {entry}
      ensures Model() == old(Model()).(live := old(Model()).live[entry.timerId := entry.Value()])
    {
      timerMap := timerMap[entry.timerId := entry];
      heap := heap + {entry};
    }

    method SetTimeout(actorId: ActorId, delayMs: int32, msg: ActorMessage) returns (timerId: TimerId)
      requires Valid()
      modifies this, clock
      ensures Valid() && timerId == old(Model()).nextId
      ensures Model() == Add(old(Model()), Timer(Deadline(clock.now, delayMs), actorId, msg, 0))
      ensures timerId in Model().live && SetFor(Model().live[timerId], clock.now, delayMs, actorId, msg, 0)
    {
      hide Valid, Model;
      timerId := addTimer(actorId, delayMs, msg, 0);
    }

    // A period that is not positive is refused with id 0.
    method SetInterval(actorId: ActorId, intervalMs: int32, msg: ActorMessage) returns (timerId: TimerId)
      requires Valid()
      modifies this, clock
      ensures Valid()
      ensures intervalMs <= 0 ==> timerId == 0 && Model() == old(Model())
      ensures intervalMs > 0 ==>
                && timerId == old(Model()).nextId
                && Model() == Add(old(Model()), Timer(Deadline(clock.now, intervalMs), actorId, msg, intervalMs))
                && timerId in Model().live
                && SetFor(Model().live[timerId], clock.now, intervalMs, actorId, msg, intervalMs)
    {
      hide Valid, Model;
      if intervalMs <= 0 {
        return 0;
      }
      timerId := addTimer(actorId, intervalMs, msg, intervalMs);
    }

    method CancelTimer(timerId: TimerId)
      requires Valid()
      modifies this`timerMap, heap`cancelled
      ensures Valid() && heap == old(heap)
      ensures Model() == Cancel(old(Model()), timerId)
    {
      if timerId in timerMap {
        var entry := timerMap[timerId];
        entry.cancelled := true;
        timerMap := timerMap - {timerId};
        assert forall id :: id in timerMap ==> timerMap[id] != entry;
      }
    }

    method Top() returns (top: TimerEntry)
      requires heap != {}
      ensures top in heap && forall e :: e in heap ==> top.expireTimeMs <= e.expireTimeMs
    {
      top :| top in heap;
      var rest := heap - {top};
      while rest != {}
        invariant top in heap && rest <= heap
        invariant forall e :: e in heap ==> e in rest || top.expireTimeMs <= e.expireTimeMs
      {
        var e :| e in rest;
        if e.expireTimeMs < top.expireTimeMs {
          top := e;
        }
        rest := rest - {e};
      }
    }

    // The entries whose time has come, cancelled ones included: the measure of the batch loop
    // once the clock stands still.
    ghost function Due(): set<TimerEntry>
      reads this, heap, clock
    {
      set e | e in heap && e.expireTimeMs <= clock.now
    }

    // A cancelled entry is dropped from the heap.
    method DropCancelled(entry: TimerEntry)
      requires Valid() && entry in heap && entry.cancelled
      modifies this`heap
      ensures Valid() && heap == old(heap) - {entry} && Model() == old(Model())
    {
      heap := heap - {entry};
    }

    // A one-shot timer leaves the heap and the map.
    method Retire(entry: TimerEntry)
      requires Valid() && entry in heap && !entry.cancelled
      modifies this`heap, this`timerMap
      ensures Valid() && heap == old(heap) - {entry}
      ensures Model() == Cancel(old(Model()), entry.timerId)
    {
      assert timerMap[entry.timerId] == entry;
      heap := heap - {entry};
      timerMap := timerMap - {entry.timerId};
      assert forall id :: id in timerMap ==> timerMap[id] != entry;
    }

    // A periodic timer goes back into the heap with its next expiry.
    method Rearm(entry: TimerEntry, expire: nat)
      requires Valid() && entry in heap && !entry.cancelled
      modifies this`heap, entry`expireTimeMs
      ensures Valid() && heap == old(heap) && entry.expireTimeMs == expire
      ensures entry.timerId in Model().live
      ensures Model() == old(Model()).(live := old(Model()).live[entry.timerId := entry.Value()])
    {
      heap := heap - {entry};
      entry.expireTimeMs := expire;
      heap := heap + {entry};
    }

    // The earliest entry of the heap, if it is not cancelled, is the earliest live timer.
    lemma TopIsEarliest(entry: TimerEntry)
      requires Valid() && entry in heap && !entry.cancelled
      requires forall e :: e in heap ==> entry.expireTimeMs <= e.expireTimeMs
      ensures entry.timerId in Model().live && Model().live[entry.timerId] == entry.Value()
      ensures forall id :: id in Model().live ==> entry.expireTimeMs <= Model().live[id].expire
    {
    }

    lemma NothingIsDue(now: Millis)
      requires Valid() && forall e :: e in heap ==> now < e.expireTimeMs
      ensures NothingDue(Model(), now)
    {
    }

    // Pops an entry that is due. A cancelled one is dropped; a live one is collected, and armed
    // again if it is periodic.
    method PopDue(entry: TimerEntry) returns (fired: bool, ghost f: Fired)
      requires Valid() && entry in heap && entry.expireTimeMs <= clock.now
      requires forall e :: e in heap ==> entry.expireTimeMs <= e.expireTimeMs
      modifies this, clock, entry
      ensures Valid() && heap <= old(heap)
      ensures old(clock.now) <= clock.now
      ensures |clock.advances| <= old(|clock.advances|)
      ensures old(clock.advances) == [] ==> clock.now == old(clock.now) && clock.advances == []
      ensures entry !in heap || entry.expireTimeMs > clock.now
      ensures !fired ==> Model() == old(Model()) && clock.now == old(clock.now)
      ensures fired ==>
                && Legal(old(Model()), f) && f.readAt == old(clock.now) && f.rearmAt == clock.now
                && f.timer == old(entry.Value())
                && Model() == Fire(old(Model()), f)
    {
      hide Valid, Model;
      ghost var before := Model();
      f := Fired(entry.timerId, entry.Value(), clock.now, clock.now);
      if entry.cancelled {
        DropCancelled(entry);
        return false, f;
      }
      TopIsEarliest(entry);
      if entry.intervalMs > 0 {
        var now := clock.NowMs();
        Rearm(entry, now + entry.intervalMs);
        f := f.(rearmAt := now);
      } else {
        Retire(entry);
      }
      fired := true;
    }

    // The batch loop of the timer thread, under the mutex: everything due at the last clock
    // reading is collected, earliest first.
    method CollectDue() returns (toFire: seq<(ActorId, ActorMessage)>, ghost batch: seq<Fired>)
      requires Valid()
      modifies this, clock, heap
      ensures Valid() && heap <= old(heap)
      ensures LegalBatch(old(Model()), batch, old(clock.now), clock.now)
      ensures Model() == FireAll(old(Model()), batch)
      ensures NothingDue(Model(), clock.now)
      ensures toFire == Notices(batch) && |toFire| == |batch|
      ensures forall k :: 0 <= k < |batch| ==> toFire[k] == (batch[k].timer.actorId, batch[k].timer.msg)
      ensures old(clock.advances) == [] ==> clock.now == old(clock.now)
    {
      hide Valid, Model, LegalBatch, FireAll, NothingDue, Legal, Fire, Notices;
      ghost var start := Model();
      toFire, batch := [], [];
      BatchStarts(start, clock.now);
      while true
        invariant Valid() && heap <= old(heap)
        invariant LegalBatch(start, batch, old(clock.now), clock.now)
        invariant Model() == FireAll(start, batch)
        invariant toFire == Notices(batch)
        invariant old(clock.advances) == [] ==> clock.now == old(clock.now) && clock.advances == []
        decreases |clock.advances|, Due()
      {
        if heap == {} {
          break;
        }
        var entry := Top();
        ghost var reached, due := clock.now, Due();
        var now := clock.NowMs();
        LaterReading(start, batch, old(clock.now), reached, now);
        if entry.expireTimeMs > now {
          break;
        }
        var actorId, msg := entry.actorId, entry.msg;
        var fired, f := PopDue(entry);
        if fired {
          toFire := toFire + [(actorId, msg)];
          BatchExtends(start, batch, f, old(clock.now));
          batch := batch + [f];
        }
        assert clock.now == reached ==> entry in due && Due() <= due - {entry};
      }
      NothingIsDue(clock.now);
      NoticesAre(batch);
    }

    method Stop()
      requires Valid()
      modifies this
      ensures Valid() && heap == {} && Model().live == map[]
    {
      heap := {};
      timerMap := map[];
    }
  }

  // The timer expires `delay` after the reading, for that actor, message and period; a sum below
  // zero has wrapped around, beyond every reading.
  ghost predicate SetFor(t: Timer, now: Millis, delay: int32, actorId: ActorId, msg: ActorMessage, interval: int32) {
    && t.actorId == actorId && t.msg == msg && t.interval == interval
    && if 0 <= now + delay then t.expire == now + delay else t.expire >= 0x8000_0000_0000_0000
  }

  // The messages to send for a batch, in order.
  function Notices(batch: seq<Fired>): seq<(ActorId, ActorMessage)> {
    if batch == [] then []
    else Notices(batch[..|batch| - 1]) + [(batch[|batch| - 1].timer.actorId, batch[|batch| - 1].timer.msg)]
  }

  lemma {:induction false} NoticesAre(batch: seq<Fired>)
    ensures |Notices(batch)| == |batch|
    ensures forall k :: 0 <= k < |batch| ==> Notices(batch)[k] == (batch[k].timer.actorId, batch[k].timer.msg)
  {
    if batch != [] {
      NoticesAre(batch[..|batch| - 1]);
    }
  }

  lemma BatchStarts(s: Timers, now: Millis)
    ensures LegalBatch(s, [], now, now) && FireAll(s, []) == s && Notices([]) == []
  {
  }

  lemma LaterReading(s: Timers, batch: seq<Fired>, low: Millis, now: Millis, later: Millis)
    requires LegalBatch(s, batch, low, now) && now <= later
    ensures LegalBatch(s, batch, low, later)
  {
  }

  lemma BatchExtends(s: Timers, batch: seq<Fired>, f: Fired, low: Millis)
    requires LegalBatch(s, batch, low, f.readAt) && Legal(FireAll(s, batch), f)
    ensures LegalBatch(s, batch + [f], low, f.rearmAt)
    ensures FireAll(s, batch + [f]) == Fire(FireAll(s, batch), f)
    ensures Notices(batch + [f]) == Notices(batch) + [(f.timer.actorId, f.timer.msg)]
  {
    assert (batch + [f])[..|batch|] == batch;
  }
}
