/**
 ActorSystem::Stop once timers and workers have ended: the remaining messages are processed in
 a few bounded rounds by the stopping thread alone.
 */
module Shutdown {
  import opened Scheduler

  type Actors = map<ActorId, Actor>

  const MAX_DRAIN_ROUNDS: nat := 3

  predicate Idle(actor: Actor) {
    actor.high.queue == [] && actor.low.queue == []
  }

  // ProcessOne: the priority queue first.
  function ProcessedOne(actor: Actor): Actor
    requires !Idle(actor)
  {
    var isPriority := actor.high.queue != [];
    Finish(Take(actor, isPriority), isPriority, actor.LaneOf(isPriority).queue[0])
  }

  // At most n messages processed, with nothing new coming in.
  function Processed(actor: Actor, n: nat): Actor
    decreases n
  {
    if n == 0 || Idle(actor) then actor else Processed(ProcessedOne(actor), n - 1)
  }

  // Nothing was lost: what was pushed was processed, in order, or still waits.
  ghost predicate Conserved(actor: Actor) {
    forall p :: actor.LaneOf(p).pushed == actor.LaneOf(p).done + actor.LaneOf(p).queue
  }

  ghost predicate AllConserved(actors: Actors) {
    forall a :: a in actors ==> Conserved(actors[a])
  }

  ghost predicate AllIdle(actors: Actors) {
    forall a :: a in actors ==> Idle(actors[a])
  }

  function DoneBy(actor: Actor): nat {
    |actor.high.done| + |actor.low.done|
  }

  // Every actor has processed more messages behind those before: at most n, and none if it is
  // outside `touched`.
  ghost predicate Advanced(before: Actors, after: Actors, touched: set<ActorId>, n: nat) {
    && after.Keys == before.Keys
    && forall a :: a in before ==>
         && before[a].high.done <= after[a].high.done && before[a].low.done <= after[a].low.done
         && DoneBy(after[a]) <= DoneBy(before[a]) + (if a in touched then n else 0)
  }

  lemma Joins(s0: Actors, s1: Actors, s2: Actors, done: set<ActorId>, a: ActorId, n: nat)
    requires Advanced(s0, s1, done, n) && Advanced(s1, s2, {a}, n) && a !in done
    ensures Advanced(s0, s2, done + {a}, n)
  {
  }

  lemma Repeats(s0: Actors, s1: Actors, s2: Actors, touched: set<ActorId>, m: nat, n: nat)
    requires Advanced(s0, s1, touched, m) && Advanced(s1, s2, touched, n)
    ensures Advanced(s0, s2, touched, m + n)
  {
  }

  // What Processed means: the oldest messages go first, priority before normal.
  lemma {:induction false} ProcessedLeaves(actor: Actor, n: nat)
    requires Conserved(actor)
    ensures var high, low := |actor.high.queue|, |actor.low.queue|;
            var d := Processed(actor, n);
            && Conserved(d) && d.scheduled == actor.scheduled
            && d.high.pushed == actor.high.pushed && d.low.pushed == actor.low.pushed
            && d.high.queue == (if n <= high then actor.high.queue[n..] else [])
            && d.low.queue == (if n <= high then actor.low.queue
                               else if n <= high + low then actor.low.queue[n - high..] else [])
    decreases n
  {
    if n > 0 && !Idle(actor) {
      OneConserved(actor);
      ProcessedLeaves(ProcessedOne(actor), n - 1);
    }
  }

  lemma OneConserved(actor: Actor)
    requires !Idle(actor)
    ensures var d := ProcessedOne(actor);
            && (Conserved(actor) ==> Conserved(d))
            && DoneBy(d) == DoneBy(actor) + 1
            && actor.high.done <= d.high.done && actor.low.done <= d.low.done
  {
    var p := actor.high.queue != [];
    var lane, d := actor.LaneOf(p), ProcessedOne(actor);
    assert d.LaneOf(p).done + d.LaneOf(p).queue == lane.done + lane.queue;
    assert d.LaneOf(!p) == actor.LaneOf(!p);
    forall q: bool | Conserved(actor)
      ensures d.LaneOf(q).pushed == d.LaneOf(q).done + d.LaneOf(q).queue
    {
      assert q == p || q == !p;
      assert actor.LaneOf(q).pushed == actor.LaneOf(q).done + actor.LaneOf(q).queue;
    }
  }

  lemma {:induction false} ProcessedAdd(actor: Actor, m: nat, n: nat)
    ensures Processed(Processed(actor, m), n) == Processed(actor, m + n)
    decreases m
  {
    hide ProcessedOne;
    if m > 0 && !Idle(actor) {
      ProcessedAdd(ProcessedOne(actor), m - 1, n);
    }
  }

  lemma OneMore(s: Actors, a: ActorId)
    requires AllConserved(s) && a in s && !Idle(s[a])
    ensures var d := s[a := ProcessedOne(s[a])];
            AllConserved(d) && Advanced(s, d, {a}, 1) && DoneBy(d[a]) > DoneBy(s[a])
  {
    hide Conserved, ProcessedOne, Idle;
    OneConserved(s[a]);
  }

  // Every actor has processed up to n of the messages it had.
  ghost predicate AllProcessed(before: Actors, after: Actors, n: nat) {
    after.Keys == before.Keys && forall a :: a in before ==> after[a] == Processed(before[a], n)
  }

  lemma RoundsAdd(s0: Actors, s1: Actors, s2: Actors, m: nat, n: nat)
    requires AllProcessed(s0, s1, m) && AllProcessed(s1, s2, n)
    ensures AllProcessed(s0, s2, m + n)
  {
    hide Processed;
    forall a | a in s0
      ensures s2[a] == Processed(s0[a], m + n)
    {
      ProcessedAdd(s0[a], m, n);
    }
  }

  lemma IdleStays(s: Actors, n: nat)
    requires AllIdle(s)
    ensures AllProcessed(s, s, n)
  {
  }

  lemma PushConserved(actor: Actor, m: Message)
    requires Conserved(actor)
    ensures Conserved(Push(actor, m))
  {
    var lane := actor.LaneOf(m.priority);
    var d := Push(actor, m);
    assert d.LaneOf(m.priority).done + d.LaneOf(m.priority).queue == lane.done + lane.queue + [m];
    assert d.LaneOf(!m.priority) == actor.LaneOf(!m.priority);
    forall q: bool
      ensures d.LaneOf(q).pushed == d.LaneOf(q).done + d.LaneOf(q).queue
    {
      assert q == m.priority || q == !m.priority;
      assert actor.LaneOf(q).pushed == actor.LaneOf(q).done + actor.LaneOf(q).queue;
    }
  }

  class StoppingSystem {
    var actors: Actors
    // The messages that each handler run will send, in order: an oracle.
    var sends: seq<seq<(ActorId, Message)>>

    constructor (actors: Actors, sends: seq<seq<(ActorId, Message)>>)
      ensures this.actors == actors && this.sends == sends
    {
      this.actors, this.sends := actors, sends;
    }

    // No handler sends anything.
    ghost predicate Silent()
      reads this
    {
      forall i :: 0 <= i < |sends| ==> sends[i] == []
    }

    // Send, as far as it concerns the mailboxes; nobody reads the ready queue any more.
    method Send(to: ActorId, m: Message)
      requires AllConserved(actors)
      modifies this`actors
      ensures AllConserved(actors) && Advanced(old(actors), actors, {}, 0)
    {
      hide Conserved;
      if to in actors {
        PushConserved(actors[to], m);
        actors := actors[to := Push(actors[to], m)];
      }
    }

    method SendAll(batch: seq<(ActorId, Message)>)
      requires AllConserved(actors)
      modifies this`actors
      ensures AllConserved(actors) && Advanced(old(actors), actors, {}, 0)
      ensures batch == [] ==> actors == old(actors)
    {
      hide AllConserved;
      for i := 0 to |batch|
        invariant AllConserved(actors) && Advanced(old(actors), actors, {}, 0)
        invariant batch == [] ==> actors == old(actors)
      {
        ghost var before := actors;
        Send(batch[i].0, batch[i].1);
        Repeats(old(actors), before, actors, {}, 0, 0);
      }
    }

    // The handler of a message returns or throws; either way the message is done with.
    method ProcessOne(a: ActorId)
      requires a in actors && !Idle(actors[a]) && AllConserved(actors)
      modifies this
      ensures AllConserved(actors) && Advanced(old(actors), actors, {a}, 1)
      ensures DoneBy(actors[a]) > DoneBy(old(actors)[a])
      ensures old(Silent()) ==> Silent() && actors == old(actors)[a := ProcessedOne(old(actors)[a])]
    {
      hide ProcessedOne, AllConserved, Idle, DoneBy, Advanced;
      OneMore(actors, a);
      actors := actors[a := ProcessedOne(actors[a])];
      if |sends| > 0 {
        var batch := sends[0];
        sends := sends[1..];
        ghost var before := actors;
        SendAll(batch);
        ThenNoLess(old(actors), before, actors, a);
      }
    }

    // The inner loop of one round.
    method DrainActor(a: ActorId) returns (drained: nat)
      requires a in actors && AllConserved(actors)
      modifies this
      ensures AllConserved(actors) && Advanced(old(actors), actors, {a}, TURN_LIMIT)
      ensures drained == TURN_LIMIT || Idle(actors[a])
      ensures drained == 0 ==> actors == old(actors)
      ensures old(Silent()) ==> Silent() && actors == old(actors)[a := Processed(old(actors)[a], TURN_LIMIT)]
    {
      hide ProcessedOne, AllConserved, Idle;
      drained := 0;
      ghost var start := actors[a];
      while !Idle(actors[a]) && drained < TURN_LIMIT
        invariant drained <= TURN_LIMIT
        invariant AllConserved(actors) && Advanced(old(actors), actors, {a}, drained)
        invariant drained == 0 ==> actors == old(actors)
        invariant old(Silent()) ==>
                    && Silent() && actors == old(actors)[a := actors[a]]
                    && Processed(actors[a], TURN_LIMIT - drained) == Processed(start, TURN_LIMIT)
      {
        ghost var before := actors;
        ProcessOne(a);
        Repeats(old(actors), before, actors, {a}, drained, 1);
        drained := drained + 1;
      }
    }

    // One round over the actors, in the order of an unordered map.
    method DrainRound() returns (anyProcessed: bool)
      requires AllConserved(actors)
      modifies this
      ensures AllConserved(actors) && Advanced(old(actors), actors, old(actors.Keys), TURN_LIMIT)
      ensures !anyProcessed ==> actors == old(actors) && AllIdle(actors)
      ensures old(Silent()) ==> Silent() && AllProcessed(old(actors), actors, TURN_LIMIT)
    {
      hide Conserved, Processed, Idle;
      anyProcessed := false;
      var rest := actors.Keys;
      ghost var visited: set<ActorId> := {};
      while rest != {}
        invariant rest !! visited && rest + visited == old(actors.Keys)
        invariant AllConserved(actors) && Advanced(old(actors), actors, visited, TURN_LIMIT)
        invariant !anyProcessed ==> actors == old(actors) && forall a :: a in visited ==> Idle(actors[a])
        invariant old(Silent()) ==> Silent() && forall a :: a in actors ==>
                    actors[a] == if a in visited then Processed(old(actors)[a], TURN_LIMIT) else old(actors)[a]
      {
        var a :| a in rest;
        ghost var before := actors;
        var drained := DrainActor(a);
        Joins(old(actors), before, actors, visited, a, TURN_LIMIT);
        anyProcessed := anyProcessed || drained > 0;
        rest, visited := rest - {a}, visited + {a};
      }
    }

    // Stop loses nothing and ends: every mailbox is empty, or all rounds were used. If no
    // handler sends, each actor has processed its oldest messages, priority first, as many as
    // fit into the rounds.
    method Drain() returns (ghost rounds: nat)
      requires AllConserved(actors)
      modifies this
      ensures AllConserved(actors)
      ensures AllIdle(actors) || rounds == 3
      ensures Advanced(old(actors), actors, old(actors.Keys), 192)
      ensures old(Silent()) ==> AllProcessed(old(actors), actors, 192)
    {
      hide AllConserved, Processed, Idle, AllProcessed, AllIdle, Advanced;
      rounds := 0;
      Untouched(actors);
      for round := 0 to MAX_DRAIN_ROUNDS
        invariant rounds == round && AllConserved(actors)
        invariant Advanced(old(actors), actors, old(actors.Keys), round * TURN_LIMIT)
        invariant old(Silent()) ==> Silent() && AllProcessed(old(actors), actors, round * TURN_LIMIT)
      {
        ghost var before := actors;
        SameKeys(old(actors), before, old(actors.Keys), round * TURN_LIMIT);
        var anyProcessed := DrainRound();
        if !anyProcessed {
          IdleStays(actors, (MAX_DRAIN_ROUNDS - round) * TURN_LIMIT);
          AdvancedLess(old(actors), actors, old(actors.Keys), round * TURN_LIMIT, MAX_DRAIN_ROUNDS * TURN_LIMIT);
          if old(Silent()) {
            RoundsAdd(old(actors), actors, actors, round * TURN_LIMIT, (MAX_DRAIN_ROUNDS - round) * TURN_LIMIT);
          }
          return;
        }
        rounds := rounds + 1;
        Repeats(old(actors), before, actors, old(actors.Keys), round * TURN_LIMIT, TURN_LIMIT);
        if old(Silent()) {
          RoundsAdd(old(actors), before, actors, round * TURN_LIMIT, TURN_LIMIT);
        }
      }
    }
  }

  lemma ThenNoLess(s0: Actors, s1: Actors, s2: Actors, a: ActorId)
    requires Advanced(s0, s1, {a}, 1) && Advanced(s1, s2, {}, 0) && a in s0 && DoneBy(s1[a]) > DoneBy(s0[a])
    ensures Advanced(s0, s2, {a}, 1) && DoneBy(s2[a]) > DoneBy(s0[a])
  {
  }

  lemma Untouched(s: Actors)
    ensures Advanced(s, s, s.Keys, 0) && AllProcessed(s, s, 0)
  {
  }

  lemma SameKeys(s0: Actors, s1: Actors, touched: set<ActorId>, n: nat)
    requires Advanced(s0, s1, touched, n)
    ensures s1.Keys == s0.Keys
  {
  }

  lemma AdvancedLess(s0: Actors, s1: Actors, touched: set<ActorId>, m: nat, n: nat)
    requires Advanced(s0, s1, touched, m) && m <= n
    ensures Advanced(s0, s1, touched, n)
  {
  }
}
