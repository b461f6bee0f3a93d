/** The scripts as Redis runs them: command by command on the keys, each method one script. */
module RedisQueue {
  import opened QueueLimits
  import opened Wrappers
  import opened RedisStore
  import Runs = RedisRuns

  /////////////////////////////////
  /// What one reserve call may do
  /////////////////////////////////

  datatype Step = Promoted(id: nat) | Visited(slot: Slot)

  /** A reserve call on one queue: its clock when it runs, and what the worker brings. */
  datatype Call = Call(queue: string, clock: nat, caller: Caller)

  function StepStore(s: Store, call: Call, step: Step): Store {
    match step
    case Promoted(id) => Promote(s, call.queue, id)
    case Visited(slot) => if slot in s.entries then Visit(s, slot, call.clock, call.caller).0 else s
  }

  predicate StepValid(s: Store, call: Call, step: Step) {
    match step
    case Promoted(id) => (call.queue, id) in s.delayed && s.delayed[(call.queue, id)] <= call.caller.now
    case Visited(slot) => slot.queue == call.queue && Takeable(s, slot, call.clock, call.caller.timeout)
  }

  predicate StepClaims(s: Store, call: Call, step: Step) {
    step.Visited? && step.slot in s.entries && OutcomeOf(s, step.slot, call.caller.now) == Claimed
  }

  function Replay(s: Store, call: Call, trail: seq<Step>): Store {
    if trail == [] then s
    else StepStore(Replay(s, call, trail[..|trail| - 1]), call, trail[|trail| - 1])
  }

  /** Every step was open to the script, and none claimed before the last. */
  predicate ValidTrail(s: Store, call: Call, trail: seq<Step>) {
    trail != [] ==>
      var before, last := trail[..|trail| - 1], trail[|trail| - 1];
      && ValidTrail(s, call, before)
      && StepValid(Replay(s, call, before), call, last)
      && !ClaimedBy(s, call, before)
  }

  predicate ClaimedBy(s: Store, call: Call, trail: seq<Step>) {
    trail != [] && StepClaims(Replay(s, call, trail[..|trail| - 1]), call, trail[|trail| - 1])
  }

  /** What the call answers: the claim its last step made, if it made one. */
  function Answer(s: Store, call: Call, trail: seq<Step>): Option<Hand> {
    if ClaimedBy(s, call, trail) then
      Visit(Replay(s, call, trail[..|trail| - 1]), trail[|trail| - 1].slot, call.clock, call.caller).1
    else None
  }

  function VisitsAt(trail: seq<Step>, level: int): nat {
    if trail == [] then 0
    else
      var last := trail[|trail| - 1];
      VisitsAt(trail[..|trail| - 1], level) + if last.Visited? && last.slot.level == level then 1 else 0
  }

  function Promotions(trail: seq<Step>): nat {
    if trail == [] then 0
    else Promotions(trail[..|trail| - 1]) + if trail[|trail| - 1].Promoted? then 1 else 0
  }

  lemma ReplayOneMore(s: Store, call: Call, trail: seq<Step>, step: Step)
    ensures Replay(s, call, trail + [step]) == StepStore(Replay(s, call, trail), call, step)
    ensures ValidTrail(s, call, trail) && !ClaimedBy(s, call, trail)
            && StepValid(Replay(s, call, trail), call, step) ==>
              ValidTrail(s, call, trail + [step])
    ensures ClaimedBy(s, call, trail + [step]) <==> StepClaims(Replay(s, call, trail), call, step)
    ensures forall level :: VisitsAt(trail + [step], level)
                         == VisitsAt(trail, level) + if step.Visited? && step.slot.level == level then 1 else 0
    ensures Promotions(trail + [step]) == Promotions(trail) + if step.Promoted? then 1 else 0
    ensures StepClaims(Replay(s, call, trail), call, step) ==>
              Answer(s, call, trail + [step]) == Visit(Replay(s, call, trail), step.slot, call.clock, call.caller).1
  {
    var longer := trail + [step];
    assert longer[..|longer| - 1] == trail && longer[|longer| - 1] == step;
  }

  /** Nothing undelivered is left on the level. */
  predicate Settled(s: Store, queue: string, level: int) {
    forall slot | slot in s.entries && slot.queue == queue && slot.level == level :: s.entries[slot].delivered.Some?
  }

  /** Trying a level ends with nothing undelivered on it, or with its rounds spent. */
  predicate LevelDone(s: Store, queue: string, trail: seq<Step>, level: int) {
    Settled(s, queue, level) || VisitsAt(trail, level) == CLAIM_ROUNDS
  }

  /** The first n of the levels have been tried to the end. */
  predicate FirstDone(s: Store, queue: string, trail: seq<Step>, ranked: seq<int>, n: nat)
    requires n <= |ranked|
  {
    forall j | 0 <= j < n :: LevelDone(s, queue, trail, ranked[j])
  }

  /** The levels from the nth on have not been tried yet, and none was tried too often. */
  ghost predicate RestUntried(trail: seq<Step>, ranked: seq<int>, n: nat)
    requires n <= |ranked|
  {
    && (forall level :: VisitsAt(trail, level) <= CLAIM_ROUNDS)
    && forall j | n <= j < |ranked| :: VisitsAt(trail, ranked[j]) == 0
  }

  lemma VisitKeepsSettled(s: Store, slot: Slot, clock: int, c: Caller, queue: string, level: int)
    requires slot in s.entries && Settled(s, queue, level)
    ensures Settled(Visit(s, slot, clock, c).0, queue, level)
  {
    var t := Visit(s, slot, clock, c).0;
    forall other | other in t.entries && other.queue == queue && other.level == level
      ensures t.entries[other].delivered.Some?
    {
      assert other in s.entries;
    }
  }

  /** No job past its due time is left unpromoted. */
  ghost predicate AllPromoted(s: Store, queue: string, now: nat) {
    forall id :: (queue, id) in s.delayed ==> now < s.delayed[(queue, id)]
  }

  lemma VisitKeepsAllPromoted(s: Store, slot: Slot, clock: int, c: Caller, queue: string)
    requires slot in s.entries
    ensures AllPromoted(s, queue, c.now) ==> AllPromoted(Visit(s, slot, clock, c).0, queue, c.now)
  {
  }

  function EventOf(call: Call, step: Step): Runs.Event {
    match step
    case Promoted(id) => Runs.DoPromote(call.queue, id, call.caller.now)
    case Visited(slot) => Runs.DoVisit(slot, call.caller)
  }

  function PlayOn(w: Runs.World, call: Call, trail: seq<Step>): Runs.World {
    if trail == [] then w
    else
      var v, e := PlayOn(w, call, trail[..|trail| - 1]), EventOf(call, trail[|trail| - 1]);
      if Runs.Enabled(v, e) then Runs.Apply(v, e) else v
  }

  /** The steps of one call are enabled steps of the driver's runs, so a whole script keeps whatever
      each of them keeps, and leaves the worker with the claim it answers. */
  lemma {:induction false} CallIsPartOfARun(w: Runs.World, call: Call, trail: seq<Step>)
    requires ValidTrail(w.store, call, trail) && w.clock == call.clock && 1000 * call.caller.now <= call.clock
    requires call.caller.worker != "" && 1 <= call.caller.timeout
    ensures PlayOn(w, call, trail).store == Replay(w.store, call, trail) && PlayOn(w, call, trail).clock == w.clock
    ensures PlayOn(w, call, trail).hands
         == match Answer(w.store, call, trail)
            case None => w.hands
            case Some(h) => w.hands[call.caller.worker := h]
    ensures trail != [] ==> Runs.Enabled(PlayOn(w, call, trail[..|trail| - 1]), EventOf(call, trail[|trail| - 1]))
    decreases |trail|
  {
    if trail != [] {
      CallIsPartOfARun(w, call, trail[..|trail| - 1]);
    }
  }

  lemma SomeGreatest(levels: set<(string, int)>) returns (top: (string, int))
    requires levels != {}
    ensures top in levels && forall l | l in levels :: l.1 <= top.1
    decreases levels
  {
    top :| top in levels;
    if levels != {top} {
      var other := SomeGreatest(levels - {top});
      top := if other.1 < top.1 then top else other;
    }
  }

  lemma SomeLeast(ids: set<nat>, score: map<nat, int>) returns (first: nat)
    requires ids != {} && ids <= score.Keys
    ensures first in ids && forall id | id in ids :: score[first] <= score[id]
    decreases ids
  {
    first :| first in ids;
    if ids != {first} {
      var other := SomeLeast(ids - {first}, score);
      first := if score[other] < score[first] then other else first;
    }
  }

  /** The scores of the queue's due jobs. */
  function DueScores(delayed: map<(string, nat), int>, queue: string, now: nat): (score: map<nat, int>)
    ensures forall id :: id in score <==> (queue, id) in delayed && delayed[(queue, id)] <= now
    ensures forall id | id in score :: score[id] == delayed[(queue, id)]
  {
    var ids := set d | d in delayed && d.0 == queue && delayed[d] <= now :: d.1;
    assert forall id :: (queue, id) in delayed && delayed[(queue, id)] <= now ==> (queue, id).1 in ids;
    map id | id in ids :: delayed[(queue, id)]
  }

  /** Up to a limit of ids, those of the lowest scores, in the order of their scores. */
  method Earliest(score: map<nat, int>, limit: nat) returns (first: seq<nat>)
    ensures |first| <= limit && forall i, j | 0 <= i < j < |first| :: first[i] != first[j]
    ensures forall i | 0 <= i < |first| :: first[i] in score
    ensures forall i, j | 0 <= i < j < |first| :: score[first[i]] <= score[first[j]]
    ensures forall id, i | id in score && id !in first && 0 <= i < |first| :: score[first[i]] <= score[id]
    ensures |first| < limit ==> forall id | id in score :: id in first
  {
    var rest := score.Keys;
    first := [];
    while |first| < limit && rest != {}
      invariant |first| <= limit && forall i, j | 0 <= i < j < |first| :: first[i] != first[j]
      invariant forall id | id in score :: id in rest || id in first
      invariant rest <= score.Keys && forall id | id in first :: id in score && id !in rest
      invariant forall i, j | 0 <= i < j < |first| :: score[first[i]] <= score[first[j]]
      invariant forall id, i | id in rest && 0 <= i < |first| :: score[first[i]] <= score[id]
      decreases rest
    {
      ghost var least := SomeLeast(rest, score);
      var id :| id in rest && forall other | other in rest :: score[id] <= score[other];
      first, rest := first + [id], rest - {id};
    }
  }

  /** The keyspace, changed in place by the scripts. */
  class Scripts {
    var seqNo: nat
    var jobs: map<nat, Hash>
    var entries: map<Slot, Entry>
    var lastNumber: map<(string, int), nat>
    var levels: set<(string, int)>
    var delayed: map<(string, nat), int>
    var failed: map<nat, int>
    var unique: map<string, nat>
    var queues: set<string>

    ghost function State(): Store
      reads this
    {
      Store(seqNo, jobs, entries, lastNumber, levels, delayed, failed, unique, queues)
    }

    constructor ()
      ensures State() == EMPTY
    {
      seqNo, jobs, entries, lastNumber, levels := 0, map[], map[], map[], {};
      delayed, failed, unique, queues := map[], map[], map[], {};
    }

    /** XADD, HSET entry and ZADD levels. */
    method AddEntry(queue: string, level: int, id: nat)
      requires id in jobs
      modifies this`entries, this`lastNumber, this`jobs, this`levels
      ensures State() == Enqueue(old(State()), queue, level, id)
    {
      var number := (if (queue, level) in lastNumber then lastNumber[(queue, level)] else 0) + 1;
      entries := entries[Slot(queue, level, number) := Entry(id, None)];
      lastNumber := lastNumber[(queue, level) := number];
      jobs := jobs[id := jobs[id].(entry := Some(number))];
      levels := levels + {(queue, level)};
    }

    method Push(a: PushArgs) returns (id: nat)
      modifies this
      ensures (State(), id) == RedisStore.Push(old(State()), a)
    {
      if a.unique != "" && a.unique in unique {
        var held := unique[a.unique];
        if held in jobs {
          return held;
        }
        unique := unique - {a.unique};
      }
      seqNo := seqNo + 1;
      id := seqNo;
      jobs := jobs[id := NewHash(a)];
      if a.unique != "" {
        unique := unique[a.unique := id];
        assert unique == old(unique)[a.unique := id];
      }
      queues := queues + {a.queue};
      assert State() == Register(old(State()), a);
      if a.now < a.availableAt {
        delayed := delayed[(a.queue, id) := a.availableAt];
      } else {
        AddEntry(a.queue, a.priority, id);
      }
    }

    /** `push`, as callers see it: what they leave out or get wrong is put right before the script runs. */
    method PushJob(queue: string, name: string, payload: string, delay: int, priority: int, unique: Option<string>,
                   maxAttempts: int, moment: nat, createdAt: string)
      returns (id: nat)
      modifies this
      ensures var a := PushArgs(if queue == "" then "default" else queue, name, payload, priority,
                                if maxAttempts < 1 then 1 else maxAttempts, if unique.None? then "" else unique.value,
                                if delay < 0 then moment else moment + delay, createdAt, moment);
              && (State(), id) == RedisStore.Push(old(State()), a)
              && forall w: Runs.World | w.store == old(State()) && 1000 * moment <= w.clock ::
                   Runs.Enabled(w, Runs.DoPush(a)) && Runs.Apply(w, Runs.DoPush(a)).store == State()
    {
      var budget: nat := if maxAttempts < 1 then 1 else maxAttempts;
      var available := moment;
      if 0 < delay {
        available := moment + delay;
      }
      var key := "";
      if unique.Some? {
        key := unique.value;
      }
      id := Push(PushArgs(if queue == "" then "default" else queue, name, payload, priority, budget, key, available,
        createdAt, moment));
    }

    /** ZRANGEBYSCORE with a limit: the due ids, earliest first. */
    method DueFirst(queue: string, now: nat, limit: nat) returns (due: seq<nat>)
      ensures |due| <= limit && forall i, j | 0 <= i < j < |due| :: due[i] != due[j]
      ensures forall i | 0 <= i < |due| :: (queue, due[i]) in delayed && delayed[(queue, due[i])] <= now
      ensures forall i, j | 0 <= i < j < |due| :: delayed[(queue, due[i])] <= delayed[(queue, due[j])]
      ensures forall id, i | (queue, id) in delayed && id !in due && 0 <= i < |due| ::
              delayed[(queue, due[i])] <= delayed[(queue, id)]
      ensures |due| < limit ==> forall id | (queue, id) in delayed && id !in due :: now < delayed[(queue, id)]
    {
      due := Earliest(DueScores(delayed, queue, now), limit);
    }

    /** ZREVRANGE over the queue's levels, highest first. */
    method RankedLevels(queue: string) returns (ranked: seq<int>)
      ensures forall level :: (queue, level) in levels <==> level in ranked
      ensures forall i, j | 0 <= i < j < |ranked| :: ranked[j] < ranked[i]
    {
      var rest := set l | l in levels && l.0 == queue;
      ranked := [];
      while rest != {}
        invariant rest <= levels && forall l | l in rest :: l.0 == queue
        invariant forall l | l in levels && l.0 == queue :: l in rest || l.1 in ranked
        invariant forall level | level in ranked :: (queue, level) in levels && (queue, level) !in rest
        invariant forall i, j | 0 <= i < j < |ranked| :: ranked[j] < ranked[i]
        invariant forall l, i | l in rest && 0 <= i < |ranked| :: l.1 < ranked[i]
        decreases rest
      {
        ghost var greatest := SomeGreatest(rest);
        var top :| top in rest && forall other | other in rest :: other.1 <= top.1;
        ranked, rest := ranked + [top.1], rest - {top};
      }
      assert forall level :: (queue, level) in levels ==> (queue, level).0 == queue && (queue, level).1 in ranked;
    }

    /** XAUTOCLAIM: any one entry idle for the whole timeout, or none, since its scan is bounded. */
    method XAutoClaim(queue: string, level: int, timeout: nat, clock: nat) returns (taken: Option<Slot>)
      modifies this`entries
      ensures match taken
              case None => entries == old(entries)
              case Some(slot) =>
                && slot.queue == queue && slot.level == level && Takeable(old(State()), slot, clock, timeout)
                && State() == Deliver(old(State()), slot, clock)
    {
      var idle := set slot | slot in entries && slot.queue == queue && slot.level == level
                             && entries[slot].delivered.Some?
                             && entries[slot].delivered.value + 1000 * timeout <= clock;
      taken := None;
      if idle != {} {
        if * {
          var slot :| slot in idle;
          entries := entries[slot := entries[slot].(delivered := Some(clock))];
          taken := Some(slot);
        }
      }
    }

    /** XREADGROUP: the oldest entry not delivered yet. */
    method XReadGroup(queue: string, level: int, timeout: nat, clock: nat) returns (taken: Option<Slot>)
      modifies this`entries
      ensures match taken
              case None => entries == old(entries) && Settled(State(), queue, level)
              case Some(slot) =>
                && slot.queue == queue && slot.level == level && Takeable(old(State()), slot, clock, timeout)
                && State() == Deliver(old(State()), slot, clock)
    {
      var waiting := set slot | slot in entries && slot.queue == queue && slot.level == level
        && entries[slot].delivered.None?;
      taken := None;
      assert waiting == {} ==> forall slot | slot in entries && slot.queue == queue && slot.level == level ::
          entries[slot].delivered.None? ==> slot in waiting;
      if waiting != {} {
        ghost var first := SomeFirst(waiting);
        var slot :| slot in waiting && forall other | other in waiting :: slot.number <= other.number;
        entries := entries[slot := entries[slot].(delivered := Some(clock))];
        taken := Some(slot);
      }
    }

    method XAckDel(slot: Slot)
      modifies this`entries
      ensures State() == Drop(old(State()), slot)
    {
      entries := entries - {slot};
    }

    method BuryJob(id: nat, error: string, now: nat, failedAt: string)
      requires id in jobs
      modifies this
      ensures State() == Bury(old(State()), id, error, now, failedAt)
    {
      var key := jobs[id].uniqueKey;
      if key != "" {
        unique := unique - {key};
        jobs := jobs[id := jobs[id].(uniqueKey := "")];
      }
      jobs := jobs[id := jobs[id].(error := error, failedAt := failedAt, reservedUntil := 0, reservedBy := "",
        entry := None)];
      failed := failed[id := now];
    }

    /** One pass of the promote loop: ZREM decides who adds the stream entry. */
    method PromoteOne(queue: string, id: nat)
      modifies this
      ensures State() == Promote(old(State()), queue, id)
    {
      if (queue, id) in delayed {
        delayed := delayed - {(queue, id)};
        if id in jobs {
          AddEntry(queue, jobs[id].priority, id);
        }
      }
    }

    /** One round of the claim loop, on an entry just handed out. */
    method Judge(slot: Slot, ghost clock: nat, c: Caller, ghost before: Store) returns (hand: Option<Hand>)
      requires slot in before.entries && State() == Deliver(before, slot, clock)
      modifies this
      ensures (State(), hand) == Visit(before, slot, clock, c)
    {
      var id := entries[slot].job;
      hand := None;
      if id !in jobs {
        XAckDel(slot);
      } else if c.now < jobs[id].reservedUntil {
        delayed := delayed[(slot.queue, id) := jobs[id].reservedUntil];
        jobs := jobs[id := jobs[id].(entry := None)];
        XAckDel(slot);
      } else if jobs[id].maxAttempts <= jobs[id].attempts {
        XAckDel(slot);
        BuryJob(id, EXHAUSTED_ERROR, c.now, c.failedAt);
      } else {
        jobs := jobs[id := jobs[id].(attempts := jobs[id].attempts + 1)];
        jobs := jobs[id := jobs[id].(reservedBy := c.worker, reservedUntil := c.now + c.timeout,
          entry := Some(slot.number))];
        hand := Some(Hand(id, jobs[id].queue, slot.number, jobs[id].attempts, jobs[id].maxAttempts));
        assert jobs == old(jobs)[id := jobs[id]];
      }
    }

    method Complete(worker: string, h: Hand) returns (held: bool)
      modifies this
      ensures State() == RedisStore.Complete(old(State()), worker, h) && held == old(Holds(State(), worker, h))
    {
      if h.id !in jobs || jobs[h.id].reservedBy != worker || jobs[h.id].attempts != h.attempts {
        return false;
      }
      XAckDel(Slot(h.queue, jobs[h.id].priority, h.entry));
      var key := jobs[h.id].uniqueKey;
      if key != "" {
        unique := unique - {key};
      }
      jobs := jobs - {h.id};
      held := true;
    }

    method Release(worker: string, h: Hand, availableAt: int, error: string) returns (held: bool)
      modifies this
      ensures State() == RedisStore.Release(old(State()), worker, h, availableAt, error)
      ensures held == old(Holds(State(), worker, h))
    {
      if h.id !in jobs || jobs[h.id].reservedBy != worker || jobs[h.id].attempts != h.attempts {
        return false;
      }
      var slot := Slot(h.queue, jobs[h.id].priority, h.entry);
      delayed := delayed[(h.queue, h.id) := availableAt];
      jobs := jobs[h.id := jobs[h.id].(availableAt := availableAt, reservedUntil := 0, reservedBy := "",
        lastError := error, entry := None)];
      XAckDel(slot);
      held := true;
    }

    /** `release`, as callers see it: the delay counts from now and never backwards. */
    method ReleaseJob(worker: string, h: Hand, delay: int, error: string, moment: nat) returns (held: bool)
      modifies this
      ensures State()
              == RedisStore.Release(old(State()), worker, h, if delay < 0 then moment else moment + delay, error)
      ensures held == old(Holds(State(), worker, h))
    {
      var available: int := moment;
      if 0 < delay {
        available := moment + delay;
      }
      held := Release(worker, h, available, error);
    }

    method Fail(worker: string, h: Hand, error: string, now: nat, failedAt: string) returns (held: bool)
      modifies this
      ensures State() == RedisStore.Fail(old(State()), worker, h, error, now, failedAt)
      ensures held == old(Holds(State(), worker, h))
    {
      if h.id !in jobs || jobs[h.id].reservedBy != worker || jobs[h.id].attempts != h.attempts {
        return false;
      }
      XAckDel(Slot(h.queue, jobs[h.id].priority, h.entry));
      BuryJob(h.id, error, now, failedAt);
      held := true;
    }

    method Requeue(id: nat, maxAttempts: nat, now: nat) returns (moved: nat)
      modifies this
      ensures (State(), moved) == RedisStore.Requeue(old(State()), id, maxAttempts, now)
    {
      if id !in failed {
        return 0;
      }
      failed := failed - {id};
      if id !in jobs {
        return 0;
      }
      var queue := jobs[id].queue;
      if queue == "" {
        queue := "default";
      }
      jobs := jobs[id := jobs[id].(attempts := 0, maxAttempts := maxAttempts, priority := 0, uniqueKey := "",
        availableAt := now, reservedUntil := 0, reservedBy := "", lastError := "", error := "", failedAt := "")];
      queues := queues + {queue};
      AddEntry(queue, 0, id);
      moved := 1;
    }

    method Forget(id: nat) returns (removed: nat)
      modifies this
      ensures (State(), removed) == RedisStore.Forget(old(State()), id)
    {
      if id !in failed {
        return 0;
      }
      failed := failed - {id};
      jobs := jobs - {id};
      removed := 1;
    }

    /** The promote loop. */
    method PromoteDue(call: Call) returns (ghost trail: seq<Step>)
      modifies this
      ensures Underway(old(State()), call, trail, State())
      ensures AllPromoted(State(), call.queue, call.caller.now) || Promotions(trail) == PROMOTE_LIMIT
      ensures forall level :: VisitsAt(trail, level) == 0
    {
      ghost var s := State();
      var due := DueFirst(call.queue, call.caller.now, PROMOTE_LIMIT);
      trail := [];
      for i := 0 to |due|
        invariant Promoting(s, call, due, i, trail, State())
      {
        PromotionStep(s, call, due, i, trail, State());
        PromoteOne(call.queue, due[i]);
        trail := trail + [Promoted(due[i])];
      }
    }

    /** The rounds on one level: up to CLAIM_ROUNDS entries are looked at until one is claimed. */
    method TryLevel(call: Call, level: int, ghost s: Store, ghost before: seq<Step>)
      returns (hand: Option<Hand>, ghost trail: seq<Step>)
      requires Underway(s, call, before, State()) && VisitsAt(before, level) == 0
      modifies this
      ensures ValidTrail(s, call, trail) && State() == Replay(s, call, trail) && hand == Answer(s, call, trail)
      ensures hand.Some? ==> trail != [] && trail[|trail| - 1].Visited? && trail[|trail| - 1].slot.level == level
      ensures hand.None? ==> Underway(s, call, trail, State())
      ensures hand.None? ==> LevelDone(State(), call.queue, trail, level)
      ensures VisitsAt(trail, level) <= CLAIM_ROUNDS && forall l | l != level ::
              VisitsAt(trail, l) == VisitsAt(before, l)
      ensures Promotions(trail) == Promotions(before) && levels == old(levels)
      ensures forall l {:trigger LevelDone(State(), call.queue, trail, l)} |
                l != level && old(LevelDone(State(), call.queue, before, l)) :: LevelDone(State(), call.queue, trail, l)
      ensures old(AllPromoted(State(), call.queue, call.caller.now)) ==>
              AllPromoted(State(), call.queue, call.caller.now)
    {
      trail := before;
      hand := None;
      var round := 0;
      while round < CLAIM_ROUNDS
        invariant Underway(s, call, trail, State()) && hand.None? && VisitsAt(trail, level) == round <= CLAIM_ROUNDS
        invariant forall l | l != level :: VisitsAt(trail, l) == VisitsAt(before, l)
        invariant Promotions(trail) == Promotions(before) && levels == old(levels)
        invariant forall l | old(Settled(State(), call.queue, l)) :: Settled(State(), call.queue, l)
        invariant old(AllPromoted(State(), call.queue, call.caller.now)) ==>
                  AllPromoted(State(), call.queue, call.caller.now)
      {
        ghost var now := State();
        var taken := XAutoClaim(call.queue, level, call.caller.timeout, call.clock);
        if taken.None? {
          taken := XReadGroup(call.queue, level, call.caller.timeout, call.clock);
        }
        if taken.None? {
          break;
        }
        hand := Judge(taken.value, call.clock, call.caller, now);
        VisitIsOneMore(s, call, trail, now, taken.value);
        trail := trail + [Visited(taken.value)];
        round := round + 1;
        if hand.Some? {
          return;
        }
      }
    }

    /** The levels in turn, highest first, until one gives a claim. */
    method TryLevels(call: Call, ranked: seq<int>, ghost s: Store, ghost before: seq<Step>)
      returns (hand: Option<Hand>, ghost trail: seq<Step>, tried: nat)
      requires Underway(s, call, before, State()) && forall level :: VisitsAt(before, level) == 0
      requires forall i, j | 0 <= i < j < |ranked| :: ranked[j] < ranked[i]
      modifies this
      ensures ValidTrail(s, call, trail) && State() == Replay(s, call, trail) && hand == Answer(s, call, trail)
      ensures tried <= |ranked| && (hand.Some? ==> trail != [] && trail[|trail| - 1].Visited?)
      ensures Promotions(trail) == Promotions(before) && levels == old(levels)
      ensures forall level :: VisitsAt(trail, level) <= CLAIM_ROUNDS
      ensures FirstDone(State(), call.queue, trail, ranked, tried) && (hand.None? ==> tried == |ranked|)
      ensures hand.Some? ==> tried < |ranked| && trail[|trail| - 1].slot.level == ranked[tried]
      ensures old(AllPromoted(State(), call.queue, call.caller.now)) ==>
                AllPromoted(State(), call.queue, call.caller.now)
    {
      trail, hand, tried := before, None, 0;
      while tried < |ranked|
        invariant tried <= |ranked| && Underway(s, call, trail, State()) && hand.None?
        invariant Promotions(trail) == Promotions(before) && levels == old(levels)
        invariant RestUntried(trail, ranked, tried) && FirstDone(State(), call.queue, trail, ranked, tried)
        invariant old(AllPromoted(State(), call.queue, call.caller.now)) ==>
                    AllPromoted(State(), call.queue, call.caller.now)
      {
        hand, trail := TryLevel(call, ranked[tried], s, trail);
        if hand.Some? {
          return;
        }
        tried := tried + 1;
      }
    }

    /** `_RESERVE`. Whatever is due is promoted first; then the levels are tried highest first, so a
        claim leaves every higher level with nothing undelivered or its rounds spent. */
    method Reserve(call: Call) returns (hand: Option<Hand>, ghost trail: seq<Step>)
      modifies this
      ensures ValidTrail(old(State()), call, trail) && State() == Replay(old(State()), call, trail)
      ensures hand == Answer(old(State()), call, trail)
      ensures hand.Some? ==> trail != [] && trail[|trail| - 1].Visited?
      ensures AllPromoted(State(), call.queue, call.caller.now) || Promotions(trail) == PROMOTE_LIMIT
      ensures forall level :: VisitsAt(trail, level) <= CLAIM_ROUNDS
      ensures forall level | (call.queue, level) in levels && (hand.Some? ==> trail[|trail| - 1].slot.level < level) ::
                LevelDone(State(), call.queue, trail, level)
    {
      ghost var s := State();
      trail := PromoteDue(call);
      var ranked := RankedLevels(call.queue);
      var tried;
      hand, trail, tried := TryLevels(call, ranked, s, trail);
      forall level | (call.queue, level) in levels && (hand.Some? ==> trail[|trail| - 1].slot.level < level)
        ensures LevelDone(State(), call.queue, trail, level)
      {
        var j :| 0 <= j < |ranked| && ranked[j] == level;
      }
    }
  }

  /** Partway through a call: no claim made yet. */
  predicate Underway(s: Store, call: Call, trail: seq<Step>, now: Store) {
    now == Replay(s, call, trail) && ValidTrail(s, call, trail) && !ClaimedBy(s, call, trail)
  }

  predicate IsDue(s: Store, call: Call, id: nat) {
    (call.queue, id) in s.delayed && s.delayed[(call.queue, id)] <= call.caller.now
  }

  /** The delayed set after some ids of the queue were promoted. */
  ghost predicate DelayedWithout(s: Store, queue: string, gone: seq<nat>, now: Store) {
    forall id: nat {:trigger (queue, id) in now.delayed} ::
      && ((queue, id) in now.delayed <==> (queue, id) in s.delayed && id !in gone)
      && ((queue, id) in now.delayed ==> now.delayed[(queue, id)] == s.delayed[(queue, id)])
  }

  /** Partway through the promote loop. */
  ghost predicate Promoting(s: Store, call: Call, due: seq<nat>, n: nat, trail: seq<Step>, now: Store)
    requires n <= |due|
  {
    && Underway(s, call, trail, now) && Promotions(trail) == n && (forall level :: VisitsAt(trail, level) == 0)
    && DelayedWithout(s, call.queue, due[..n], now)
  }

  lemma PromotionStep(s: Store, call: Call, due: seq<nat>, n: nat, trail: seq<Step>, now: Store)
    requires n < |due| && Promoting(s, call, due, n, trail, now)
    requires forall i, j | 0 <= i < j < |due| :: due[i] != due[j]
    requires forall i | 0 <= i < |due| :: IsDue(s, call, due[i])
    ensures Promoting(s, call, due, n + 1, trail + [Promoted(due[n])], Promote(now, call.queue, due[n]))
  {
    ReplayOneMore(s, call, trail, Promoted(due[n]));
    assert IsDue(s, call, due[n]) && due[n] !in due[..n];
    assert IsDue(now, call, due[n]);
    assert due[..n + 1] == due[..n] + [due[n]];
  }

  lemma VisitIsOneMore(s: Store, call: Call, trail: seq<Step>, now: Store, slot: Slot)
    requires Underway(s, call, trail, now)
    requires slot.queue == call.queue && Takeable(now, slot, call.clock, call.caller.timeout)
    ensures var (t, hand) := Visit(now, slot, call.clock, call.caller);
            && ValidTrail(s, call, trail + [Visited(slot)]) && t == Replay(s, call, trail + [Visited(slot)])
            && hand == Answer(s, call, trail + [Visited(slot)])
            && (hand.None? ==> Underway(s, call, trail + [Visited(slot)], t))
            && t.levels == now.levels
            && (AllPromoted(now, call.queue, call.caller.now) ==> AllPromoted(t, call.queue, call.caller.now))
            && forall level | Settled(now, call.queue, level) :: Settled(t, call.queue, level)
    ensures forall level ::
            VisitsAt(trail + [Visited(slot)], level) == VisitsAt(trail, level) + if slot.level == level then 1 else 0
    ensures Promotions(trail + [Visited(slot)]) == Promotions(trail)
  {
    ReplayOneMore(s, call, trail, Visited(slot));
    VisitKeepsAllPromoted(now, slot, call.clock, call.caller, call.queue);
    forall level | Settled(now, call.queue, level)
      ensures Settled(Visit(now, slot, call.clock, call.caller).0, call.queue, level)
    {
      VisitKeepsSettled(now, slot, call.clock, call.caller, call.queue, level);
    }
  }

  lemma SomeFirst(slots: set<Slot>) returns (first: Slot)
    requires slots != {}
    ensures first in slots && forall slot | slot in slots :: first.number <= slot.number
    decreases slots
  {
    first :| first in slots;
    if slots != {first} {
      var other := SomeFirst(slots - {first});
      first := if other.number < first.number then other else first;
    }
  }
}
