/** Runs of the Redis driver: any number of workers, each script one step, in any order.

    `_RESERVE` appears as its loop bodies, so the runs here include every interleaving of whole
    scripts and more. Workers read their clock before their script runs, so the moment they bring
    is at most the server's. */
module RedisRuns {
  import opened Wrappers
  import opened RedisStore
  import opened RedisInvariant

  /** `hands` is what each worker remembers of its newest claim; `clock` counts milliseconds. */
  datatype World = World(store: Store, hands: map<string, Hand>, clock: nat)

  datatype Event =
    | DoPush(args: PushArgs)
    | DoPromote(queue: string, id: nat, now: nat)
    | DoVisit(slot: Slot, caller: Caller)
    | DoComplete(worker: string)
    | DoRelease(worker: string, availableAt: int, error: string)
    | DoFail(worker: string, error: string, now: nat, failedAt: string)
    | DoRequeue(id: nat, maxAttempts: nat, now: nat)
    | DoForget(id: nat)
    | DoLeave(worker: string)
    | DoTick(to: nat)

  predicate Enabled(w: World, e: Event) {
    match e
    case DoPush(a) => a.queue != "" && 1 <= a.maxAttempts && 1000 * a.now <= w.clock
    case DoPromote(queue, id, now) =>
      (queue, id) in w.store.delayed && w.store.delayed[(queue, id)] <= now && 1000 * now <= w.clock
    case DoVisit(slot, c) =>
      Takeable(w.store, slot, w.clock, c.timeout) && c.worker != "" && 1 <= c.timeout && 1000 * c.now <= w.clock
    case DoComplete(worker) => worker in w.hands
    case DoRelease(worker, _, _) => worker in w.hands
    case DoFail(worker, _, _, _) => worker in w.hands && w.hands[worker].maxAttempts <= w.hands[worker].attempts
    case DoRequeue(_, maxAttempts, now) => 1 <= maxAttempts && 1000 * now <= w.clock
    case DoForget(_) => true
    case DoLeave(_) => true
    case DoTick(to) => w.clock <= to
  }

  function Apply(w: World, e: Event): World
    requires Enabled(w, e)
  {
    match e
    case DoPush(a) => w.(store := Push(w.store, a).0)
    case DoPromote(queue, id, _) => w.(store := Promote(w.store, queue, id))
    case DoVisit(slot, c) =>
      var (t, hand) := Visit(w.store, slot, w.clock, c);
      w.(store := t, hands := if hand.Some? then w.hands[c.worker := hand.value] else w.hands)
    case DoComplete(worker) => w.(store := Complete(w.store, worker, w.hands[worker]))
    case DoRelease(worker, availableAt, error) =>
      w.(store := Release(w.store, worker, w.hands[worker], availableAt, error))
    case DoFail(worker, error, now, failedAt) =>
      w.(store := Fail(w.store, worker, w.hands[worker], error, now, failedAt))
    case DoRequeue(id, maxAttempts, now) => w.(store := Requeue(w.store, id, maxAttempts, now).0)
    case DoForget(id) => w.(store := Forget(w.store, id).0)
    case DoLeave(worker) => w.(hands := w.hands - {worker})
    case DoTick(to) => w.(clock := to)
  }

  datatype Run = Run(worlds: seq<World>, events: seq<Event>)

  predicate StepAt(r: Run, i: nat)
    requires i < |r.events| && |r.worlds| == |r.events| + 1
  {
    Enabled(r.worlds[i], r.events[i]) && r.worlds[i + 1] == Apply(r.worlds[i], r.events[i])
  }

  predicate IsRun(r: Run) {
    && |r.worlds| == |r.events| + 1
    && r.worlds[0].store == EMPTY && r.worlds[0].hands == map[]
    && forall i | 0 <= i < |r.events| :: StepAt(r, i)
  }

  /////////////////////////////////
  /// Every run
  /////////////////////////////////

  predicate HandSound(w: World, worker: string) {
    worker in w.hands ==>
      && worker != ""
      && (Holds(w.store, worker, w.hands[worker]) ==>
            && w.store.jobs[w.hands[worker].id].maxAttempts == w.hands[worker].maxAttempts
            && w.store.jobs[w.hands[worker].id].queue == w.hands[worker].queue)
  }

  ghost predicate WorldSound(w: World) {
    Sound(w.store) && forall worker {:trigger HandSound(w, worker)} :: HandSound(w, worker)
  }

  lemma StepKeepsStoreSound(w: World, e: Event)
    requires WorldSound(w) && Enabled(w, e)
    ensures Sound(Apply(w, e).store)
  {
    match e
    case DoPush(a) => PushKeepsSound(w.store, a);
    case DoPromote(queue, id, _) => PromoteKeepsSound(w.store, queue, id);
    case DoVisit(slot, c) => VisitKeepsSound(w.store, slot, w.clock, c);
    case DoComplete(worker) => assert HandSound(w, worker); CompleteKeepsSound(w.store, worker, w.hands[worker]);
    case DoRelease(worker, at, error) =>
      assert HandSound(w, worker);
      ReleaseKeepsSound(w.store, worker, w.hands[worker], at, error);
    case DoFail(worker, error, now, failedAt) =>
      assert HandSound(w, worker);
      FailKeepsSound(w.store, worker, w.hands[worker], error, now, failedAt);
    case DoRequeue(id, maxAttempts, now) => RequeueKeepsSound(w.store, id, maxAttempts, now);
    case DoForget(id) => ForgetKeepsSound(w.store, id);
    case DoLeave(_) =>
    case DoTick(_) =>
  }

  /** Only a claim makes a worker hold a job: whatever else a script does to a job somebody still
      holds afterwards, it was held the same way before. */
  ghost predicate HeldAsBefore(s: Store, t: Store, worker: string, h: Hand) {
    Holds(t, worker, h) ==>
      && Holds(s, worker, h) && s.jobs[h.id].maxAttempts == t.jobs[h.id].maxAttempts
      && s.jobs[h.id].queue == t.jobs[h.id].queue && s.jobs[h.id].priority == t.jobs[h.id].priority
  }

  lemma VisitHandsOutClaim(s: Store, slot: Slot, clock: int, c: Caller, worker: string, h: Hand)
    requires Sound(s) && slot in s.entries && worker != ""
    ensures var (t, hand) := Visit(s, slot, clock, c);
            && (hand.Some? ==>
                  && Holds(t, c.worker, hand.value) && t.jobs[hand.value.id].maxAttempts == hand.value.maxAttempts
                  && t.jobs[hand.value.id].queue == hand.value.queue)
            && (hand.None? || worker != c.worker ==> HeldAsBefore(s, t, worker, h))
  {
    assert JobSound(s, h.id) && JobSound(s, s.entries[slot].job);
  }

  lemma PushHoldsAsBefore(s: Store, a: PushArgs, worker: string, h: Hand)
    requires worker != ""
    ensures HeldAsBefore(s, Push(s, a).0, worker, h)
  {
  }

  lemma RequeueHoldsAsBefore(s: Store, id: nat, maxAttempts: nat, now: nat, worker: string, h: Hand)
    requires worker != ""
    ensures HeldAsBefore(s, Requeue(s, id, maxAttempts, now).0, worker, h)
  {
  }

  lemma FailHoldsAsBefore(s: Store, other: string, theirs: Hand, error: string, now: nat, failedAt: string,
                          worker: string, h: Hand)
    requires worker != ""
    ensures HeldAsBefore(s, Fail(s, other, theirs, error, now, failedAt), worker, h)
  {
  }

  lemma EndHoldsAsBefore(s: Store, other: string, theirs: Hand, availableAt: int, error: string, worker: string,
                         h: Hand)
    requires worker != ""
    ensures HeldAsBefore(s, Complete(s, other, theirs), worker, h)
    ensures HeldAsBefore(s, Release(s, other, theirs, availableAt, error), worker, h)
  {
  }

  lemma StepHoldsAsBefore(w: World, e: Event, worker: string, h: Hand)
    requires WorldSound(w) && Enabled(w, e) && worker != "" && !e.DoVisit?
    ensures HeldAsBefore(w.store, Apply(w, e).store, worker, h)
  {
    match e
    case DoPush(a) => PushHoldsAsBefore(w.store, a, worker, h);
    case DoComplete(other) => EndHoldsAsBefore(w.store, other, w.hands[other], 0, "", worker, h);
    case DoRelease(other, at, error) => EndHoldsAsBefore(w.store, other, w.hands[other], at, error, worker, h);
    case DoFail(other, error, now, failedAt) =>
      FailHoldsAsBefore(w.store, other, w.hands[other], error, now, failedAt, worker, h);
    case DoRequeue(id, maxAttempts, now) => RequeueHoldsAsBefore(w.store, id, maxAttempts, now, worker, h);
    case _ =>
  }

  lemma StepKeepsHandSound(w: World, e: Event, worker: string)
    requires WorldSound(w) && Enabled(w, e)
    ensures HandSound(Apply(w, e), worker)
  {
    assert HandSound(w, worker);
    if worker in Apply(w, e).hands {
      match e
      case DoVisit(slot, c) => VisitHandsOutClaim(w.store, slot, w.clock, c, worker, Apply(w, e).hands[worker]);
      case _ => StepHoldsAsBefore(w, e, worker, w.hands[worker]);
    }
  }

  lemma StepKeepsWorldSound(w: World, e: Event)
    requires WorldSound(w) && Enabled(w, e)
    ensures WorldSound(Apply(w, e))
  {
    StepKeepsStoreSound(w, e);
    forall worker: string
      ensures HandSound(Apply(w, e), worker)
    {
      StepKeepsHandSound(w, e, worker);
    }
  }

  lemma {:induction false} RunsStaySound(r: Run, k: nat)
    requires IsRun(r) && k <= |r.events|
    ensures WorldSound(r.worlds[k])
  {
    if k == 0 {
      assert WorldSound(r.worlds[0]);
    } else {
      RunsStaySound(r, k - 1);
      assert StepAt(r, k - 1);
      StepKeepsWorldSound(r.worlds[k - 1], r.events[k - 1]);
    }
  }

  predicate KeyNames(s: Store, key: string, id: nat) {
    key in s.unique && s.unique[key] == id
  }

  predicate JobCarries(s: Store, key: string, id: nat) {
    key != "" && id in s.jobs && s.jobs[id].uniqueKey == key
  }

  predicate Buried(h: Hash) {
    h.reservedBy == "" && h.reservedUntil == 0 && h.uniqueKey == "" && h.maxAttempts <= h.attempts
  }

  /** In every reachable keyspace, whatever the timeouts and clocks, the unique-key map and the
      `unique_key` fields are exact inverses, and a failed job is unheld, keyless and out of
      attempts. */
  lemma KeysAndFailuresAreExact(r: Run, k: nat)
    requires IsRun(r) && k <= |r.events|
    ensures forall key, id :: KeyNames(r.worlds[k].store, key, id) <==> JobCarries(r.worlds[k].store, key, id)
    ensures forall id | id in r.worlds[k].store.failed ::
              id in r.worlds[k].store.jobs && Buried(r.worlds[k].store.jobs[id])
  {
    RunsStaySound(r, k);
    var s := r.worlds[k].store;
    forall key: string, id: nat
      ensures KeyNames(s, key, id) <==> JobCarries(s, key, id)
    {
      assert KeySound(s, key) && JobSound(s, id);
    }
    forall id | id in s.failed
      ensures id in s.jobs && Buried(s.jobs[id])
    {
      assert FailedSound(s, id) && JobSound(s, id);
    }
  }

  /////////////////////////////////
  /// Runs in which nothing is parked
  /////////////////////////////////

  /** The step is a round of the claim loop that takes the parking branch. */
  predicate Parks(w: World, e: Event) {
    e.DoVisit? && e.slot in w.store.entries && OutcomeOf(w.store, e.slot, e.caller.now) == Parked
  }

  predicate WithinTimeout(e: Event, longest: nat) {
    e.DoVisit? ==> e.caller.timeout <= longest
  }

  predicate HandTidy(w: World, worker: string) {
    worker in w.hands ==> HandPlaced(w.store, worker, w.hands[worker])
  }

  ghost predicate WorldTidy(w: World, timeout: nat) {
    Tidy(w.store, w.clock, timeout) && forall worker {:trigger HandTidy(w, worker)} :: HandTidy(w, worker)
  }

  lemma StepKeepsStoreTidy(w: World, e: Event, timeout: nat)
    requires WorldSound(w) && WorldTidy(w, timeout) && Enabled(w, e) && WithinTimeout(e, timeout) && !Parks(w, e)
    ensures Tidy(Apply(w, e).store, Apply(w, e).clock, timeout)
  {
    var s := w.store;
    match e
    case DoPush(a) => PushKeepsTidy(s, a, w.clock, timeout);
    case DoPromote(queue, id, now) => PromoteKeepsTidy(s, queue, id, now, w.clock, timeout);
    case DoVisit(slot, c) =>
      VisitKeepsTidyIff(s, slot, w.clock, c, timeout);
    case DoComplete(worker) =>
      assert HandSound(w, worker) && HandTidy(w, worker);
      CompleteKeepsTidy(s, worker, w.hands[worker], w.clock, timeout);
    case DoRelease(worker, at, error) =>
      assert HandSound(w, worker) && HandTidy(w, worker);
      ReleaseKeepsTidy(s, worker, w.hands[worker], at, error, w.clock, timeout);
    case DoFail(worker, error, now, failedAt) =>
      assert HandSound(w, worker) && HandTidy(w, worker);
      FailKeepsTidy(s, worker, w.hands[worker], error, now, failedAt, w.clock, timeout);
    case DoRequeue(id, maxAttempts, now) => RequeueKeepsTidy(s, id, maxAttempts, now, w.clock, timeout);
    case DoForget(id) => ForgetKeepsTidy(s, id, w.clock, timeout);
    case DoLeave(_) =>
    case DoTick(to) => TickKeepsTidy(s, w.clock, to, timeout);
  }

  lemma VisitKeepsHandPlaced(s: Store, slot: Slot, clock: int, c: Caller, worker: string, h: Hand)
    requires Sound(s) && Placed(s) && slot in s.entries && worker != "" && OutcomeOf(s, slot, c.now) != Parked
    requires HandPlaced(s, worker, h)
    ensures var (t, hand) := Visit(s, slot, clock, c);
            && (hand.Some? ==> HandPlaced(t, c.worker, hand.value))
            && (hand.None? || worker != c.worker ==> HandPlaced(t, worker, h))
  {
    JobHasOnePlace(s, s.entries[slot].job);
    JobHasOnePlace(s, h.id);
  }

  lemma PushKeepsHandPlaced(s: Store, a: PushArgs, worker: string, h: Hand)
    requires Sound(s) && worker != "" && HandPlaced(s, worker, h)
    ensures HandPlaced(Push(s, a).0, worker, h)
  {
    assert JobSound(s, h.id) && JobSound(s, s.seqNo + 1);
  }

  lemma PromoteKeepsHandPlaced(s: Store, queue: string, id: nat, clock: int, timeout: nat, worker: string, h: Hand)
    requires Tidy(s, clock, timeout) && worker != "" && HandPlaced(s, worker, h)
    ensures HandPlaced(Promote(s, queue, id), worker, h)
  {
    JobHasOnePlace(s, h.id);
    assert DelayTimed(s, queue, id);
  }

  lemma EndKeepsHandPlaced(s: Store, other: string, theirs: Hand, availableAt: int, error: string, worker: string,
                           h: Hand)
    requires Sound(s) && Placed(s) && worker != "" && HandPlaced(s, worker, h)
    ensures HandPlaced(Complete(s, other, theirs), worker, h)
    ensures HandPlaced(Release(s, other, theirs, availableAt, error), worker, h)
  {
    EndHoldsAsBefore(s, other, theirs, availableAt, error, worker, h);
    JobHasOnePlace(s, h.id);
  }

  lemma FailKeepsHandPlaced(s: Store, other: string, theirs: Hand, error: string, now: nat, failedAt: string,
                            worker: string, h: Hand)
    requires Sound(s) && Placed(s) && worker != "" && HandPlaced(s, worker, h)
    ensures HandPlaced(Fail(s, other, theirs, error, now, failedAt), worker, h)
  {
    FailHoldsAsBefore(s, other, theirs, error, now, failedAt, worker, h);
    JobHasOnePlace(s, h.id);
  }

  lemma RequeueKeepsHandPlaced(s: Store, id: nat, maxAttempts: nat, now: nat, worker: string, h: Hand)
    requires Sound(s) && worker != "" && HandPlaced(s, worker, h)
    ensures HandPlaced(Requeue(s, id, maxAttempts, now).0, worker, h)
    ensures HandPlaced(Forget(s, id).0, worker, h)
  {
    assert FailedSound(s, id) && JobSound(s, h.id);
  }

  lemma StepKeepsHandPlaced(w: World, e: Event, timeout: nat, worker: string, h: Hand)
    requires WorldSound(w) && WorldTidy(w, timeout) && Enabled(w, e) && !e.DoVisit?
    requires worker != "" && HandPlaced(w.store, worker, h)
    ensures HandPlaced(Apply(w, e).store, worker, h)
  {
    match e
    case DoPush(a) => PushKeepsHandPlaced(w.store, a, worker, h);
    case DoPromote(queue, id, _) => PromoteKeepsHandPlaced(w.store, queue, id, w.clock, timeout, worker, h);
    case DoComplete(other) => EndKeepsHandPlaced(w.store, other, w.hands[other], 0, "", worker, h);
    case DoRelease(other, at, error) => EndKeepsHandPlaced(w.store, other, w.hands[other], at, error, worker, h);
    case DoFail(other, error, now, failedAt) =>
      FailKeepsHandPlaced(w.store, other, w.hands[other], error, now, failedAt, worker, h);
    case DoRequeue(id, maxAttempts, now) => RequeueKeepsHandPlaced(w.store, id, maxAttempts, now, worker, h);
    case DoForget(id) => RequeueKeepsHandPlaced(w.store, id, 0, 0, worker, h);
    case _ =>
  }

  lemma StepKeepsWorldTidy(w: World, e: Event, timeout: nat)
    requires WorldSound(w) && WorldTidy(w, timeout) && Enabled(w, e) && WithinTimeout(e, timeout) && !Parks(w, e)
    ensures WorldTidy(Apply(w, e), timeout)
  {
    StepKeepsStoreTidy(w, e, timeout);
    forall worker: string
      ensures HandTidy(Apply(w, e), worker)
    {
      assert HandSound(w, worker) && HandTidy(w, worker);
      if worker in Apply(w, e).hands {
        match e
        case DoVisit(slot, c) =>
          assert HandSound(w, c.worker) && HandTidy(w, c.worker);
          var h := if worker in w.hands then w.hands[worker] else Hand(0, "", 0, 0, 0);
          assert JobSound(w.store, 0);
          VisitKeepsHandPlaced(w.store, slot, w.clock, c, worker, h);
        case _ => StepKeepsHandPlaced(w, e, timeout, worker, w.hands[worker]);
      }
    }
  }

  lemma ParkingStepBreaksTidy(w: World, e: Event, longest: nat)
    requires WorldTidy(w, longest) && Enabled(w, e) && Parks(w, e)
    ensures !WorldTidy(Apply(w, e), longest)
  {
    ParkingBreaksTidy(w.store, e.slot, w.clock, e.caller, longest);
  }

  /** The longest timeout any worker of the run brings. */
  function Longest(events: seq<Event>): nat {
    if events == [] then 0
    else
      var e, rest := events[|events| - 1], Longest(events[..|events| - 1]);
      if e.DoVisit? && rest < e.caller.timeout then e.caller.timeout else rest
  }

  lemma {:induction false} LongestBounds(events: seq<Event>, i: nat)
    requires i < |events|
    ensures WithinTimeout(events[i], Longest(events))
  {
    if i < |events| - 1 {
      LongestBounds(events[..|events| - 1], i);
    }
  }

  /** None of the first k steps parks a job. */
  predicate Unparked(r: Run, k: nat)
    requires k <= |r.events| < |r.worlds|
  {
    forall i | 0 <= i < k :: !Parks(r.worlds[i], r.events[i])
  }

  lemma {:induction false} UnparkedRunsStayTidy(r: Run, k: nat)
    requires IsRun(r) && k <= |r.events| && Unparked(r, k)
    ensures WorldSound(r.worlds[k]) && WorldTidy(r.worlds[k], Longest(r.events))
  {
    RunsStaySound(r, k);
    if 0 < k {
      UnparkedRunsStayTidy(r, k - 1);
      assert StepAt(r, k - 1);
      LongestBounds(r.events, k - 1);
      StepKeepsWorldTidy(r.worlds[k - 1], r.events[k - 1], Longest(r.events));
    }
  }

  ghost predicate TidyThrough(r: Run, k: nat)
    requires k <= |r.events| < |r.worlds|
  {
    forall i | 0 <= i <= k :: WorldTidy(r.worlds[i], Longest(r.events))
  }

  /** Whatever the timeouts and however far the workers' clocks lag, the keyspaces of a run keep jobs
      in place, and held ones in their streams, exactly as long as no round takes the parking
      branch. */
  lemma TidyIffNothingIsParked(r: Run, k: nat)
    requires IsRun(r) && k <= |r.events|
    ensures TidyThrough(r, k) <==> Unparked(r, k)
  {
    if Unparked(r, k) {
      forall i | 0 <= i <= k
        ensures WorldTidy(r.worlds[i], Longest(r.events))
      {
        UnparkedRunsStayTidy(r, i);
      }
    } else {
      var i :| 0 <= i < k && Parks(r.worlds[i], r.events[i]);
      assert StepAt(r, i);
      if WorldTidy(r.worlds[i], Longest(r.events)) {
        ParkingStepBreaksTidy(r.worlds[i], r.events[i], Longest(r.events));
        assert !WorldTidy(r.worlds[i + 1], Longest(r.events));
      }
    }
  }

  /////////////////////////////////
  /// Runs with one timeout and prompt clocks
  /////////////////////////////////

  /** All workers share one timeout, and a reserving worker's moment is the server's second. */
  predicate Prompt(w: World, e: Event, timeout: nat) {
    e.DoVisit? ==> e.caller.timeout == timeout && e.caller.now == w.clock / 1000
  }

  ghost predicate PromptRun(r: Run, timeout: nat) {
    IsRun(r) && forall i | 0 <= i < |r.events| :: Prompt(r.worlds[i], r.events[i], timeout)
  }

  lemma {:induction false} LongestIsShared(events: seq<Event>, timeout: nat, i: nat)
    requires forall j | 0 <= j < |events| && events[j].DoVisit? :: events[j].caller.timeout == timeout
    requires i < |events| && events[i].DoVisit?
    ensures Longest(events) == timeout
    decreases |events|
  {
    var rest := events[..|events| - 1];
    if j :| 0 <= j < |rest| && rest[j].DoVisit? {
      LongestIsShared(rest, timeout, j);
    } else {
      NoVisitNoTimeout(rest);
    }
  }

  lemma {:induction false} NoVisitNoTimeout(events: seq<Event>)
    requires forall j | 0 <= j < |events| :: !events[j].DoVisit?
    ensures Longest(events) == 0
  {
    if events != [] {
      NoVisitNoTimeout(events[..|events| - 1]);
    }
  }

  /** Such a run never takes the parking branch, so all of the above holds for it; and what it hands
      out is due by the worker's own clock. */
  lemma {:induction false} PromptRunsNeverPark(r: Run, timeout: nat, k: nat)
    requires PromptRun(r, timeout) && k <= |r.events|
    ensures Unparked(r, k)
    ensures k < |r.events| && r.events[k].DoVisit? ==>
              var s, slot := r.worlds[k].store, r.events[k].slot;
              && slot in s.entries && s.entries[slot].job in s.jobs
              && s.jobs[s.entries[slot].job].availableAt <= r.events[k].caller.now
  {
    if 0 < k {
      PromptRunsNeverPark(r, timeout, k - 1);
      var w, e := r.worlds[k - 1], r.events[k - 1];
      if Parks(w, e) {
        UnparkedRunsStayTidy(r, k - 1);
        assert StepAt(r, k - 1);
        LongestIsShared(r.events, timeout, k - 1);
        ParkingNeedsALaggingOrShorterCaller(w.store, e.slot, w.clock, e.caller, timeout);
      }
    }
    if k < |r.events| && r.events[k].DoVisit? {
      UnparkedRunsStayTidy(r, k);
      assert StepAt(r, k);
      VisitedJobsAreDue(r.worlds[k].store, r.events[k].slot, r.worlds[k].clock, r.events[k].caller.now,
        Longest(r.events));
    }
  }
}
