/** When the runs of the Redis driver keep every job in one place: exactly as long as no claim is
    ended off its entry, parked jobs or not. */
module RedisPlacement {
  import opened QueueLimits
  import opened Wrappers
  import opened RedisStore
  import opened RedisInvariant
  import opened RedisRuns

  /** The step ends a claim that still holds, while the job's hash names another entry than the claim
      does, or none; a release only counts when it names another. */
  predicate EndsOffEntry(w: World, e: Event) {
    && (e.DoComplete? || e.DoFail? || e.DoRelease?) && e.worker in w.hands
    && OffEntry(w.store, e.worker, w.hands[e.worker])
    && (e.DoRelease? ==> w.store.jobs[w.hands[e.worker].id].entry.Some?)
  }

  predicate EndsOnEntry(r: Run, k: nat)
    requires k <= |r.events| < |r.worlds|
  {
    forall i | 0 <= i < k :: !EndsOffEntry(r.worlds[i], r.events[i])
  }

  predicate Owned(w: World, worker: string) {
    worker in w.hands ==> HandOwned(w.store, worker, w.hands[worker])
  }

  ghost predicate WorldPlaced(w: World) {
    Placed(w.store) && forall worker {:trigger Owned(w, worker)} :: Owned(w, worker)
  }

  /////////////////////////////////
  /// A claim's slot stays its own
  /////////////////////////////////

  /** Streams only gain entries at the end, and an entry keeps its job. */
  ghost predicate StreamsGrow(s: Store, t: Store) {
    && (forall queue, level {:trigger Last(t, queue, level)} :: Last(s, queue, level) <= Last(t, queue, level))
    && forall slot | slot in t.entries ::
         || (slot in s.entries && t.entries[slot].job == s.entries[slot].job)
         || Last(s, slot.queue, slot.level) < slot.number
  }

  lemma PushStreamsGrow(s: Store, a: PushArgs)
    ensures StreamsGrow(s, Push(s, a).0)
  {
  }

  lemma EndStreamsGrow(s: Store, worker: string, h: Hand, availableAt: int, error: string, now: nat, failedAt: string)
    ensures StreamsGrow(s, Complete(s, worker, h)) && StreamsGrow(s, Release(s, worker, h, availableAt, error))
    ensures StreamsGrow(s, Fail(s, worker, h, error, now, failedAt))
  {
  }

  lemma RequeueStreamsGrow(s: Store, id: nat, maxAttempts: nat, now: nat)
    ensures StreamsGrow(s, Requeue(s, id, maxAttempts, now).0)
  {
  }

  lemma BuryLeavesTheRest(s: Store, id: nat, error: string, now: nat, failedAt: string)
    requires id in s.jobs
    ensures var t := Bury(s, id, error, now, failedAt);
            && t.entries == s.entries && t.lastNumber == s.lastNumber && t.delayed == s.delayed
            && t.jobs.Keys == s.jobs.Keys
            && forall other | other in t.jobs :: t.jobs[other].availableAt == s.jobs[other].availableAt
  {
  }

  /** A round adds no entry. */
  lemma VisitShrinksStreams(s: Store, slot: Slot, clock: int, c: Caller)
    requires slot in s.entries
    ensures var t := Visit(s, slot, clock, c).0;
            && t.lastNumber == s.lastNumber && t.entries.Keys <= s.entries.Keys
            && forall other | other in t.entries :: t.entries[other].job == s.entries[other].job
  {
    var delivered := Deliver(s, slot, clock);
    if OutcomeOf(s, slot, c.now) == Exhausted {
      BuryLeavesTheRest(Drop(delivered, slot), s.entries[slot].job, EXHAUSTED_ERROR, c.now, c.failedAt);
    }
  }

  lemma VisitStreamsGrow(s: Store, slot: Slot, clock: int, c: Caller)
    requires slot in s.entries
    ensures StreamsGrow(s, Visit(s, slot, clock, c).0)
  {
    VisitShrinksStreams(s, slot, clock, c);
  }

  lemma StepStreamsGrow(w: World, e: Event)
    requires Enabled(w, e)
    ensures StreamsGrow(w.store, Apply(w, e).store)
  {
    match e
    case DoPush(a) => PushStreamsGrow(w.store, a);
    case DoVisit(slot, c) => VisitStreamsGrow(w.store, slot, w.clock, c);
    case DoComplete(worker) => EndStreamsGrow(w.store, worker, w.hands[worker], 0, "", 0, "");
    case DoRelease(worker, at, error) => EndStreamsGrow(w.store, worker, w.hands[worker], at, error, 0, "");
    case DoFail(worker, error, now, failedAt) =>
      EndStreamsGrow(w.store, worker, w.hands[worker], 0, error, now, failedAt);
    case DoRequeue(id, maxAttempts, now) => RequeueStreamsGrow(w.store, id, maxAttempts, now);
    case _ =>
  }

  lemma OwnedAsBefore(s: Store, t: Store, worker: string, h: Hand)
    requires HandOwned(s, worker, h) && HeldAsBefore(s, t, worker, h) && StreamsGrow(s, t)
    ensures HandOwned(t, worker, h)
  {
    if Holds(t, worker, h) {
      assert Last(s, h.queue, t.jobs[h.id].priority) <= Last(t, h.queue, t.jobs[h.id].priority);
    }
  }

  lemma ClaimIsOwned(s: Store, slot: Slot, clock: int, c: Caller)
    requires Sound(s) && Placed(s) && slot in s.entries && OutcomeOf(s, slot, c.now) == Claimed
    ensures var (t, hand) := Visit(s, slot, clock, c); hand.Some? && HandOwned(t, c.worker, hand.value)
  {
    assert EntryPlaced(s, slot) && EntrySound(s, slot);
  }

  lemma StepKeepsOwned(w: World, e: Event, worker: string)
    requires WorldSound(w) && WorldPlaced(w) && Enabled(w, e)
    ensures Owned(Apply(w, e), worker)
  {
    assert HandSound(w, worker) && Owned(w, worker);
    if worker in Apply(w, e).hands {
      StepStreamsGrow(w, e);
      match e
      case DoVisit(slot, c) =>
        if worker == c.worker && OutcomeOf(w.store, slot, c.now) == Claimed {
          ClaimIsOwned(w.store, slot, w.clock, c);
        } else {
          VisitHandsOutClaim(w.store, slot, w.clock, c, worker, w.hands[worker]);
          OwnedAsBefore(w.store, Apply(w, e).store, worker, w.hands[worker]);
        }
      case _ =>
        StepHoldsAsBefore(w, e, worker, w.hands[worker]);
        OwnedAsBefore(w.store, Apply(w, e).store, worker, w.hands[worker]);
    }
  }

  /////////////////////////////////
  /// Every run
  /////////////////////////////////

  lemma StepKeepsPlacedUnlessOffEntry(w: World, e: Event)
    requires WorldSound(w) && WorldPlaced(w) && Enabled(w, e) && !EndsOffEntry(w, e)
    ensures Placed(Apply(w, e).store)
  {
    var s := w.store;
    match e
    case DoPush(a) => PushKeepsPlaced(s, a);
    case DoPromote(queue, id, _) => PromoteKeepsPlaced(s, queue, id);
    case DoVisit(slot, c) => VisitKeepsPlaced(s, slot, w.clock, c);
    case DoComplete(worker) =>
      assert HandSound(w, worker) && Owned(w, worker);
      EndKeepsPlaced(s, worker, w.hands[worker], "", 0, "");
    case DoRelease(worker, at, error) =>
      assert HandSound(w, worker) && Owned(w, worker);
      ReleaseKeepsPlaced(s, worker, w.hands[worker], at, error);
    case DoFail(worker, error, now, failedAt) =>
      assert HandSound(w, worker) && Owned(w, worker);
      EndKeepsPlaced(s, worker, w.hands[worker], error, now, failedAt);
    case DoRequeue(id, maxAttempts, now) => RequeueKeepsPlaced(s, id, maxAttempts, now);
    case DoForget(id) => ForgetKeepsPlaced(s, id);
    case DoLeave(_) =>
    case DoTick(_) =>
  }

  lemma StepOffEntryMisplaces(w: World, e: Event)
    requires WorldSound(w) && Placed(w.store) && Enabled(w, e) && EndsOffEntry(w, e)
    ensures !OnePlaceEach(Apply(w, e).store)
  {
    assert HandSound(w, e.worker);
    match e
    case DoComplete(worker) => EndOffEntryMisplaces(w.store, worker, w.hands[worker], "", 0, "");
    case DoRelease(worker, at, error) => ReleaseOffEntryMisplaces(w.store, worker, w.hands[worker], at, error);
    case DoFail(worker, error, now, failedAt) =>
      EndOffEntryMisplaces(w.store, worker, w.hands[worker], error, now, failedAt);
  }

  lemma {:induction false} RunsStayPlaced(r: Run, k: nat)
    requires IsRun(r) && k <= |r.events| && EndsOnEntry(r, k)
    ensures WorldSound(r.worlds[k]) && WorldPlaced(r.worlds[k])
  {
    RunsStaySound(r, k);
    if 0 < k {
      var w, e := r.worlds[k - 1], r.events[k - 1];
      RunsStayPlaced(r, k - 1);
      assert StepAt(r, k - 1);
      StepKeepsPlacedUnlessOffEntry(w, e);
      forall worker: string
        ensures Owned(r.worlds[k], worker)
      {
        StepKeepsOwned(w, e, worker);
      }
    }
  }

  ghost predicate OnePlaceThrough(r: Run, k: nat)
    requires k <= |r.events| < |r.worlds|
  {
    forall i | 0 <= i <= k :: OnePlaceEach(r.worlds[i].store)
  }

  /** As long as claims are ended on their entries, every job is in exactly one place, the one its hash
      names, no set or stream names a missing job, and no round finds a tombstone. */
  lemma EveryJobHasOnePlace(r: Run, k: nat)
    requires IsRun(r) && k <= |r.events| && EndsOnEntry(r, k)
    ensures var s := r.worlds[k].store;
            OnePlaceEach(s) && forall slot, now | slot in s.entries :: OutcomeOf(s, slot, now) != Tombstone
  {
    RunsStayPlaced(r, k);
    var s := r.worlds[k].store;
    PlacedMeansOnePlaceEach(s);
    forall slot, now: nat | slot in s.entries
      ensures OutcomeOf(s, slot, now) != Tombstone
    {
      assert EntryPlaced(s, slot);
    }
  }

  lemma {:induction false} EndingOffEntryShows(r: Run, k: nat)
    requires IsRun(r) && k <= |r.events| && !EndsOnEntry(r, k)
    ensures !OnePlaceThrough(r, k)
  {
    if EndsOnEntry(r, k - 1) {
      RunsStayPlaced(r, k - 1);
      assert StepAt(r, k - 1);
      StepOffEntryMisplaces(r.worlds[k - 1], r.events[k - 1]);
      assert !OnePlaceEach(r.worlds[k].store);
    } else {
      EndingOffEntryShows(r, k - 1);
    }
  }

  /** For every run, whatever the timeouts, clocks and parked jobs: its keyspaces keep every job in one
      place exactly as long as no claim is ended off its entry. A script could tell, by comparing the
      hash's `entry` with the one presented. */
  lemma OnePlaceIffEndsOnEntry(r: Run, k: nat)
    requires IsRun(r) && k <= |r.events|
    ensures OnePlaceThrough(r, k) <==> EndsOnEntry(r, k)
  {
    if EndsOnEntry(r, k) {
      forall i | 0 <= i <= k
        ensures OnePlaceEach(r.worlds[i].store)
      {
        EveryJobHasOnePlace(r, i);
      }
    } else {
      EndingOffEntryShows(r, k);
    }
  }

  /** As long as nothing is parked, every claim is ended on its entry. */
  lemma UnparkedRunsEndOnEntry(r: Run, k: nat)
    requires IsRun(r) && k <= |r.events| && Unparked(r, k)
    ensures EndsOnEntry(r, k)
  {
    forall i | 0 <= i < k
      ensures !EndsOffEntry(r.worlds[i], r.events[i])
    {
      UnparkedRunsStayTidy(r, i);
      var w, e := r.worlds[i], r.events[i];
      if EndsOffEntry(w, e) {
        assert HandTidy(w, e.worker);
        PlacedHandIsOwned(w.store, e.worker, w.hands[e.worker]);
      }
    }
  }
}
