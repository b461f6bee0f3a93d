/** When the runs of the Redis driver hand jobs out early: a claim never reads `available_at`, so what
    is due is decided by what the streams may hold. */
module RedisDue {
  import opened QueueLimits
  import opened Wrappers
  import opened RedisStore
  import opened RedisInvariant
  import opened RedisRuns
  import opened RedisPlacement

  /** A job that is not yet due is in no stream, and in the delayed set no earlier than it is due. */
  predicate OnTime(s: Store, id: nat, clock: int) {
    id in s.jobs && clock < 1000 * s.jobs[id].availableAt ==>
      && (forall slot | slot in s.entries :: s.entries[slot].job != id)
      && (forall d | d in s.delayed && d.1 == id :: s.jobs[id].availableAt <= s.delayed[d])
  }

  /** All that a worker sees of it: what is in a stream is due. */
  predicate StreamedWhenDue(s: Store, id: nat, clock: int) {
    id in s.jobs && (exists slot :: slot in s.entries && s.entries[slot].job == id) ==>
      1000 * s.jobs[id].availableAt <= clock
  }

  /** The step puts the job off to a later moment while an entry other than its claim's still names
      it. */
  predicate PutsOffStreamed(w: World, e: Event, id: nat) {
    && e.DoRelease? && e.worker in w.hands && w.hands[e.worker].id == id
    && Holds(w.store, e.worker, w.hands[e.worker]) && w.clock < 1000 * e.availableAt
    && exists slot | slot in w.store.entries ::
         slot != HeldSlot(w.store, w.hands[e.worker]) && w.store.entries[slot].job == id
  }

  lemma RegisterKeepsOnTime(s: Store, a: PushArgs, id: nat, clock: int)
    requires Sound(s) && OnTime(s, id, clock)
    ensures OnTime(Register(s, a), id, clock)
  {
    NewIdIsNamedNowhere(s, s.seqNo + 1);
  }

  lemma EnqueueKeepsOnTime(s: Store, queue: string, level: int, due: nat, id: nat, clock: int)
    requires OnTime(s, id, clock) && due in s.jobs && 1000 * s.jobs[due].availableAt <= clock
    ensures OnTime(Enqueue(s, queue, level, due), id, clock)
  {
  }

  lemma PushKeepsOnTime(s: Store, a: PushArgs, id: nat, clock: int)
    requires Sound(s) && OnTime(s, id, clock) && 1000 * a.now <= clock
    ensures OnTime(Push(s, a).0, id, clock)
  {
    if !KeyTaken(s, a.unique) {
      RegisterKeepsOnTime(s, a, id, clock);
      if a.availableAt <= a.now {
        EnqueueKeepsOnTime(Register(s, a), a.queue, a.priority, s.seqNo + 1, id, clock);
      }
    }
  }

  lemma PromoteKeepsOnTime(s: Store, queue: string, due: nat, now: nat, id: nat, clock: int)
    requires OnTime(s, id, clock) && 1000 * now <= clock
    requires (queue, due) in s.delayed && s.delayed[(queue, due)] <= now
    ensures OnTime(Promote(s, queue, due), id, clock)
  {
    assert (queue, due).1 == due;
  }

  /** A round changes no date, and delays only the job it looks at. */
  lemma VisitKeepsDate(s: Store, slot: Slot, clock: int, c: Caller, id: nat)
    requires slot in s.entries
    ensures var t := Visit(s, slot, clock, c).0;
            id in t.jobs ==> id in s.jobs && t.jobs[id].availableAt == s.jobs[id].availableAt
  {
    if OutcomeOf(s, slot, c.now) == Exhausted {
      BuryLeavesTheRest(Drop(Deliver(s, slot, clock), slot), s.entries[slot].job, EXHAUSTED_ERROR, c.now, c.failedAt);
    }
  }

  lemma VisitKeepsDelays(s: Store, slot: Slot, clock: int, c: Caller, id: nat)
    requires slot in s.entries && id != s.entries[slot].job
    ensures var t := Visit(s, slot, clock, c).0;
            forall d | d in t.delayed && d.1 == id :: d in s.delayed && t.delayed[d] == s.delayed[d]
  {
    if OutcomeOf(s, slot, c.now) == Exhausted {
      BuryLeavesTheRest(Drop(Deliver(s, slot, clock), slot), s.entries[slot].job, EXHAUSTED_ERROR, c.now, c.failedAt);
    }
  }

  lemma VisitKeepsOnTime(s: Store, slot: Slot, c: Caller, id: nat, clock: int)
    requires OnTime(s, id, clock) && slot in s.entries
    ensures OnTime(Visit(s, slot, clock, c).0, id, clock)
  {
    VisitShrinksStreams(s, slot, clock, c);
    VisitKeepsDate(s, slot, clock, c, id);
    if id != s.entries[slot].job {
      VisitKeepsDelays(s, slot, clock, c, id);
    }
  }

  lemma CompleteKeepsOnTime(s: Store, worker: string, h: Hand, id: nat, clock: int)
    requires OnTime(s, id, clock)
    ensures OnTime(Complete(s, worker, h), id, clock)
  {
  }

  lemma FailKeepsOnTime(s: Store, worker: string, h: Hand, error: string, now: nat, failedAt: string, id: nat,
                        clock: int)
    requires OnTime(s, id, clock)
    ensures OnTime(Fail(s, worker, h, error, now, failedAt), id, clock)
  {
  }

  lemma ReleaseKeepsOnTime(w: World, worker: string, availableAt: int, error: string, id: nat)
    requires WorldSound(w) && OnTime(w.store, id, w.clock) && worker in w.hands
    requires !PutsOffStreamed(w, DoRelease(worker, availableAt, error), id)
    ensures OnTime(Release(w.store, worker, w.hands[worker], availableAt, error), id, w.clock)
  {
    var s, h := w.store, w.hands[worker];
    assert HandSound(w, worker);
    if Holds(s, worker, h) {
      forall d | d in s.delayed && d.1 == h.id
        ensures d.0 == h.queue
      {
        assert DelaySound(s, d.0, d.1);
      }
    }
  }

  lemma RequeueKeepsOnTime(s: Store, failed: nat, maxAttempts: nat, now: nat, id: nat, clock: int)
    requires OnTime(s, id, clock) && 1000 * now <= clock
    ensures OnTime(Requeue(s, failed, maxAttempts, now).0, id, clock)
    ensures OnTime(Forget(s, failed).0, id, clock)
  {
  }

  lemma StepKeepsOnTime(w: World, e: Event, id: nat)
    requires WorldSound(w) && OnTime(w.store, id, w.clock) && Enabled(w, e) && !PutsOffStreamed(w, e, id)
    ensures OnTime(Apply(w, e).store, id, Apply(w, e).clock)
  {
    match e
    case DoPush(a) => PushKeepsOnTime(w.store, a, id, w.clock);
    case DoPromote(queue, due, now) => PromoteKeepsOnTime(w.store, queue, due, now, id, w.clock);
    case DoVisit(slot, c) => VisitKeepsOnTime(w.store, slot, c, id, w.clock);
    case DoComplete(worker) => CompleteKeepsOnTime(w.store, worker, w.hands[worker], id, w.clock);
    case DoRelease(worker, at, error) => ReleaseKeepsOnTime(w, worker, at, error, id);
    case DoFail(worker, error, now, failedAt) =>
      FailKeepsOnTime(w.store, worker, w.hands[worker], error, now, failedAt, id, w.clock);
    case DoRequeue(failed, maxAttempts, now) => RequeueKeepsOnTime(w.store, failed, maxAttempts, now, id, w.clock);
    case DoForget(failed) => RequeueKeepsOnTime(w.store, failed, 0, 0, id, w.clock);
    case DoLeave(_) =>
    case DoTick(_) =>
  }

  predicate NeverPutOffStreamed(r: Run, id: nat, k: nat)
    requires k <= |r.events| < |r.worlds|
  {
    forall i | 0 <= i < k :: !PutsOffStreamed(r.worlds[i], r.events[i], id)
  }

  lemma {:induction false} JobStaysOnTime(r: Run, id: nat, k: nat)
    requires IsRun(r) && k <= |r.events| && NeverPutOffStreamed(r, id, k)
    ensures OnTime(r.worlds[k].store, id, r.worlds[k].clock)
  {
    if 0 < k {
      JobStaysOnTime(r, id, k - 1);
      RunsStaySound(r, k - 1);
      assert StepAt(r, k - 1);
      StepKeepsOnTime(r.worlds[k - 1], r.events[k - 1], id);
    }
  }

  lemma PuttingOffLeavesItStreamed(w: World, e: Event, id: nat)
    requires Enabled(w, e) && PutsOffStreamed(w, e, id)
    ensures !StreamedWhenDue(Apply(w, e).store, id, Apply(w, e).clock)
  {
    var slot :| slot in w.store.entries && slot != HeldSlot(w.store, w.hands[e.worker])
                && w.store.entries[slot].job == id;
    assert slot in Apply(w, e).store.entries && Apply(w, e).store.entries[slot].job == id;
  }

  /** For every run and job: what a stream offers of it is due by the server's clock, although the
      claim branch never reads when that is, exactly as long as no release puts the job off while an
      entry other than the claim's still names it. */
  lemma StreamedWhenDueIff(r: Run, id: nat, k: nat)
    requires IsRun(r) && k <= |r.events|
    ensures (forall i | 0 <= i <= k :: StreamedWhenDue(r.worlds[i].store, id, r.worlds[i].clock))
            <==> NeverPutOffStreamed(r, id, k)
  {
    if NeverPutOffStreamed(r, id, k) {
      forall i | 0 <= i <= k
        ensures StreamedWhenDue(r.worlds[i].store, id, r.worlds[i].clock)
      {
        JobStaysOnTime(r, id, i);
      }
    } else {
      var i :| 0 <= i < k && PutsOffStreamed(r.worlds[i], r.events[i], id);
      assert StepAt(r, i);
      PuttingOffLeavesItStreamed(r.worlds[i], r.events[i], id);
      assert !StreamedWhenDue(r.worlds[i + 1].store, id, r.worlds[i + 1].clock);
    }
  }

  /** A claim ended on its entry leaves no other entry behind. */
  lemma EndingOnEntryPutsOffNothingStreamed(r: Run, id: nat, k: nat)
    requires IsRun(r) && k <= |r.events| && EndsOnEntry(r, k)
    ensures NeverPutOffStreamed(r, id, k)
  {
    forall i | 0 <= i < k
      ensures !PutsOffStreamed(r.worlds[i], r.events[i], id)
    {
      RunsStayPlaced(r, i);
      var w, e := r.worlds[i], r.events[i];
      if PutsOffStreamed(w, e, id) {
        assert HandSound(w, e.worker);
        JobHasOnePlace(w.store, id);
      }
    }
  }

  /** As long as claims are ended on their entries, parked jobs or not, no round finds a tombstone, and
      a job is only handed out once it is due by the server's clock. */
  lemma ClaimsAreDue(r: Run, k: nat)
    requires IsRun(r) && k < |r.events| && r.events[k].DoVisit? && EndsOnEntry(r, k)
    ensures var s, slot, now := r.worlds[k].store, r.events[k].slot, r.events[k].caller.now;
            && slot in s.entries && s.entries[slot].job in s.jobs && OutcomeOf(s, slot, now) != Tombstone
            && 1000 * s.jobs[s.entries[slot].job].availableAt <= r.worlds[k].clock
  {
    var s, slot := r.worlds[k].store, r.events[k].slot;
    assert StepAt(r, k);
    EveryJobHasOnePlace(r, k);
    EndingOnEntryPutsOffNothingStreamed(r, s.entries[slot].job, k);
    JobStaysOnTime(r, s.entries[slot].job, k);
  }
}
