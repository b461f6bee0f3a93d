/** What a job's hash says of its errors. */
module RedisReasons {
  import opened QueueLimits
  import opened Wrappers
  import opened RedisStore
  import opened RedisInvariant
  import opened RedisRuns

  /** What is written of a job when it fails. */
  datatype Reason = Reason(error: string, failedAt: string, score: int)

  function ReasonOf(s: Store, id: nat): Reason
    requires id in s.jobs && id in s.failed
  {
    Reason(s.jobs[id].error, s.jobs[id].failedAt, s.failed[id])
  }

  /** The step moves the job to the failed set, for this reason. */
  predicate FailsWith(w: World, e: Event, id: nat, why: Reason) {
    || (e.DoFail? && e.worker in w.hands && w.hands[e.worker].id == id
        && Holds(w.store, e.worker, w.hands[e.worker])
        && why.error == e.error && why.failedAt == e.failedAt && why.score == e.now)
    || (e.DoVisit? && e.slot in w.store.entries && w.store.entries[e.slot].job == id
        && OutcomeOf(w.store, e.slot, e.caller.now) == Exhausted
        && why.error == EXHAUSTED_ERROR && why.failedAt == e.caller.failedAt && why.score == e.caller.now)
  }

  /** The job was failed before the step, for the same reason. */
  predicate FailedBefore(s: Store, t: Store, id: nat) {
    id in s.jobs && id in s.failed && id in t.jobs && id in t.failed && ReasonOf(s, id) == ReasonOf(t, id)
  }

  lemma ExhaustGivesItsReason(w: World, slot: Slot, c: Caller, id: nat)
    requires slot in w.store.entries && OutcomeOf(w.store, slot, c.now) == Exhausted
    requires var t := Visit(w.store, slot, w.clock, c).0; id in t.jobs && id in t.failed
    ensures var t := Visit(w.store, slot, w.clock, c).0;
            FailsWith(w, DoVisit(slot, c), id, ReasonOf(t, id)) || FailedBefore(w.store, t, id)
  {
  }

  lemma OtherRoundsKeepReasons(s: Store, slot: Slot, clock: int, c: Caller, id: nat)
    requires Sound(s) && slot in s.entries && OutcomeOf(s, slot, c.now) != Exhausted
    requires var t := Visit(s, slot, clock, c).0; id in t.jobs && id in t.failed
    ensures FailedBefore(s, Visit(s, slot, clock, c).0, id)
  {
    assert JobSound(s, id);
  }

  lemma VisitGivesItsReason(w: World, slot: Slot, c: Caller, id: nat)
    requires Sound(w.store) && slot in w.store.entries
    requires var t := Visit(w.store, slot, w.clock, c).0; id in t.jobs && id in t.failed
    ensures var t := Visit(w.store, slot, w.clock, c).0;
            FailsWith(w, DoVisit(slot, c), id, ReasonOf(t, id)) || FailedBefore(w.store, t, id)
  {
    if OutcomeOf(w.store, slot, c.now) == Exhausted {
      ExhaustGivesItsReason(w, slot, c, id);
    } else {
      OtherRoundsKeepReasons(w.store, slot, w.clock, c, id);
    }
  }

  lemma FailGivesItsReason(w: World, worker: string, error: string, now: nat, failedAt: string, id: nat)
    requires Sound(w.store) && worker in w.hands && worker != ""
    requires var t := Fail(w.store, worker, w.hands[worker], error, now, failedAt); id in t.jobs && id in t.failed
    ensures var t := Fail(w.store, worker, w.hands[worker], error, now, failedAt);
            || FailsWith(w, DoFail(worker, error, now, failedAt), id, ReasonOf(t, id))
            || FailedBefore(w.store, t, id)
  {
  }

  lemma EndKeepsReasons(w: World, worker: string, availableAt: int, error: string, id: nat)
    requires Sound(w.store) && worker in w.hands && worker != ""
    ensures var t := Complete(w.store, worker, w.hands[worker]);
            id in t.jobs && id in t.failed ==> FailedBefore(w.store, t, id)
    ensures var t := Release(w.store, worker, w.hands[worker], availableAt, error);
            id in t.jobs && id in t.failed ==> FailedBefore(w.store, t, id)
  {
    assert JobSound(w.store, id);
  }

  lemma PushKeepsReasons(s: Store, a: PushArgs, id: nat)
    requires Sound(s) && id in Push(s, a).0.jobs && id in Push(s, a).0.failed
    ensures FailedBefore(s, Push(s, a).0, id)
  {
    NewIdIsNamedNowhere(s, s.seqNo + 1);
  }

  lemma StepGivesOrKeepsReason(w: World, e: Event, id: nat)
    requires WorldSound(w) && Enabled(w, e) && id in Apply(w, e).store.jobs && id in Apply(w, e).store.failed
    ensures FailsWith(w, e, id, ReasonOf(Apply(w, e).store, id)) || FailedBefore(w.store, Apply(w, e).store, id)
  {
    match e
    case DoPush(a) => PushKeepsReasons(w.store, a, id);
    case DoVisit(slot, c) => VisitGivesItsReason(w, slot, c, id);
    case DoComplete(worker) => assert HandSound(w, worker); EndKeepsReasons(w, worker, 0, "", id);
    case DoRelease(worker, at, error) => assert HandSound(w, worker); EndKeepsReasons(w, worker, at, error, id);
    case DoFail(worker, error, now, failedAt) =>
      assert HandSound(w, worker);
      FailGivesItsReason(w, worker, error, now, failedAt, id);
    case _ =>
  }

  /** A failed job says why: its hash names the error and the stamp of the newest step that failed it, a
      worker's `fail` or a reserve that found it out of attempts, and the failed set its second. */
  lemma {:induction false} FailedJobsSayWhy(r: Run, k: nat, id: nat) returns (i: nat)
    requires IsRun(r) && k <= |r.events| && id in r.worlds[k].store.failed
    ensures id in r.worlds[k].store.jobs && i < k
    ensures FailsWith(r.worlds[i], r.events[i], id, ReasonOf(r.worlds[k].store, id))
    decreases k
  {
    RunsStaySound(r, k);
    assert FailedSound(r.worlds[k].store, id);
    assert 0 < k;
    RunsStaySound(r, k - 1);
    assert StepAt(r, k - 1);
    StepGivesOrKeepsReason(r.worlds[k - 1], r.events[k - 1], id);
    if FailsWith(r.worlds[k - 1], r.events[k - 1], id, ReasonOf(r.worlds[k].store, id)) {
      i := k - 1;
    } else {
      i := FailedJobsSayWhy(r, k - 1, id);
    }
  }

  /////////////////////////////////
  /// The last error
  /////////////////////////////////

  predicate Releases(w: World, e: Event, id: nat) {
    && e.DoRelease? && e.worker in w.hands && w.hands[e.worker].id == id
    && Holds(w.store, e.worker, w.hands[e.worker])
  }

  predicate Requeues(w: World, e: Event, id: nat) {
    e.DoRequeue? && e.id == id && id in w.store.failed && id in w.store.jobs
  }

  /** The error of the newest release of the job since it was last queued. */
  function LastErrorOf(r: Run, id: nat, k: nat): string
    requires k <= |r.events| < |r.worlds|
  {
    if k == 0 then ""
    else
      var w, e := r.worlds[k - 1], r.events[k - 1];
      if Releases(w, e, id) then e.error
      else if id !in w.store.jobs || Requeues(w, e, id) then ""
      else LastErrorOf(r, id, k - 1)
  }

  predicate SameLastError(s: Store, t: Store, id: nat) {
    id in t.jobs ==> if id in s.jobs then t.jobs[id].lastError == s.jobs[id].lastError else t.jobs[id].lastError == ""
  }

  lemma PushStartsClean(s: Store, a: PushArgs, id: nat)
    requires Sound(s)
    ensures SameLastError(s, Push(s, a).0, id)
  {
    assert JobSound(s, id);
  }

  lemma ReleaseRecordsItsError(w: World, worker: string, availableAt: int, error: string, id: nat)
    requires worker in w.hands
    ensures var t := Release(w.store, worker, w.hands[worker], availableAt, error);
            if Releases(w, DoRelease(worker, availableAt, error), id) then id in t.jobs && t.jobs[id].lastError == error
            else SameLastError(w.store, t, id)
  {
  }

  lemma BuryKeepsLastError(s: Store, buried: nat, error: string, now: nat, failedAt: string, id: nat)
    requires buried in s.jobs
    ensures SameLastError(s, Bury(s, buried, error, now, failedAt), id)
  {
  }

  lemma VisitKeepsLastError(s: Store, slot: Slot, clock: int, c: Caller, id: nat)
    requires slot in s.entries
    ensures SameLastError(s, Visit(s, slot, clock, c).0, id)
  {
    if OutcomeOf(s, slot, c.now) == Exhausted {
      BuryKeepsLastError(Drop(Deliver(s, slot, clock), slot), s.entries[slot].job, EXHAUSTED_ERROR, c.now, c.failedAt,
        id);
    }
  }

  lemma FailKeepsLastError(s: Store, worker: string, h: Hand, error: string, now: nat, failedAt: string, id: nat)
    ensures SameLastError(s, Fail(s, worker, h, error, now, failedAt), id)
    ensures SameLastError(s, Complete(s, worker, h), id)
  {
  }

  lemma RequeueClearsErrors(s: Store, failed: nat, maxAttempts: nat, now: nat, id: nat)
    ensures var t := Requeue(s, failed, maxAttempts, now).0;
            if id == failed && id in s.failed && id in s.jobs then
              t.jobs[id].lastError == t.jobs[id].error == t.jobs[id].failedAt == ""
            else SameLastError(s, t, id)
  {
  }

  lemma StepKeepsLastError(w: World, e: Event, id: nat)
    requires WorldSound(w) && Enabled(w, e) && id in Apply(w, e).store.jobs
    ensures Apply(w, e).store.jobs[id].lastError
         == if Releases(w, e, id) then e.error
            else if id !in w.store.jobs || Requeues(w, e, id) then "" else w.store.jobs[id].lastError
  {
    match e
    case DoPush(a) => PushStartsClean(w.store, a, id);
    case DoRelease(worker, at, error) => ReleaseRecordsItsError(w, worker, at, error, id);
    case DoVisit(slot, c) => VisitKeepsLastError(w.store, slot, w.clock, c, id);
    case DoComplete(worker) => FailKeepsLastError(w.store, worker, w.hands[worker], "", 0, "", id);
    case DoFail(worker, error, now, failedAt) =>
      FailKeepsLastError(w.store, worker, w.hands[worker], error, now, failedAt, id);
    case DoRequeue(failed, maxAttempts, now) => RequeueClearsErrors(w.store, failed, maxAttempts, now, id);
    case _ =>
  }

  /** `last_error` is the error the newest release brought, and a retry clears it. */
  lemma {:induction false} LastErrorIsTheNewestReleases(r: Run, id: nat, k: nat)
    requires IsRun(r) && k <= |r.events| && id in r.worlds[k].store.jobs
    ensures r.worlds[k].store.jobs[id].lastError == LastErrorOf(r, id, k)
    decreases k
  {
    assert 0 < k;
    RunsStaySound(r, k - 1);
    assert StepAt(r, k - 1);
    StepKeepsLastError(r.worlds[k - 1], r.events[k - 1], id);
    if id in r.worlds[k - 1].store.jobs {
      LastErrorIsTheNewestReleases(r, id, k - 1);
    }
  }
}
