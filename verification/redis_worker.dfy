/** The worker on the Redis driver: the life of a job by how its handler ends each time. */
module RedisWorker {
  import opened Wrappers
  import opened RedisStore
  import opened RedisInvariant
  import opened RedisRuns
  import opened RedisDue
  import opened RedisRefinement
  import opened Worker
  import Spec = QueueSpec
  import WorkerQueue

  /** A complete, release or fail of the job that takes effect. */
  predicate Concludes(w: World, e: Event, id: nat) {
    && (e.DoComplete? || e.DoRelease? || e.DoFail?)
    && e.worker in w.hands && w.hands[e.worker].id == id && Holds(w.store, e.worker, w.hands[e.worker])
  }

  predicate AsEnded(e: Event, hand: Hand, moment: int, outcome: Outcome, steps: Steps) {
    match CallFor(Ticket(hand.id, hand.attempts, hand.maxAttempts), outcome, steps)
    case Some(Fail(_)) => e.DoFail?
    case Some(Release(_, delay)) => e.DoRelease? && e.availableAt == moment + delay
    case Some(Delete(_)) => e.DoComplete?
    case None => false
  }

  /** The round looks at the job and, unless it is failed already, claims or buries it. */
  predicate Takes(w: World, e: Event, id: nat) {
    && e.DoVisit? && e.slot in w.store.entries && w.store.entries[e.slot].job == id && id in w.store.jobs
    && OutcomeOf(w.store, e.slot, e.caller.now) in {Claimed, Exhausted}
  }

  /** Step k concludes the job as its handler ended, and does not take it from an expired claim. */
  predicate HandledAt(r: Run, k: nat, id: nat, outcomes: nat -> Outcome, steps: Steps, moments: nat -> int)
    requires k < |r.events| < |r.worlds|
  {
    var w, e := r.worlds[k], r.events[k];
    && (Concludes(w, e, id) ==> AsEnded(e, w.hands[e.worker], moments(k), outcomes(k), steps))
    && (Takes(w, e, id) ==> w.store.jobs[id].reservedBy == "")
  }

  /** Whatever ends a claim of job `id` is what the worker calls for, and none of its claims runs out
      before. */
  ghost predicate AlwaysHandled(r: Run, id: nat, outcomes: nat -> Outcome, steps: Steps, moments: nat -> int) {
    IsRun(r) && forall k | 0 <= k < |r.events| :: HandledAt(r, k, id, outcomes, steps, moments)
  }

  ghost predicate AlwaysRaises(r: Run, id: nat, steps: Steps, moments: nat -> int) {
    AlwaysHandled(r, id, WorkerQueue.RAISES, steps, moments)
  }

  lemma ConcludesMeans(r: Run, k: nat, id: nat)
    requires IsRun(r) && k < |r.events|
    ensures WorkerQueue.Concludes(AbsRun(r), k, id) <==> Concludes(r.worlds[k], r.events[k], id)
    ensures Concludes(r.worlds[k], r.events[k], id) ==>
              AbsHand(r.worlds[k].hands[r.events[k].worker]) == AbsWorldAt(r, k).hands[r.events[k].worker]
  {
    assert StepAt(r, k) && AbsRun(r).events[k] == AbsEventAt(r, k) && AbsRun(r).worlds[k] == AbsWorldAt(r, k);
    WorldsStayRelated(r, k);
    var e := r.events[k];
    if (e.DoComplete? || e.DoRelease? || e.DoFail?) && e.worker in r.worlds[k].hands {
      HoldsMeansEffective(r.worlds[k], AbsWorldAt(r, k), e.worker);
      assert HandRelated(r.worlds[k], AbsWorldAt(r, k), e.worker);
    }
  }

  lemma HandledAbstractlyAt(r: Run, k: nat, id: nat, outcomes: nat -> Outcome, steps: Steps, moments: nat -> int)
    requires IsRun(r) && k < |r.events| && HandledAt(r, k, id, outcomes, steps, moments)
    ensures WorkerQueue.HandledAt(AbsRun(r), k, id, outcomes, steps, moments)
  {
    ConcludesMeans(r, k, id);
    assert StepAt(r, k) && AbsRun(r).events[k] == AbsEventAt(r, k) && AbsRun(r).worlds[k] == AbsWorldAt(r, k);
    WorldsStayRelated(r, k);
    assert JobRelated(r.worlds[k].store, AbsWorldAt(r, k), id);
  }

  lemma HandledAbstractly(r: Run, id: nat, outcomes: nat -> Outcome, steps: Steps, moments: nat -> int)
    requires AlwaysHandled(r, id, outcomes, steps, moments)
    ensures WorkerQueue.AlwaysHandled(AbsRun(r), id, outcomes, steps, moments)
  {
    RunRefines(r);
    forall k | 0 <= k < |r.events|
      ensures WorkerQueue.HandledAt(AbsRun(r), k, id, outcomes, steps, moments)
    {
      HandledAbstractlyAt(r, k, id, outcomes, steps, moments);
    }
  }

  predicate Live(s: Store, id: nat) {
    id in s.jobs && id !in s.failed
  }

  lemma LiveMeans(r: Run, k: nat, id: nat)
    requires IsRun(r) && k <= |r.events|
    ensures Live(r.worlds[k].store, id) <==> id in AbsRun(r).worlds[k].live
    ensures Live(r.worlds[k].store, id) ==> AbsRun(r).worlds[k].live[id] == AbsJob(r.worlds[k].store.jobs[id])
  {
    assert AbsRun(r).worlds[k] == AbsWorldAt(r, k);
    WorldsStayRelated(r, k);
    assert JobRelated(r.worlds[k].store, AbsWorldAt(r, k), id);
  }

  /////////////////////////////////
  /// What each ending comes to
  /////////////////////////////////

  /** The job is back on the queue: unheld, with the attempts it had, and not before the given date. */
  predicate BackOnQueue(s: Store, id: nat, attempts: nat, availableAt: int) {
    && Live(s, id) && s.jobs[id].reservedBy == "" && s.jobs[id].reservedUntil == 0
    && s.jobs[id].attempts == attempts && s.jobs[id].availableAt == availableAt
  }

  /** As `WorkerQueue.EndingDecidesWhatBecomesOfTheJob`, on the keys: a handler that returns has its hash
      deleted, and only one that raises on the last attempt gets it into the failed set. */
  lemma EndingDecidesWhatBecomesOfTheJob(w: World, e: Event, id: nat, outcome: Outcome, steps: Steps, moment: int)
    requires WorldSound(w) && Enabled(w, e) && Concludes(w, e, id)
    requires AsEnded(e, w.hands[e.worker], moment, outcome, steps)
    ensures var job, s := w.store.jobs[id], Apply(w, e).store;
            match outcome.ending
            case Returned =>
              if outcome.releases == [] then id !in s.jobs && id !in s.failed
              else BackOnQueue(s, id, job.attempts, moment + Max(0, outcome.releases[|outcome.releases| - 1]))
            case Cancelled => BackOnQueue(s, id, job.attempts, moment)
            case Raised =>
              if job.attempts < job.maxAttempts then
                BackOnQueue(s, id, job.attempts, moment + Backoff(job.attempts, steps))
              else id in s.jobs && id in s.failed
            case Exited => false
  {
    assert HandSound(w, e.worker) && JobSound(w.store, id);
  }

  lemma {:induction false} GoneJobsStayGone(r: Run, id: nat, k: nat, m: nat)
    requires IsRun(r) && k <= m <= |r.events| && id <= r.worlds[k].store.seqNo && id !in r.worlds[k].store.jobs
    ensures id !in r.worlds[m].store.jobs && id !in r.worlds[m].store.failed
    ensures id <= r.worlds[m].store.seqNo
    decreases m
  {
    RunsStaySound(r, m);
    assert FailedSound(r.worlds[m].store, id);
    if k < m {
      GoneJobsStayGone(r, id, k, m - 1);
      assert StepAt(r, m - 1);
      NumbersOnlyGrow(r.worlds[m - 1], r.events[m - 1]);
      NoJobComesBack(r.worlds[m - 1], r.events[m - 1], id);
    }
  }

  lemma EndCountsOn(s: Store, worker: string, h: Hand, availableAt: int, error: string, now: nat, failedAt: string)
    ensures RedisStore.Complete(s, worker, h).seqNo == s.seqNo
            && RedisStore.Release(s, worker, h, availableAt, error).seqNo == s.seqNo
    ensures RedisStore.Fail(s, worker, h, error, now, failedAt).seqNo == s.seqNo
  {
  }

  lemma NumbersOnlyGrow(w: World, e: Event)
    requires Enabled(w, e)
    ensures w.store.seqNo <= Apply(w, e).store.seqNo
  {
    match e
    case DoComplete(worker) => EndCountsOn(w.store, worker, w.hands[worker], 0, "", 0, "");
    case DoRelease(worker, at, error) => EndCountsOn(w.store, worker, w.hands[worker], at, error, 0, "");
    case DoFail(worker, error, now, failedAt) => EndCountsOn(w.store, worker, w.hands[worker], 0, error, now, failedAt);
    case _ =>
  }

  lemma EndBringsNoJobBack(s: Store, worker: string, h: Hand, availableAt: int, error: string, now: nat,
                           failedAt: string, id: nat)
    requires id !in s.jobs
    ensures id !in RedisStore.Complete(s, worker, h).jobs
            && id !in RedisStore.Release(s, worker, h, availableAt, error).jobs
    ensures id !in RedisStore.Fail(s, worker, h, error, now, failedAt).jobs
  {
  }

  lemma NoJobComesBack(w: World, e: Event, id: nat)
    requires Enabled(w, e) && id <= w.store.seqNo && id !in w.store.jobs
    ensures id !in Apply(w, e).store.jobs
  {
    match e
    case DoVisit(slot, c) => VisitKeepsDate(w.store, slot, w.clock, c, id);
    case DoComplete(worker) => EndBringsNoJobBack(w.store, worker, w.hands[worker], 0, "", 0, "", id);
    case DoRelease(worker, at, error) => EndBringsNoJobBack(w.store, worker, w.hands[worker], at, error, 0, "", id);
    case DoFail(worker, error, now, failedAt) =>
      EndBringsNoJobBack(w.store, worker, w.hands[worker], 0, error, now, failedAt, id);
    case _ =>
  }

  /** A job whose handler returned is done with: from then on it is in no keyspace, failed or not. */
  lemma ReturnedJobsNeverFail(r: Run, id: nat, k: nat, m: nat, outcome: Outcome, steps: Steps, moment: int)
    requires IsRun(r) && k < m <= |r.events| && Concludes(r.worlds[k], r.events[k], id)
    requires AsEnded(r.events[k], r.worlds[k].hands[r.events[k].worker], moment, outcome, steps)
    requires outcome.ending.Returned? && outcome.releases == []
    ensures r.events[k].DoComplete? && id !in r.worlds[m].store.jobs && id !in r.worlds[m].store.failed
  {
    RunsStaySound(r, k);
    assert StepAt(r, k) && JobSound(r.worlds[k].store, id);
    EndingDecidesWhatBecomesOfTheJob(r.worlds[k], r.events[k], id, outcome, steps, moment);
    GoneJobsStayGone(r, id, k + 1, m);
  }

  /////////////////////////////////
  /// How a job leaves
  /////////////////////////////////

  /** Step i put the job back after its attempt of that number, as its handler had ended. */
  predicate GivesBack(r: Run, i: int, id: nat, attempt: nat, outcomes: nat -> Outcome, steps: Steps,
                      moments: nat -> int) {
    && 0 <= i < |r.events| && i < |r.worlds| && r.events[i].DoRelease? && Concludes(r.worlds[i], r.events[i], id)
    && r.worlds[i].hands[r.events[i].worker].attempts == attempt
    && AsEnded(r.events[i], r.worlds[i].hands[r.events[i].worker], moments(i), outcomes(i), steps)
  }

  lemma PutBackMeans(r: Run, i: nat, id: nat, attempt: nat, outcomes: nat -> Outcome, steps: Steps,
                     moments: nat -> int, availableAt: int)
    requires IsRun(r) && i < |r.events|
    requires WorkerQueue.PutBack(AbsRun(r), i, id, attempt, outcomes, steps, moments, availableAt)
    ensures GivesBack(r, i, id, attempt, outcomes, steps, moments) && r.events[i].availableAt == availableAt
  {
    ConcludesMeans(r, i, id);
    assert StepAt(r, i) && AbsRun(r).events[i] == AbsEventAt(r, i) && AbsRun(r).worlds[i] == AbsWorldAt(r, i);
  }

  lemma LeavingStepMeans(r: Run, k: nat, id: nat)
    requires IsRun(r) && k < |r.events|
    ensures AbsEventAt(r, k).Complete? <==> r.events[k].DoComplete?
    ensures AbsEventAt(r, k).Fail? ==> r.events[k].DoFail?
    ensures AbsEventAt(r, k).Exhaust? && AbsEventAt(r, k).id == id ==>
              Takes(r.worlds[k], r.events[k], id)
              && OutcomeOf(r.worlds[k].store, r.events[k].slot, r.events[k].caller.now) == Exhausted
    ensures AbsRun(r).events[k] == AbsEventAt(r, k) && AbsRun(r).worlds[k] == AbsWorldAt(r, k)
  {
    assert StepAt(r, k);
  }

  /** On Redis, when none of its claims runs out, a job leaves the queue completed because its handler
      returned, failed because it raised on the last attempt, or buried by a later reserve because the
      last attempt was cancelled or gave the job back itself. */
  lemma HowAJobLeaves(r: Run, id: nat, k: nat, outcomes: nat -> Outcome, steps: Steps, moments: nat -> int)
    requires AlwaysHandled(r, id, outcomes, steps, moments) && k < |r.events|
    requires Live(r.worlds[k].store, id) && !Live(r.worlds[k + 1].store, id)
    ensures var job, w, e := r.worlds[k].store.jobs[id], r.worlds[k], r.events[k];
            || (e.DoComplete? && Concludes(w, e, id) && outcomes(k).ending.Returned? && outcomes(k).releases == [])
            || (e.DoFail? && Concludes(w, e, id) && outcomes(k).ending.Raised? && job.attempts == job.maxAttempts)
            || (Takes(w, e, id) && OutcomeOf(w.store, e.slot, e.caller.now) == Exhausted
                && job.attempts == job.maxAttempts
                && exists i | 0 <= i < k ::
                     && GivesBack(r, i, id, job.attempts, outcomes, steps, moments)
                     && (outcomes(i).ending.Cancelled?
                         || (outcomes(i).ending.Returned? && outcomes(i).releases != [])))
  {
    HandledAbstractly(r, id, outcomes, steps, moments);
    LiveMeans(r, k, id);
    LiveMeans(r, k + 1, id);
    WorkerQueue.HowAJobLeaves(AbsRun(r), id, k, outcomes, steps, moments);
    ConcludesMeans(r, k, id);
    LeavingStepMeans(r, k, id);
    var job := AbsRun(r).worlds[k].live[id];
    if AbsEventAt(r, k).Exhaust? {
      var i :| 0 <= i < k
               && WorkerQueue.PutBack(AbsRun(r), i, id, job.attempts, outcomes, steps, moments, job.availableAt)
               && (outcomes(i).ending.Cancelled? || (outcomes(i).ending.Returned? && outcomes(i).releases != []));
      PutBackMeans(r, i, id, job.attempts, outcomes, steps, moments, job.availableAt);
    }
  }

  /** A job whose handler always raises leaves the queue by its worker's own `fail`, into the failed set,
      after it was handed out exactly as often as its budget says. */
  lemma FailsAfterExactlyItsBudget(r: Run, id: nat, k: nat, steps: Steps, moments: nat -> int)
    requires AlwaysRaises(r, id, steps, moments) && k < |r.events|
    requires Live(r.worlds[k].store, id) && !Live(r.worlds[k + 1].store, id)
    ensures r.events[k].DoFail? && Concludes(r.worlds[k], r.events[k], id) && id in r.worlds[k + 1].store.failed
    ensures Spec.ClaimsSinceQueued(AbsRun(r), id, k) == r.worlds[k].store.jobs[id].maxAttempts
  {
    HowAJobLeaves(r, id, k, WorkerQueue.RAISES, steps, moments);
    RunRefines(r);
    LiveMeans(r, k, id);
    Spec.AttemptsCountClaims(AbsRun(r), id, k);
    assert StepAt(r, k);
  }

  /** As long as the job is not put off while a second entry names it, attempt n + 1 is handed out no
      sooner than the backoff of n after attempt n was put back. */
  lemma AttemptsWaitOutTheirBackoff(r: Run, id: nat, k: nat, steps: Steps, moments: nat -> int) returns (i: nat)
    requires AlwaysRaises(r, id, steps, moments) && ClaimsJob(r, k, id) && NeverPutOffStreamed(r, id, k)
    requires Live(r.worlds[k].store, id) && 0 < r.worlds[k].store.jobs[id].attempts
    ensures i < k && r.events[i].DoRelease? && Concludes(r.worlds[i], r.events[i], id)
    ensures var n := r.worlds[k].store.jobs[id].attempts;
            && r.worlds[i].hands[r.events[i].worker].attempts == n
            && 1000 * (moments(i) + Backoff(n, steps)) <= r.worlds[k].clock
  {
    HandledAbstractly(r, id, WorkerQueue.RAISES, steps, moments);
    HandedOutWithinBudget(r, k, id);
    LiveMeans(r, k, id);
    assert StepAt(r, k) && AbsRun(r).events[k] == AbsEventAt(r, k);
    var n := r.worlds[k].store.jobs[id].attempts;
    i := WorkerQueue.AttemptsWaitForTheirDate(AbsRun(r), id, k, WorkerQueue.RAISES, steps, moments);
    PutBackMeans(r, i, id, n, WorkerQueue.RAISES, steps, moments, r.worlds[k].store.jobs[id].availableAt);
    JobStaysOnTime(r, id, k);
  }
}
