/** The worker on the Postgres driver: the life of a job by how its handler ends each time. */
module PgWorker {
  import opened Wrappers
  import opened PgStore
  import opened PgRuns
  import opened PgRefinement
  import opened Worker
  import Spec = QueueSpec
  import WorkerQueue

  /** A delete, release or fail of the job that takes effect. */
  predicate Concludes(w: World, e: Event, id: nat) {
    (e.DoDelete? || e.DoRelease? || e.DoFail?) && HandHolds(w, e.worker) && w.hands[e.worker].id == id
  }

  predicate AsEnded(e: Event, hand: Hand, moment: int, outcome: Outcome, steps: Steps) {
    match CallFor(Ticket(hand.id, hand.attempts, hand.maxAttempts), outcome, steps)
    case Some(Fail(_)) => e.DoFail?
    case Some(Release(_, delay)) => e.DoRelease? && e.availableAt == moment + delay
    case Some(Delete(_)) => e.DoDelete?
    case None => false
  }

  /** The second statement of a reserve claims or buries the job. */
  predicate Takes(w: World, e: Event, id: nat) {
    && e.DoTake? && e.worker in w.looks && w.looks[e.worker].id == id && id in w.db.rows
    && (TakeClaims(w, e.worker) || TakeBuries(w, e.worker))
  }

  /** Step k concludes the job as its handler ended, and does not take it from an expired claim. */
  predicate HandledAt(r: Run, k: nat, id: nat, outcomes: nat -> Outcome, steps: Steps, moments: nat -> int)
    requires k < |r.events| < |r.worlds|
  {
    var w, e := r.worlds[k], r.events[k];
    && (Concludes(w, e, id) ==> AsEnded(e, w.hands[e.worker], moments(k), outcomes(k), steps))
    && (Takes(w, e, id) ==> w.db.rows[id].reservedBy.None?)
  }

  /** Whatever ends a claim of job `id` is what the worker calls for, and none of its claims runs out
      before. */
  ghost predicate AlwaysHandled(r: Run, id: nat, outcomes: nat -> Outcome, steps: Steps, moments: nat -> int) {
    IsRun(r) && r.locking && forall k | 0 <= k < |r.events| :: HandledAt(r, k, id, outcomes, steps, moments)
  }

  ghost predicate AlwaysRaises(r: Run, id: nat, steps: Steps, moments: nat -> int) {
    AlwaysHandled(r, id, WorkerQueue.RAISES, steps, moments)
  }

  lemma ConcludesMeans(r: Run, k: nat, id: nat)
    requires IsRun(r) && k < |r.events|
    ensures WorkerQueue.Concludes(AbsRun(r), k, id) <==> Concludes(r.worlds[k], r.events[k], id)
    ensures Concludes(r.worlds[k], r.events[k], id) ==>
              AbsHand(r.worlds[k].hands[r.events[k].worker]) == AbsWorldAt(r, k).hands[r.events[k].worker]
  {
    assert StepAt(r, k) && AbsRun(r).events[k] == AbsEventAt(r, k) && AbsRun(r).worlds[k] == AbsWorldAt(r, k);
    WorldsStayRelated(r, k);
    var e := r.events[k];
    if (e.DoDelete? || e.DoRelease? || e.DoFail?) && e.worker in r.worlds[k].hands {
      HoldsMeansEffective(r.worlds[k], AbsWorldAt(r, k), e.worker);
      assert HandRelated(r.worlds[k], AbsWorldAt(r, k), e.worker);
    }
  }

  lemma HandledAbstractlyAt(r: Run, k: nat, id: nat, outcomes: nat -> Outcome, steps: Steps, moments: nat -> int)
    requires IsRun(r) && k < |r.events| && HandledAt(r, k, id, outcomes, steps, moments)
    ensures WorkerQueue.HandledAt(AbsRun(r), k, id, outcomes, steps, moments)
  {
    ConcludesMeans(r, k, id);
    assert StepAt(r, k) && AbsRun(r).events[k] == AbsEventAt(r, k) && AbsRun(r).worlds[k] == AbsWorldAt(r, k);
    WorldsStayRelated(r, k);
    assert RowRelated(r.worlds[k].db, AbsWorldAt(r, k), id);
  }

  lemma HandledAbstractly(r: Run, id: nat, outcomes: nat -> Outcome, steps: Steps, moments: nat -> int)
    requires AlwaysHandled(r, id, outcomes, steps, moments)
    ensures WorkerQueue.AlwaysHandled(AbsRun(r), id, outcomes, steps, moments)
  {
    RunRefines(r);
    forall k | 0 <= k < |r.events|
      ensures WorkerQueue.HandledAt(AbsRun(r), k, id, outcomes, steps, moments)
    {
      HandledAbstractlyAt(r, k, id, outcomes, steps, moments);
    }
  }

  lemma LiveMeans(r: Run, k: nat, id: nat)
    requires IsRun(r) && k <= |r.events|
    ensures id in r.worlds[k].db.rows <==> id in AbsRun(r).worlds[k].live
    ensures id in r.worlds[k].db.rows ==> AbsRun(r).worlds[k].live[id] == AbsJob(r.worlds[k].db.rows[id])
  {
    assert AbsRun(r).worlds[k] == AbsWorldAt(r, k);
    WorldsStayRelated(r, k);
    assert RowRelated(r.worlds[k].db, AbsWorldAt(r, k), id);
  }

  /////////////////////////////////
  /// What each ending comes to
  /////////////////////////////////

  /** The row is back on the queue: unheld, with the attempts it had, and not before the given date. */
  predicate BackOnQueue(db: Db, id: nat, attempts: nat, availableAt: int) {
    && id in db.rows && db.rows[id].reservedBy.None? && db.rows[id].reservedUntil.None?
    && db.rows[id].attempts == attempts && db.rows[id].availableAt == availableAt
  }

  /** As `WorkerQueue.EndingDecidesWhatBecomesOfTheJob`, on the tables: a handler that returns has its row
      deleted, and only one that raises on the last attempt gets it into the failed table, with the error
      and the date it brings. */
  lemma EndingDecidesWhatBecomesOfTheJob(w: World, e: Event, locking: bool, id: nat, outcome: Outcome, steps: Steps,
                                         moment: int)
    requires WorldSound(w) && Enabled(w, e, locking) && Concludes(w, e, id)
    requires AsEnded(e, w.hands[e.worker], moment, outcome, steps)
    ensures var row, v := w.db.rows[id], Apply(w, e, locking);
            match outcome.ending
            case Returned =>
              if outcome.releases == [] then id !in v.db.rows && id in v.completed && v.db.failed == w.db.failed
              else BackOnQueue(v.db, id, row.attempts, moment + Max(0, outcome.releases[|outcome.releases| - 1]))
            case Cancelled => BackOnQueue(v.db, id, row.attempts, moment)
            case Raised =>
              if row.attempts < row.maxAttempts then
                BackOnQueue(v.db, id, row.attempts, moment + Backoff(row.attempts, steps))
              else
                && id !in v.db.rows && id in v.moved
                && v.db.failed == w.db.failed[w.db.nextFailed :=
                                                FailedRow(row.queue, row.name, row.payload, row.attempts, e.error,
                                                  e.failedAt)]
            case Exited => false
  {
    assert HandSound(w, e.worker);
  }

  lemma {:induction false} CompletedStaysCompleted(r: Run, id: nat, k: nat, m: nat)
    requires IsRun(r) && k <= m <= |r.events| && id in r.worlds[k].completed
    ensures id in r.worlds[m].completed
    decreases m
  {
    if k < m {
      CompletedStaysCompleted(r, id, k, m - 1);
      assert StepAt(r, m - 1);
    }
  }

  /** A job whose handler returned is done with: from then on it is in no table, and was never moved to
      the failed one. */
  lemma ReturnedJobsNeverFail(r: Run, id: nat, k: nat, m: nat, outcome: Outcome, steps: Steps, moment: int)
    requires IsRun(r) && k < m <= |r.events| && Concludes(r.worlds[k], r.events[k], id)
    requires AsEnded(r.events[k], r.worlds[k].hands[r.events[k].worker], moment, outcome, steps)
    requires outcome.ending.Returned? && outcome.releases == []
    ensures r.events[k].DoDelete? && id !in r.worlds[m].db.rows && id !in r.worlds[m].moved
  {
    RunsStaySound(r, k);
    RunsStaySound(r, m);
    assert StepAt(r, k);
    EndingDecidesWhatBecomesOfTheJob(r.worlds[k], r.events[k], r.locking, id, outcome, steps, moment);
    CompletedStaysCompleted(r, id, k + 1, m);
    assert IdAccounted(r.worlds[m], id);
  }

  /////////////////////////////////
  /// How a job leaves
  /////////////////////////////////

  /** Step i put the job back after its attempt of that number, as its handler had ended. */
  predicate GivesBack(r: Run, i: int, id: nat, attempt: nat, outcomes: nat -> Outcome, steps: Steps,
                      moments: nat -> int) {
    && 0 <= i < |r.events| && i < |r.worlds| && r.events[i].DoRelease? && Concludes(r.worlds[i], r.events[i], id)
    && r.worlds[i].hands[r.events[i].worker].attempts == attempt
    && AsEnded(r.events[i], r.worlds[i].hands[r.events[i].worker], moments(i), outcomes(i), steps)
  }

  lemma PutBackMeans(r: Run, i: nat, id: nat, attempt: nat, outcomes: nat -> Outcome, steps: Steps,
                     moments: nat -> int, availableAt: int)
    requires IsRun(r) && i < |r.events|
    requires WorkerQueue.PutBack(AbsRun(r), i, id, attempt, outcomes, steps, moments, availableAt)
    ensures GivesBack(r, i, id, attempt, outcomes, steps, moments) && r.events[i].availableAt == availableAt
  {
    ConcludesMeans(r, i, id);
    assert StepAt(r, i) && AbsRun(r).events[i] == AbsEventAt(r, i) && AbsRun(r).worlds[i] == AbsWorldAt(r, i);
  }

  lemma LeavingStepMeans(r: Run, k: nat, id: nat)
    requires IsRun(r) && k < |r.events|
    ensures AbsEventAt(r, k).Complete? ==> r.events[k].DoDelete?
    ensures AbsEventAt(r, k).Fail? ==> r.events[k].DoFail?
    ensures AbsEventAt(r, k).Exhaust? && AbsEventAt(r, k).id == id ==>
              Takes(r.worlds[k], r.events[k], id) && TakeBuries(r.worlds[k], r.events[k].worker)
    ensures AbsRun(r).events[k] == AbsEventAt(r, k) && AbsRun(r).worlds[k] == AbsWorldAt(r, k)
  {
    assert StepAt(r, k);
  }

  /** On Postgres, with the row lock held and no claim running out, a job leaves its table completed
      because its handler returned, failed because it raised on the last attempt, or buried by a later
      reserve because the last attempt was cancelled or gave the job back itself. */
  lemma HowAJobLeaves(r: Run, id: nat, k: nat, outcomes: nat -> Outcome, steps: Steps, moments: nat -> int)
    requires AlwaysHandled(r, id, outcomes, steps, moments) && k < |r.events|
    requires id in r.worlds[k].db.rows && id !in r.worlds[k + 1].db.rows
    ensures var row, w, e := r.worlds[k].db.rows[id], r.worlds[k], r.events[k];
            || (e.DoDelete? && Concludes(w, e, id) && outcomes(k).ending.Returned? && outcomes(k).releases == [])
            || (e.DoFail? && Concludes(w, e, id) && outcomes(k).ending.Raised? && row.attempts == row.maxAttempts)
            || (Takes(w, e, id) && TakeBuries(w, e.worker) && row.attempts == row.maxAttempts
                && exists i | 0 <= i < k ::
                     && GivesBack(r, i, id, row.attempts, outcomes, steps, moments)
                     && (outcomes(i).ending.Cancelled?
                         || (outcomes(i).ending.Returned? && outcomes(i).releases != [])))
  {
    HandledAbstractly(r, id, outcomes, steps, moments);
    LiveMeans(r, k, id);
    LiveMeans(r, k + 1, id);
    WorkerQueue.HowAJobLeaves(AbsRun(r), id, k, outcomes, steps, moments);
    ConcludesMeans(r, k, id);
    LeavingStepMeans(r, k, id);
    var job := AbsRun(r).worlds[k].live[id];
    if AbsEventAt(r, k).Exhaust? {
      var i :| 0 <= i < k
               && WorkerQueue.PutBack(AbsRun(r), i, id, job.attempts, outcomes, steps, moments, job.availableAt)
               && (outcomes(i).ending.Cancelled? || (outcomes(i).ending.Returned? && outcomes(i).releases != []));
      PutBackMeans(r, i, id, job.attempts, outcomes, steps, moments, job.availableAt);
    }
  }

  /** A job whose handler always raises leaves its table by its worker's own `fail`, into the failed one,
      after it was claimed exactly as often as its budget says. */
  lemma FailsAfterExactlyItsBudget(r: Run, id: nat, k: nat, steps: Steps, moments: nat -> int)
    requires AlwaysRaises(r, id, steps, moments) && k < |r.events|
    requires id in r.worlds[k].db.rows && id !in r.worlds[k + 1].db.rows
    ensures r.events[k].DoFail? && Concludes(r.worlds[k], r.events[k], id) && id in r.worlds[k + 1].moved
    ensures Spec.ClaimsSinceQueued(AbsRun(r), id, k) == r.worlds[k].db.rows[id].maxAttempts
  {
    HowAJobLeaves(r, id, k, WorkerQueue.RAISES, steps, moments);
    RunRefines(r);
    LiveMeans(r, k, id);
    Spec.AttemptsCountClaims(AbsRun(r), id, k);
    assert StepAt(r, k);
  }

  /** Attempt n + 1 is claimed at a moment no sooner than the backoff of n after attempt n was put
      back. */
  lemma AttemptsWaitOutTheirBackoff(r: Run, id: nat, k: nat, steps: Steps, moments: nat -> int) returns (i: nat)
    requires AlwaysRaises(r, id, steps, moments) && ClaimsAt(r, k, id) && 0 < r.worlds[k].db.rows[id].attempts
    ensures i < k && r.events[i].DoRelease? && Concludes(r.worlds[i], r.events[i], id)
    ensures var n := r.worlds[k].db.rows[id].attempts;
            && r.worlds[i].hands[r.events[i].worker].attempts == n
            && moments(i) + Backoff(n, steps) <= r.worlds[k].looks[r.events[k].worker].moment
  {
    HandledAbstractly(r, id, WorkerQueue.RAISES, steps, moments);
    LiveMeans(r, k, id);
    assert StepAt(r, k) && AbsRun(r).events[k] == AbsEventAt(r, k);
    Spec.AttemptsCountClaims(AbsRun(r), id, k);
    var n := r.worlds[k].db.rows[id].attempts;
    i := WorkerQueue.AttemptsWaitForTheirDate(AbsRun(r), id, k, WorkerQueue.RAISES, steps, moments);
    PutBackMeans(r, i, id, n, WorkerQueue.RAISES, steps, moments, r.worlds[k].db.rows[id].availableAt);
    CandidateIsNeverLost(r, k);
  }
}
