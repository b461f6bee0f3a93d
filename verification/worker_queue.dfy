/** The worker and the driver together: the life of a job by how its handler ends each time. */
module WorkerQueue {
  import opened Wrappers
  import opened QueueSpec
  import opened Worker

  /** A completion of the job that takes effect. */
  predicate Concludes(r: Run, k: int, id: nat) {
    && 0 <= k < |r.events| && k < |r.worlds| && Ends(r.events[k])
    && Effective(r.worlds[k], r.events[k].worker) && r.worlds[k].hands[r.events[k].worker].id == id
  }

  /** The driver is asked for what the worker calls for when the handler ends like this, with any delay
      counted from the moment it reads then. */
  predicate AsEnded(e: Event, hand: Hand, moment: int, outcome: Outcome, steps: Steps) {
    match CallFor(Ticket(hand.id, hand.attempts, hand.maxAttempts), outcome, steps)
    case Some(Fail(_)) => e.Fail?
    case Some(Release(_, delay)) => e.Release? && e.availableAt == moment + delay
    case Some(Delete(_)) => e.Complete?
    case None => false
  }

  /** Step k concludes the job as its handler ended, and does not take it from an expired claim. */
  predicate HandledAt(r: Run, k: nat, id: nat, outcomes: nat -> Outcome, steps: Steps, moments: nat -> int)
    requires k < |r.events| < |r.worlds|
  {
    var w, e := r.worlds[k], r.events[k];
    && (Concludes(r, k, id) ==> AsEnded(e, w.hands[e.worker], moments(k), outcomes(k), steps))
    && (e.Claim? && e.id == id && id in w.live ==> w.live[id].holder.None?)
    && (e.Exhaust? && e.id == id && id in w.live ==> w.live[id].holder.None?)
  }

  /** Whatever ends a claim of job `id` is what the worker calls for, and none of its claims runs out
      before. The moments are those the workers read when the handler ends. */
  ghost predicate AlwaysHandled(r: Run, id: nat, outcomes: nat -> Outcome, steps: Steps, moments: nat -> int) {
    IsRun(r) && Budgeted(r) && forall k | 0 <= k < |r.events| :: HandledAt(r, k, id, outcomes, steps, moments)
  }

  const RAISES: nat -> Outcome := k => Outcome([], Raised, false)

  /** The handler of job `id` always raises, and none of its claims runs out before it does. */
  ghost predicate AlwaysRaises(r: Run, id: nat, steps: Steps, moments: nat -> int) {
    AlwaysHandled(r, id, RAISES, steps, moments)
  }

  /** The job is back on the queue: unheld, with the attempts it had, and not before the given date. */
  predicate BackOnQueue(w: World, id: nat, attempts: nat, availableAt: int) {
    id in w.live && w.live[id].holder.None? && w.live[id].attempts == attempts && w.live[id].availableAt == availableAt
  }

  lemma {:induction false} HandKnowsBudget(r: Run, k: nat, worker: string)
    requires IsRun(r) && k <= |r.events| && Effective(r.worlds[k], worker)
    ensures var hand := r.worlds[k].hands[worker]; hand.maxAttempts == r.worlds[k].live[hand.id].maxAttempts
    decreases k
  {
    assert 0 < k;
    assert StepAt(r, k - 1);
    if Effective(r.worlds[k - 1], worker) {
      HandKnowsBudget(r, k - 1, worker);
    }
  }

  /** What each way of ending comes to. A handler that returns without releasing its job has it leave
      the queue and not fail; one that raises has it fail on its last attempt; any other ending puts it
      back unheld, none the worse for the attempt: at once if cancelled, after the last delay it asked
      for if it released it, after the attempt's backoff if it raised. */
  lemma EndingDecidesWhatBecomesOfTheJob(r: Run, k: nat, id: nat, outcome: Outcome, steps: Steps, moment: int)
    requires IsRun(r) && Concludes(r, k, id)
    requires AsEnded(r.events[k], r.worlds[k].hands[r.events[k].worker], moment, outcome, steps)
    ensures var job, v := r.worlds[k].live[id], r.worlds[k + 1];
            match outcome.ending
            case Returned =>
              if outcome.releases == [] then
                r.events[k].Complete? && id !in v.live && v.failed == r.worlds[k].failed
              else BackOnQueue(v, id, job.attempts, moment + Max(0, outcome.releases[|outcome.releases| - 1]))
            case Cancelled => BackOnQueue(v, id, job.attempts, moment)
            case Raised =>
              if job.attempts < job.maxAttempts then
                BackOnQueue(v, id, job.attempts, moment + Backoff(job.attempts, steps))
              else
                && r.events[k].Fail? && id !in v.live
                && v.failed == r.worlds[k].failed[r.events[k].failedId :=
                                                    FailedJob(job.queue, job.name, job.payload, job.attempts)]
            case Exited => false
  {
    assert StepAt(r, k);
    HandKnowsBudget(r, k, r.events[k].worker);
  }

  /** Step i put the job back after attempt n, as its handler had ended, until the given date. */
  predicate PutBack(r: Run, i: int, id: nat, attempt: nat, outcomes: nat -> Outcome, steps: Steps,
                    moments: nat -> int, availableAt: int) {
    && Concludes(r, i, id) && r.events[i].Release? && r.events[i].availableAt == availableAt
    && r.worlds[i].hands[r.events[i].worker].attempts == attempt
    && AsEnded(r.events[i], r.worlds[i].hands[r.events[i].worker], moments(i), outcomes(i), steps)
  }

  /** The job has been left alone since step i. */
  predicate Since(r: Run, i: int, id: nat, k: nat)
    requires k <= |r.events| < |r.worlds|
  {
    forall m | 0 <= m <= k && i < m ::
      id in r.worlds[m].live && id in r.worlds[k].live && r.worlds[m].live[id] == r.worlds[k].live[id]
  }

  /** Between attempts the job is as its last conclusion put it back. */
  ghost predicate OnCourse(r: Run, id: nat, k: nat, outcomes: nat -> Outcome, steps: Steps, moments: nat -> int)
    requires k <= |r.events| < |r.worlds|
  {
    var w := r.worlds[k];
    id in w.live && w.live[id].holder.None? && 0 < w.live[id].attempts ==>
      exists i | 0 <= i < k ::
        && PutBack(r, i, id, w.live[id].attempts, outcomes, steps, moments, w.live[id].availableAt)
        && Since(r, i, id, k)
  }

  lemma PutBackIsOnCourse(r: Run, id: nat, k: nat, outcomes: nat -> Outcome, steps: Steps, moments: nat -> int)
    requires AlwaysHandled(r, id, outcomes, steps, moments) && k < |r.events| && Concludes(r, k, id)
    ensures OnCourse(r, id, k + 1, outcomes, steps, moments)
  {
    var w, e, v := r.worlds[k], r.events[k], r.worlds[k + 1];
    assert StepAt(r, k) && HandledAt(r, k, id, outcomes, steps, moments);
    if e.Release? {
      assert PutBack(r, k, id, w.live[id].attempts, outcomes, steps, moments, v.live[id].availableAt)
          && Since(r, k, id, k + 1);
    }
  }

  lemma LeftAloneStaysOnCourse(r: Run, id: nat, k: nat, outcomes: nat -> Outcome, steps: Steps, moments: nat -> int)
    requires AlwaysHandled(r, id, outcomes, steps, moments) && k < |r.events| && !Concludes(r, k, id)
    requires OnCourse(r, id, k, outcomes, steps, moments)
    ensures OnCourse(r, id, k + 1, outcomes, steps, moments)
  {
    assert StepAt(r, k) && HandledAt(r, k, id, outcomes, steps, moments);
    var w, v := r.worlds[k], r.worlds[k + 1];
    if id in w.live && id in v.live && v.live[id].holder.None? && 0 < v.live[id].attempts {
      assert w.live[id] == v.live[id];
      var j :| 0 <= j < k && Since(r, j, id, k)
               && PutBack(r, j, id, w.live[id].attempts, outcomes, steps, moments, w.live[id].availableAt);
      assert Since(r, j, id, k + 1);
    }
  }

  lemma {:induction false} StaysOnCourse(r: Run, id: nat, k: nat, outcomes: nat -> Outcome, steps: Steps,
                                         moments: nat -> int)
    requires AlwaysHandled(r, id, outcomes, steps, moments) && k <= |r.events|
    ensures OnCourse(r, id, k, outcomes, steps, moments)
    decreases k
  {
    if 0 < k {
      StaysOnCourse(r, id, k - 1, outcomes, steps, moments);
      if Concludes(r, k - 1, id) {
        PutBackIsOnCourse(r, id, k - 1, outcomes, steps, moments);
      } else {
        LeftAloneStaysOnCourse(r, id, k - 1, outcomes, steps, moments);
      }
    }
  }

  /** A handler that put its job back on its last attempt was cancelled, or released the job itself. */
  lemma LastAttemptIsOnlyGivenBack(r: Run, id: nat, k: nat, i: nat, outcomes: nat -> Outcome, steps: Steps,
                                   moments: nat -> int)
    requires IsRun(r) && i < k <= |r.events| && id in r.worlds[k].live && Since(r, i, id, k)
    requires PutBack(r, i, id, r.worlds[k].live[id].attempts, outcomes, steps, moments,
             r.worlds[k].live[id].availableAt)
    requires r.worlds[k].live[id].maxAttempts <= r.worlds[k].live[id].attempts
    ensures outcomes(i).ending.Cancelled? || (outcomes(i).ending.Returned? && outcomes(i).releases != [])
  {
    assert StepAt(r, i);
    HandKnowsBudget(r, i, r.events[i].worker);
    assert r.worlds[i + 1].live[id] == r.worlds[k].live[id];
  }

  /** The ways a job leaves the queue, when none of its claims runs out: completed, because its handler
      returned without releasing it; failed, because it raised on the last attempt; or buried by a later
      reserve as out of attempts, because the last attempt was cancelled or gave the job back itself. */
  lemma HowAJobLeaves(r: Run, id: nat, k: nat, outcomes: nat -> Outcome, steps: Steps, moments: nat -> int)
    requires AlwaysHandled(r, id, outcomes, steps, moments) && k < |r.events| && id in r.worlds[k].live
             && id !in r.worlds[k + 1].live
    ensures var job, e := r.worlds[k].live[id], r.events[k];
            || (e.Complete? && Concludes(r, k, id) && outcomes(k).ending.Returned? && outcomes(k).releases == [])
            || (e.Fail? && Concludes(r, k, id) && outcomes(k).ending.Raised? && job.attempts == job.maxAttempts)
            || (e.Exhaust? && e.id == id && job.attempts == job.maxAttempts
                && exists i | 0 <= i < k ::
                     && PutBack(r, i, id, job.attempts, outcomes, steps, moments, job.availableAt) && Since(r, i, id, k)
                     && (outcomes(i).ending.Cancelled?
                         || (outcomes(i).ending.Returned? && outcomes(i).releases != [])))
  {
    StaysOnCourse(r, id, k, outcomes, steps, moments);
    ClaimsStayInBudget(r, id, k);
    assert StepAt(r, k) && HandledAt(r, k, id, outcomes, steps, moments);
    var job := r.worlds[k].live[id];
    if Concludes(r, k, id) {
      EndingDecidesWhatBecomesOfTheJob(r, k, id, outcomes(k), steps, moments(k));
    } else {
      AttemptsCountClaims(r, id, k);
      var i :| 0 <= i < k && PutBack(r, i, id, job.attempts, outcomes, steps, moments, job.availableAt)
               && Since(r, i, id, k);
      LastAttemptIsOnlyGivenBack(r, id, k, i, outcomes, steps, moments);
    }
  }

  /** A job whose handler always raises leaves the queue for the failed jobs, by its worker's own
      `fail`, after the handler ran exactly as often as the budget allows since it was last queued; it is
      never completed and never found exhausted. */
  lemma FailsAfterExactlyItsBudget(r: Run, id: nat, k: nat, steps: Steps, moments: nat -> int)
    requires AlwaysRaises(r, id, steps, moments) && k < |r.events| && id in r.worlds[k].live
             && id !in r.worlds[k + 1].live
    ensures r.events[k].Fail? && Concludes(r, k, id)
    ensures ClaimsSinceQueued(r, id, k) == r.worlds[k].live[id].maxAttempts
  {
    HowAJobLeaves(r, id, k, RAISES, steps, moments);
    AttemptsCountClaims(r, id, k);
  }

  /** When a further attempt is claimed, the job has been left alone since it was put back after the one
      before, until the date that ending called for. */
  lemma AttemptsWaitForTheirDate(r: Run, id: nat, k: nat, outcomes: nat -> Outcome, steps: Steps,
                                 moments: nat -> int) returns (i: nat)
    requires AlwaysHandled(r, id, outcomes, steps, moments) && ClaimOf(r, k, id)
    requires id in r.worlds[k].live && 0 < ClaimsSinceQueued(r, id, k)
    ensures i < k && Since(r, i, id, k)
    ensures PutBack(r, i, id, ClaimsSinceQueued(r, id, k), outcomes, steps, moments, r.worlds[k].live[id].availableAt)
  {
    StaysOnCourse(r, id, k, outcomes, steps, moments);
    AttemptsCountClaims(r, id, k);
    assert HandledAt(r, k, id, outcomes, steps, moments);
    var job := r.worlds[k].live[id];
    i :| 0 <= i < k && PutBack(r, i, id, job.attempts, outcomes, steps, moments, job.availableAt) && Since(r, i, id, k);
  }

  /** When attempt n + 1 of a job whose handler always raises is claimed, the job has been left alone
      since it was put back after attempt n, due the backoff of n after the handler raised. */
  lemma AttemptsWaitOutTheirBackoff(r: Run, id: nat, k: nat, steps: Steps, moments: nat -> int) returns (i: nat)
    requires AlwaysRaises(r, id, steps, moments) && ClaimOf(r, k, id)
    requires id in r.worlds[k].live && 0 < ClaimsSinceQueued(r, id, k)
    ensures i < k && Concludes(r, i, id) && r.events[i].Release? && Since(r, i, id, k)
    ensures var n := ClaimsSinceQueued(r, id, k);
            && r.worlds[i].hands[r.events[i].worker].attempts == n
            && r.worlds[k].live[id].availableAt == moments(i) + Backoff(n, steps)
  {
    i := AttemptsWaitForTheirDate(r, id, k, RAISES, steps, moments);
  }
}
