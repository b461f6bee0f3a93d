/** What the Postgres tables say of a job's errors. */
module PgReasons {
  import opened QueueLimits
  import opened Wrappers
  import opened PgStore
  import opened PgRuns

  /** The step moves a row to the failed table, which then says this of it. */
  predicate FailsWith(w: World, e: Event, f: FailedRow) {
    || (e.DoFail? && HandHolds(w, e.worker) && f.error == e.error && f.failedAt == e.failedAt
        && SameJob(w.db.rows[w.hands[e.worker].id], f))
    || (e.DoTake? && TakeBuries(w, e.worker) && f.error == EXHAUSTED_ERROR && f.failedAt == e.failedAt
        && SameJob(w.db.rows[w.looks[e.worker].id], f))
  }

  predicate SameJob(row: Row, f: FailedRow) {
    f.queue == row.queue && f.name == row.name && f.payload == row.payload && f.attempts == row.attempts
  }

  /** A failed row says why: it names the error and the moment of the very step that moved it, a worker's
      `fail` or a reserve that found it out of attempts, and has not changed since. */
  lemma {:induction false} FailedRowsSayWhy(r: Run, k: nat, failedId: nat) returns (i: nat)
    requires IsRun(r) && k <= |r.events| && failedId in r.worlds[k].db.failed
    ensures i < k && r.worlds[i].db.nextFailed == failedId
    ensures FailsWith(r.worlds[i], r.events[i], r.worlds[k].db.failed[failedId])
    decreases k
  {
    assert 0 < k;
    assert StepAt(r, k - 1);
    RunsStaySound(r, k - 1);
    assert FailedSound(r.worlds[k - 1].db, failedId);
    if failedId in r.worlds[k - 1].db.failed {
      i := FailedRowsSayWhy(r, k - 1, failedId);
    } else {
      i := k - 1;
    }
  }

  /** The error of the newest release of the row since it was put there. */
  function LastErrorOf(r: Run, id: nat, k: nat): string
    requires k <= |r.events| < |r.worlds|
  {
    if k == 0 then ""
    else
      var w, e := r.worlds[k - 1], r.events[k - 1];
      if e.DoRelease? && HandHolds(w, e.worker) && w.hands[e.worker].id == id then e.error
      else if id !in w.db.rows then ""
      else LastErrorOf(r, id, k - 1)
  }

  predicate PushedClean(e: Event) {
    e.DoPush? ==> e.row.lastError == ""
  }

  /** `last_error` is the error the newest release brought, when rows are pushed without one. */
  lemma {:induction false} LastErrorIsTheNewestReleases(r: Run, id: nat, k: nat)
    requires IsRun(r) && k <= |r.events| && forall i | 0 <= i < k :: PushedClean(r.events[i])
    requires id in r.worlds[k].db.rows
    ensures r.worlds[k].db.rows[id].lastError == LastErrorOf(r, id, k)
    decreases k
  {
    assert 0 < k;
    assert StepAt(r, k - 1) && PushedClean(r.events[k - 1]);
    RunsStaySound(r, k - 1);
    assert RowSound(r.worlds[k - 1].db, id);
    if id in r.worlds[k - 1].db.rows {
      LastErrorIsTheNewestReleases(r, id, k - 1);
    }
  }
}
