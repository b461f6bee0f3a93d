/** The Postgres driver's methods as steps of its runs: what one call does with nothing in between is a
    stretch of the runs of `PgRuns`, which states the same statements on its own. */
module PgCalls {
  import opened QueueLimits
  import opened Wrappers
  import opened PgStore
  import opened PgQueue
  import Runs = PgRuns
  import Refinement = PgRefinement
  import Spec = QueueSpec

  /** The events are enabled one after the other, and lead there. */
  predicate Leads(w: Runs.World, events: seq<Runs.Event>, locking: bool, v: Runs.World)
    decreases |events|
  {
    if events == [] then v == w
    else Runs.Enabled(w, events[0], locking) && Leads(Runs.Apply(w, events[0], locking), events[1..], locking, v)
  }

  lemma {:induction false} LeadsOn(w: Runs.World, events: seq<Runs.Event>, locking: bool, v: Runs.World,
                                   e: Runs.Event)
    requires Leads(w, events, locking, v) && Runs.Enabled(v, e, locking)
    ensures Leads(w, events + [e], locking, Runs.Apply(v, e, locking))
    decreases |events|
  {
    if events == [] {
      assert ([e])[1..] == [];
    } else {
      LeadsOn(Runs.Apply(w, events[0], locking), events[1..], locking, v, e);
      assert (events + [e])[1..] == events[1..] + [e];
    }
  }

  function Remembered(job: Job): Runs.Hand {
    Runs.Hand(job.id, job.attempts, job.maxAttempts)
  }

  /** A round that finds nothing leaves nothing to find: no look at a row of the queue is enabled. */
  lemma NothingDueMeansNoLook(w: Runs.World, locking: bool, queue: string, worker: string, moment: int, id: nat)
    requires NothingDue(w.db, queue, moment) && id in w.db.rows && w.db.rows[id].queue == queue
    ensures !Runs.Enabled(w, Runs.DoLook(worker, id, moment), locking)
  {
    assert !Eligible(w.db, queue, moment, id);
  }

  /** A round that finds a row is an enabled look at it and the take that follows, whether or not the row
      lock is held: the look judges the row spent exactly when the round buries it, and the tables and
      what the worker remembers come out the same. */
  lemma RoundIsPartOfARun(w: Runs.World, locking: bool, queue: string, timeout: int, worker: string, reading: Reading,
                          met: Met, after: Db)
    requires w.looks == map[] && reading.moment <= w.clock && !met.Nothing?
    requires RoundDoes(w.db, queue, timeout, worker, reading, met, after)
    ensures var id := if met.Buried? then met.id else met.job.id;
            var look := Runs.DoLook(worker, id, reading.moment);
            var take := Runs.DoTake(worker, Max(1, timeout), reading.failedAt);
            && Runs.Enabled(w, look, locking)
            && var v := Runs.Apply(w, look, locking);
               && (v.looks[worker].spent <==> met.Buried?) && Runs.Enabled(v, take, locking)
               && var u := Runs.Apply(v, take, locking);
                  && u.db == after && u.looks == map[] && u.clock == w.clock
                  && u.hands == (if met.Claimed? then w.hands[worker := Remembered(met.job)] else w.hands)
  {
    var id := if met.Buried? then met.id else met.job.id;
    var v := Runs.Apply(w, Runs.DoLook(worker, id, reading.moment), locking);
    assert v.looks - {worker} == map[];
  }

  lemma RoundLeadsOn(w: Runs.World, events: seq<Runs.Event>, locking: bool, v: Runs.World, queue: string, timeout: int,
                     worker: string, reading: Reading, met: Met, after: Db)
    returns (longer: seq<Runs.Event>, u: Runs.World)
    requires Leads(w, events, locking, v) && v.looks == map[] && reading.moment <= v.clock && !met.Nothing?
    requires RoundDoes(v.db, queue, timeout, worker, reading, met, after)
    ensures Leads(w, longer, locking, u) && u.db == after && u.looks == map[] && u.clock == v.clock
    ensures u.hands == if met.Claimed? then v.hands[worker := Remembered(met.job)] else v.hands
  {
    RoundIsPartOfARun(v, locking, queue, timeout, worker, reading, met, after);
    var id := if met.Buried? then met.id else met.job.id;
    var look, take := Runs.DoLook(worker, id, reading.moment), Runs.DoTake(worker, Max(1, timeout), reading.failedAt);
    LeadsOn(w, events, locking, v, look);
    var looked := Runs.Apply(v, look, locking);
    LeadsOn(w, events + [look], locking, looked, take);
    longer, u := events + [look] + [take], Runs.Apply(looked, take, locking);
  }

  lemma {:induction false} BuryingIsPartOfARun(w: Runs.World, locking: bool, queue: string, timeout: int,
                                               worker: string, readings: seq<Reading>, buried: seq<nat>)
    returns (events: seq<Runs.Event>, v: Runs.World)
    requires w.looks == map[] && forall i | 0 <= i < |readings| :: readings[i].moment <= w.clock
    requires |buried| <= |readings| && RoundsSpent(w.db, queue, buried, readings)
    ensures Leads(w, events, locking, v) && v.looks == map[] && v.clock == w.clock && v.hands == w.hands
    ensures v.db == BuryAll(w.db, buried, readings)
    decreases |buried|
  {
    events, v := [], w;
    if buried != [] {
      var n := |buried| - 1;
      forall i | 0 <= i < n
        ensures RoundSpent(w.db, queue, buried[..n], readings, i)
      {
        assert RoundSpent(w.db, queue, buried, readings, i) && buried[..n][..i] == buried[..i];
      }
      events, v := BuryingIsPartOfARun(w, locking, queue, timeout, worker, readings, buried[..n]);
      assert RoundSpent(w.db, queue, buried, readings, n);
      events, v := RoundLeadsOn(w, events, locking, v, queue, timeout, worker, readings[n], Buried(buried[n]),
        BuryAll(w.db, buried, readings));
    }
  }

  /** A whole `reserve` call on one queue is a stretch of a run: looks and takes, each enabled, that end
      with the same tables and leave the worker remembering the claim it answers. So it keeps whatever
      every step keeps. */
  lemma ReserveIsPartOfARun(w: Runs.World, locking: bool, queue: string, timeout: int, worker: string,
                            readings: seq<Reading>, buried: seq<nat>, job: Option<Job>, after: Db)
    returns (events: seq<Runs.Event>, v: Runs.World)
    requires w.looks == map[] && forall i | 0 <= i < |readings| :: readings[i].moment <= w.clock
    requires ReserveDoes(w.db, queue, timeout, worker, readings, buried, job, after)
    ensures Leads(w, events, locking, v) && v.db == after && v.looks == map[] && v.clock == w.clock
    ensures v.hands == if job.Some? then w.hands[worker := Remembered(job.value)] else w.hands
  {
    events, v := BuryingIsPartOfARun(w, locking, queue, timeout, worker, readings, buried);
    if job.Some? {
      events, v := RoundLeadsOn(w, events, locking, v, queue, timeout, worker, readings[|buried|],
        Claimed(job.value), after);
    }
  }

  /** What an operator's retry still has to do after the first n of the rows it picked. */
  ghost predicate StillPicked(v: Runs.World, operator: string, read: map<nat, FailedRow>, picked: seq<nat>, n: nat)
    requires n <= |picked|
  {
    forall j | n <= j < |picked| ::
      picked[j] in read && Runs.Picks(v, operator, picked[j]) && v.picked[operator][picked[j]] == read[picked[j]]
  }

  lemma RetryStep(v: Runs.World, locking: bool, operator: string, read: map<nat, FailedRow>, picked: seq<nat>, n: nat,
                  maxAttempts: nat, moment: int)
    requires n < |picked| && StillPicked(v, operator, read, picked, n) && 1 <= maxAttempts
    requires forall i, j | 0 <= i < j < |picked| :: picked[i] < picked[j]
    ensures var retry := Runs.DoRetryRow(operator, picked[n], maxAttempts, moment);
            && Runs.Enabled(v, retry, locking)
            && var u := Runs.Apply(v, retry, locking);
               && u.hands == v.hands && StillPicked(u, operator, read, picked, n + 1)
               && u.db == RetryRow(v.db, picked[n], read[picked[n]], maxAttempts, moment)
  {
    assert Runs.Picks(v, operator, picked[n]);
  }

  lemma {:induction false} RetryingIsPartOfARun(w: Runs.World, locking: bool, operator: string, only: Option<nat>,
                                                picked: seq<nat>, n: nat, maxAttempts: nat, moments: nat -> int)
    returns (events: seq<Runs.Event>, v: Runs.World)
    requires 1 <= maxAttempts && n <= |picked| && forall i, j | 0 <= i < j < |picked| :: picked[i] < picked[j]
    requires forall id :: id in picked <==> id in w.db.failed && (only.Some? ==> id == only.value)
    ensures Leads(w, events, locking, v) && v.hands == w.hands && StillPicked(v, operator, w.db.failed, picked, n)
    ensures v.db == RetryAll(w.db, w.db.failed, picked[..n], maxAttempts, moments)
    decreases n
  {
    if n == 0 {
      var pick := Runs.DoPick(operator, only);
      assert Leads(w, [], locking, w);
      LeadsOn(w, [], locking, w, pick);
      events, v := [] + [pick], Runs.Apply(w, pick, locking);
      assert picked[..0] == [];
      forall j | 0 <= j < |picked|
        ensures picked[j] in w.db.failed && Runs.Picks(v, operator, picked[j])
      {
        assert picked[j] in picked;
      }
    } else {
      events, v := RetryingIsPartOfARun(w, locking, operator, only, picked, n - 1, maxAttempts, moments);
      var retry := Runs.DoRetryRow(operator, picked[n - 1], maxAttempts, moments(n - 1));
      RetryStep(v, locking, operator, w.db.failed, picked, n - 1, maxAttempts, moments(n - 1));
      LeadsOn(w, events, locking, v, retry);
      OneMoreRetried(w.db, w.db.failed, picked, n - 1, maxAttempts, moments);
      events, v := events + [retry], Runs.Apply(v, retry, locking);
    }
  }

  /** A whole `retry_failed` is one too: the rows are picked, and then each is retried as it was read. */
  lemma RetryIsPartOfARun(w: Runs.World, locking: bool, operator: string, only: Option<nat>, picked: seq<nat>,
                          maxAttempts: nat, moments: nat -> int)
    returns (events: seq<Runs.Event>, v: Runs.World)
    requires 1 <= maxAttempts && forall i, j | 0 <= i < j < |picked| :: picked[i] < picked[j]
    requires forall id :: id in picked <==> id in w.db.failed && (only.Some? ==> id == only.value)
    ensures Leads(w, events, locking, v) && v.hands == w.hands
    ensures v.db == RetryAll(w.db, w.db.failed, picked, maxAttempts, moments)
  {
    events, v := RetryingIsPartOfARun(w, locking, operator, only, picked, |picked|, maxAttempts, moments);
    assert picked[..|picked|] == picked;
  }

  /** The row a push adds is one the runs may push. */
  lemma PushIsPartOfARun(w: Runs.World, locking: bool, row: Row, after: Db)
    requires row.attempts == 0 && 1 <= row.maxAttempts && row.reservedUntil.None? && row.reservedBy.None?
    requires row.uniqueKey.None? || forall other | other in w.db.rows :: w.db.rows[other].uniqueKey != row.uniqueKey
    requires after == w.db.(rows := w.db.rows[w.db.nextId := row], nextId := w.db.nextId + 1)
    ensures Runs.Enabled(w, Runs.DoPush(row), locking) && Runs.Apply(w, Runs.DoPush(row), locking).db == after
  {
  }

  /** In every run at most one row carries a unique key, so the id a push answers for a taken key is the
      one job that holds it. */
  lemma OneRowPerKey(r: Runs.Run, k: nat, a: nat, b: nat)
    requires Runs.IsRun(r) && k <= |r.events| && a in r.worlds[k].db.rows && b in r.worlds[k].db.rows
    requires r.worlds[k].db.rows[a].uniqueKey == r.worlds[k].db.rows[b].uniqueKey != None
    ensures a == b
  {
    Refinement.RunRefines(r);
    Refinement.WorldsStayRelated(r, k);
    var abs := Refinement.AbsRun(r);
    assert abs.worlds[k] == Refinement.AbsWorldAt(r, k);
    assert Refinement.RowRelated(r.worlds[k].db, abs.worlds[k], a);
    assert Refinement.RowRelated(r.worlds[k].db, abs.worlds[k], b);
    Spec.UniqueKeysAreUnique(abs, k, a, b);
  }
}
