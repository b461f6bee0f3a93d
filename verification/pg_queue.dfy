/** The Postgres driver's methods, with nothing else running between their statements. What
    interleaving does to them is the subject of `PgRuns`. */
module PgQueue {
  import opened QueueLimits
  import opened Wrappers
  import opened PgStore

  /** One pass reads the clock twice: for the claim and for a failed row's stamp. */
  datatype Reading = Reading(moment: int, failedAt: int)

  datatype Job = Job(id: nat, queue: string, name: string, payload: string, attempts: nat, maxAttempts: nat,
                     reservedBy: string)

  predicate Eligible(db: Db, queue: string, moment: int, id: nat) {
    id in db.rows && db.rows[id].queue == queue && db.rows[id].availableAt <= moment && Unheld(db.rows[id], moment)
  }

  /** ORDER BY priority DESC, available_at, id. */
  predicate Before(db: Db, a: nat, b: nat)
    requires a in db.rows && b in db.rows
  {
    var x, y := db.rows[a], db.rows[b];
    || y.priority < x.priority
    || (x.priority == y.priority && (x.availableAt < y.availableAt || (x.availableAt == y.availableAt && a < b)))
  }

  ghost predicate IsFirst(db: Db, queue: string, moment: int, id: nat) {
    Eligible(db, queue, moment, id) && forall other | Eligible(db, queue, moment, other) && other != id ::
      Before(db, id, other)
  }

  ghost predicate NothingDue(db: Db, queue: string, moment: int) {
    forall id :: !Eligible(db, queue, moment, id)
  }

  /** By the row's own columns: it is due, unheld and of that queue, and no other such row has a higher
      priority, or the same and an earlier date, or both the same and a smaller id. */
  lemma FirstMeans(db: Db, queue: string, moment: int, id: nat)
    ensures IsFirst(db, queue, moment, id) <==>
            && id in db.rows && db.rows[id].queue == queue && db.rows[id].availableAt <= moment
            && (db.rows[id].reservedUntil == None || db.rows[id].reservedUntil.value <= moment)
            && forall other | other in db.rows && other != id && db.rows[other].queue == queue
                 && db.rows[other].availableAt <= moment
                 && (db.rows[other].reservedUntil == None || db.rows[other].reservedUntil.value <= moment) ::
                 var x, y := db.rows[id], db.rows[other];
                 && y.priority <= x.priority
                 && (y.priority == x.priority ==> x.availableAt <= y.availableAt)
                 && (y.priority == x.priority && y.availableAt == x.availableAt ==> id < other)
  {
    if IsFirst(db, queue, moment, id) {
      forall other | other in db.rows && other != id && Eligible(db, queue, moment, other)
        ensures Before(db, id, other)
      {
      }
    }
  }

  /** The tables after the given rows were moved to failed, one per round. */
  function BuryAll(db: Db, buried: seq<nat>, readings: seq<Reading>): Db
    requires |buried| <= |readings|
  {
    if buried == [] then db
    else
      var n := |buried| - 1;
      var before := BuryAll(db, buried[..n], readings);
      if buried[n] in before.rows then Bury(before, buried[n], EXHAUSTED_ERROR, readings[n].failedAt) else before
  }

  ghost predicate RoundSpent(db: Db, queue: string, buried: seq<nat>, readings: seq<Reading>, i: nat)
    requires i < |buried| <= |readings|
  {
    var before := BuryAll(db, buried[..i], readings);
    IsFirst(before, queue, readings[i].moment, buried[i]) && Spent(before.rows[buried[i]])
  }

  /** Every round so far met the first due row of the queue, and it was out of attempts. */
  ghost predicate RoundsSpent(db: Db, queue: string, buried: seq<nat>, readings: seq<Reading>)
    requires |buried| <= |readings|
  {
    forall i {:trigger RoundSpent(db, queue, buried, readings, i)} | 0 <= i < |buried| ::
      RoundSpent(db, queue, buried, readings, i)
  }

  lemma OneMoreRound(db: Db, queue: string, buried: seq<nat>, readings: seq<Reading>, id: nat)
    requires |buried| < |readings| && RoundsSpent(db, queue, buried, readings)
    requires var d := BuryAll(db, buried, readings);
             IsFirst(d, queue, readings[|buried|].moment, id) && Spent(d.rows[id])
    ensures RoundsSpent(db, queue, buried + [id], readings)
    ensures BuryAll(db, buried + [id], readings)
            == Bury(BuryAll(db, buried, readings), id, EXHAUSTED_ERROR, readings[|buried|].failedAt)
  {
    var longer := buried + [id];
    assert longer[..|buried|] == buried;
    forall i | 0 <= i < |longer|
      ensures RoundSpent(db, queue, longer, readings, i)
    {
      if i < |buried| {
        assert RoundSpent(db, queue, buried, readings, i) && longer[..i] == buried[..i];
      }
    }
  }

  lemma SomeFirst(db: Db, ids: set<nat>) returns (first: nat)
    requires ids != {} && ids <= db.rows.Keys
    ensures first in ids && forall id | id in ids && id != first :: Before(db, first, id)
    decreases ids
  {
    var pick :| pick in ids;
    first := pick;
    if ids != {pick} {
      var other := SomeFirst(db, ids - {pick});
      first := if Before(db, pick, other) then pick else other;
      forall id | id in ids && id != first
        ensures Before(db, first, id)
      {
        assert id == pick || id == other || Before(db, other, id);
      }
    }
  }

  /** The tables after the given failed rows, read beforehand, were retried one by one. */
  function RetryAll(db: Db, read: map<nat, FailedRow>, picked: seq<nat>, maxAttempts: nat, moments: nat -> int): Db
    requires forall id | id in picked :: id in read
  {
    if picked == [] then db
    else
      var n := |picked| - 1;
      var t := RetryAll(db, read, picked[..n], maxAttempts, moments);
      RetryRow(t, picked[n], read[picked[n]], maxAttempts, moments(n))
  }

  /** A failed row put back: its queue, name and payload, a fresh budget, and due at once. */
  function Retried(f: FailedRow, maxAttempts: nat, moment: int): Row {
    Row(f.queue, f.name, f.payload, 0, maxAttempts, 0, None, moment, None, None, "", moment)
  }

  lemma OneMoreRetried(db: Db, read: map<nat, FailedRow>, ids: seq<nat>, i: nat, maxAttempts: nat, moments: nat -> int)
    requires i < |ids| && forall id | id in ids :: id in read
    ensures RetryAll(db, read, ids[..i + 1], maxAttempts, moments)
         == RetryRow(RetryAll(db, read, ids[..i], maxAttempts, moments), ids[i], read[ids[i]], maxAttempts, moments(i))
  {
    assert ids[..i + 1][..i] == ids[..i];
  }

  lemma RetryRowInserts(db: Db, failedId: nat, f: FailedRow, maxAttempts: nat, moment: int)
    ensures var t := RetryRow(db, failedId, f, maxAttempts, moment);
            && t.nextId == db.nextId + 1 && t.failed == db.failed - {failedId}
            && t.rows == db.rows[db.nextId := Retried(f, maxAttempts, moment)]
  {
  }

  /** Retrying moves every picked row, and nothing else: the i-th comes back under the i-th new id,
      with its queue, name and payload and a fresh budget. */
  lemma {:induction false} RetryAllMovesEveryRow(db: Db, read: map<nat, FailedRow>, picked: seq<nat>, maxAttempts: nat,
                                                 moments: nat -> int)
    requires forall id | id in picked :: id in read
    requires forall id | id in db.rows :: id < db.nextId
    ensures var t := RetryAll(db, read, picked, maxAttempts, moments);
            && t.nextId == db.nextId + |picked|
            && (forall id :: id in t.failed <==> id in db.failed && id !in picked)
            && (forall id :: id in t.rows <==> id in db.rows || db.nextId <= id < t.nextId)
            && (forall id | id in db.rows :: t.rows[id] == db.rows[id])
            && (forall i | 0 <= i < |picked| ::
                 t.rows[db.nextId + i] == Retried(read[picked[i]], maxAttempts, moments(i)))
    decreases |picked|
  {
    if picked != [] {
      var n := |picked| - 1;
      var rest := picked[..n];
      RetryAllMovesEveryRow(db, read, rest, maxAttempts, moments);
      assert forall id :: id in picked <==> id in rest || id == picked[n];
      var t, f := RetryAll(db, read, rest, maxAttempts, moments), read[picked[n]];
      RetryRowInserts(t, picked[n], f, maxAttempts, moments(n));
      forall i | 0 <= i < |picked|
        ensures RetryRow(t, picked[n], f, maxAttempts, moments(n)).rows[db.nextId + i]
             == Retried(read[picked[i]], maxAttempts, moments(i))
      {
        assert i < n ==> rest[i] == picked[i];
      }
    }
  }

  lemma SomeLeast(ids: set<nat>) returns (least: nat)
    requires ids != {}
    ensures least in ids && forall id | id in ids :: least <= id
    decreases ids
  {
    var pick :| pick in ids;
    least := pick;
    if ids != {pick} {
      var other := SomeLeast(ids - {pick});
      least := if other < pick then other else pick;
      forall id | id in ids
        ensures least <= id
      {
        assert id == pick || id in ids - {pick};
      }
    }
  }

  /** What the claimed row hands the worker. */
  function JobOf(id: nat, row: Row, worker: string): Job {
    Job(id, row.queue, row.name, row.payload, row.attempts, row.maxAttempts, worker)
  }

  /** What one round of `reserve` comes to. */
  datatype Met = Nothing | Buried(id: nat) | Claimed(job: Job)

  /** The first due row of the queue, with attempts left, was claimed and is the job handed out. */
  ghost predicate ClaimsFirst(before: Db, queue: string, timeout: int, worker: string, moment: int, job: Job,
                              after: Db) {
    && IsFirst(before, queue, moment, job.id) && !Spent(before.rows[job.id])
    && after == Claim(before, job.id, moment + Max(1, timeout), worker, moment)
    && var row := before.rows[job.id];
       job == Job(job.id, queue, row.name, row.payload, row.attempts + 1, row.maxAttempts, worker)
  }

  /** What a claim hands out and writes: the first due row with attempts left, one attempt on and held by
      the worker for the timeout; every other row stays as it is. */
  lemma ClaimHandsOutTheFirstDueRow(before: Db, queue: string, timeout: int, worker: string, moment: int, job: Job,
                                    after: Db)
    requires ClaimsFirst(before, queue, timeout, worker, moment, job, after)
    ensures job.id in before.rows && before.rows[job.id].attempts < before.rows[job.id].maxAttempts
    ensures var row, until := before.rows[job.id], if timeout < 1 then moment + 1 else moment + timeout;
            && after.rows == before.rows[job.id := Row(row.queue, row.name, row.payload, row.attempts + 1,
                                                       row.maxAttempts, row.priority, row.uniqueKey, row.availableAt,
                                                       Some(until), Some(worker), row.lastError, row.createdAt)]
            && after.failed == before.failed
            && job.name == row.name && job.payload == row.payload && job.attempts == row.attempts + 1
            && job.maxAttempts == row.maxAttempts && job.queue == row.queue == queue && job.reservedBy == worker
  {
  }

  /** What one round may do. */
  ghost predicate RoundDoes(before: Db, queue: string, timeout: int, worker: string, reading: Reading, met: Met,
                            after: Db) {
    match met
    case Nothing => after == before && NothingDue(before, queue, reading.moment)
    case Buried(id) =>
      && IsFirst(before, queue, reading.moment, id) && Spent(before.rows[id])
      && after == Bury(before, id, EXHAUSTED_ERROR, reading.failedAt)
    case Claimed(job) => ClaimsFirst(before, queue, timeout, worker, reading.moment, job, after)
  }

  /** What a whole call may do: bury the first due rows that are out of attempts, one a round, and then
      claim the first that is not, or end because nothing was due or the rounds were spent. */
  ghost predicate ReserveDoes(before: Db, queue: string, timeout: int, worker: string, readings: seq<Reading>,
                              buried: seq<nat>, job: Option<Job>, after: Db) {
    && |buried| <= |readings| && RoundsSpent(before, queue, buried, readings)
    && var db := BuryAll(before, buried, readings);
       match job
       case None => after == db && (|buried| == |readings| || NothingDue(db, queue, readings[|buried|].moment))
       case Some(j) =>
         |buried| < |readings| && ClaimsFirst(db, queue, timeout, worker, readings[|buried|].moment, j, after)
  }

  function QueueName(queue: string): string {
    if queue == "" then "default" else queue
  }

  /** What the command names: one id, or everything failed before a date, or everything. */
  predicate Forgets(only: Option<nat>, before: Option<int>, id: nat, f: FailedRow) {
    if only.Some? then id == only.value else before.Some? ==> f.failedAt < before.value
  }

  class Tables {
    var rows: map<nat, Row>
    var failed: map<nat, FailedRow>
    var nextId: nat
    var nextFailed: nat

    ghost function State(): Db
      reads this
    {
      Db(rows, failed, nextId, nextFailed)
    }

    constructor ()
      ensures State() == EMPTY
    {
      rows, failed, nextId, nextFailed := map[], map[], 1, 1;
    }

    /** Returns the new job's id, or that of the job holding `unique`. */
    method Push(queue: string, name: string, payload: string, delay: int, priority: int, unique: Option<string>,
                maxAttempts: int, moment: int) returns (id: nat)
      modifies this
      ensures unique.None? || (forall other | other in old(rows) :: old(rows)[other].uniqueKey != unique) ==>
                && id == old(nextId) && nextId == id + 1 && failed == old(failed) && nextFailed == old(nextFailed)
                && rows == old(rows)[id := Row(if queue == "" then "default" else queue, name, payload, 0,
                                               if maxAttempts < 1 then 1 else maxAttempts, priority, unique,
                                               if delay < 0 then moment else moment + delay, None, None, "", moment)]
      ensures unique.Some? && (exists other :: other in old(rows) && old(rows)[other].uniqueKey == unique) ==>
                State() == old(State()) && id in rows && rows[id].uniqueKey == unique
    {
      if unique.Some? {
        var holders := set other | other in rows && rows[other].uniqueKey == unique;
        if holders != {} {
          id :| id in holders;
          return;
        }
        assert forall other | other in rows :: rows[other].uniqueKey == unique ==> other in holders;
      }
      var available := if delay < 0 then moment else moment + delay;
      var budget: nat := if maxAttempts < 1 then 1 else maxAttempts;
      var row := NewRow(QueueName(queue), name, payload, budget, priority, unique, available, moment);
      id := nextId;
      rows := rows[id := row];
      nextId := nextId + 1;
    }

    method Candidate(queue: string, moment: int) returns (found: Option<(nat, bool)>)
      ensures match found
              case None => NothingDue(State(), queue, moment)
              case Some(c) => IsFirst(State(), queue, moment, c.0) && (c.1 <==> Spent(rows[c.0]))
    {
      var db := Db(rows, failed, nextId, nextFailed);
      var due := set id | id in rows && Eligible(db, queue, moment, id);
      assert forall id :: Eligible(db, queue, moment, id) ==> id in due;
      if due == {} {
        return None;
      }
      ghost var first := SomeFirst(db, due);
      var id :| id in due && forall other | other in due && other != id :: Before(db, id, other);
      found := Some((id, rows[id].maxAttempts <= rows[id].attempts));
    }

    method ClaimRow(id: nat, until: int, worker: string, moment: int) returns (claimed: bool)
      modifies this`rows
      ensures State() == Claim(old(State()), id, until, worker, moment)
      ensures claimed <==> id in old(rows) && Unheld(old(rows)[id], moment)
    {
      claimed := id in rows && Unheld(rows[id], moment);
      if claimed {
        rows := rows[id := rows[id].(reservedUntil := Some(until), reservedBy := Some(worker),
          attempts := rows[id].attempts + 1)];
      }
    }

    method MoveToFailed(id: nat, guard: bool, error: string, failedAt: int) returns (moved: bool)
      modifies this
      ensures moved <==> guard && id in old(rows)
      ensures State() == if moved then Bury(old(State()), id, error, failedAt) else old(State())
    {
      if !guard || id !in rows {
        return false;
      }
      var row := rows[id];
      rows := rows - {id};
      failed := failed[nextFailed := FailedRow(row.queue, row.name, row.payload, row.attempts, error, failedAt)];
      nextFailed := nextFailed + 1;
      moved := true;
    }

    /** One round: the first due row, if there is one, is buried if it is out of attempts and claimed if
        it is not. */
    method Round(queue: string, timeout: int, worker: string, reading: Reading) returns (met: Met)
      modifies this
      ensures RoundDoes(old(State()), queue, timeout, worker, reading, met, State())
    {
      var found := Candidate(queue, reading.moment);
      if found.None? {
        return Nothing;
      }
      var (id, spent) := found.value;
      if spent {
        var guard := rows[id].maxAttempts <= rows[id].attempts && Unheld(rows[id], reading.moment);
        var moved := MoveToFailed(id, guard, EXHAUSTED_ERROR, reading.failedAt);
        return Buried(id);
      }
      var claimed := ClaimRow(id, reading.moment + (if timeout < 1 then 1 else timeout), worker, reading.moment);
      return Claimed(JobOf(id, rows[id], worker));
    }

    /** Claims the first due, unheld row in (priority descending, available_at, id) order. None
        means there was no such row, or that every round met one that was out of attempts. */
    method ReserveFrom(queue: string, timeout: int, worker: string, readings: seq<Reading>)
      returns (job: Option<Job>, ghost buried: seq<nat>)
      requires |readings| == CLAIM_ROUNDS
      modifies this
      ensures ReserveDoes(old(State()), queue, timeout, worker, readings, buried, job, State())
    {
      ghost var db := State();
      buried := [];
      for round := 0 to CLAIM_ROUNDS
        invariant |buried| == round && State() == BuryAll(db, buried, readings)
                  && RoundsSpent(db, queue, buried, readings)
      {
        var met := Round(queue, timeout, worker, readings[round]);
        match met {
          case Nothing => return None, buried;
          case Claimed(claimed) => return Some(claimed), buried;
          case Buried(id) =>
            OneMoreRound(db, queue, buried, readings, id);
            buried := buried + [id];
        }
      }
      job := None;
    }

    method Delete(id: nat, worker: string, attempts: nat) returns (held: bool)
      modifies this`rows
      ensures State() == PgStore.Delete(old(State()), id, worker, attempts)
              && held == old(Holds(State(), id, worker, attempts))
    {
      held := id in rows && Owned(rows[id], worker, attempts);
      if held {
        rows := rows - {id};
      }
    }

    method Release(id: nat, worker: string, attempts: nat, delay: int, error: string, moment: int) returns (held: bool)
      modifies this`rows
      ensures State() == PgStore.Release(old(State()), id, worker, attempts, moment + Max(0, delay), error)
      ensures held == old(Holds(State(), id, worker, attempts))
    {
      held := id in rows && Owned(rows[id], worker, attempts);
      if held {
        var available := if delay < 0 then moment else moment + delay;
        rows := rows[id := rows[id].(reservedUntil := None, reservedBy := None, availableAt := available,
          lastError := error)];
      }
    }

    method Fail(id: nat, worker: string, attempts: nat, error: string, failedAt: int) returns (held: bool)
      modifies this
      ensures State() == PgStore.Fail(old(State()), id, worker, attempts, error, failedAt)
      ensures held == old(Holds(State(), id, worker, attempts))
    {
      held := MoveToFailed(id, id in rows && Owned(rows[id], worker, attempts), error, failedAt);
    }

    /** The ids an operator's command names, in order: one, or all of them. */
    method FailedIds(only: Option<nat>) returns (ids: seq<nat>)
      ensures forall i, j | 0 <= i < j < |ids| :: ids[i] < ids[j]
      ensures forall id :: id in ids <==> id in failed && (only.Some? ==> id == only.value)
    {
      var rest := set id | id in failed && (only.Some? ==> id == only.value);
      ids := [];
      while rest != {}
        invariant forall i, j | 0 <= i < j < |ids| :: ids[i] < ids[j]
        invariant forall id :: id in ids || id in rest <==> id in failed && (only.Some? ==> id == only.value)
        invariant forall i, id | 0 <= i < |ids| && id in rest :: ids[i] < id
        decreases rest
      {
        ghost var least := SomeLeast(rest);
        var id :| id in rest && forall other | other in rest :: id <= other;
        ids, rest := ids + [id], rest - {id};
      }
    }

    /** One transaction of `retry_failed`. */
    method RetryOne(failedId: nat, f: FailedRow, maxAttempts: nat, moment: int)
      modifies this
      ensures State() == RetryRow(old(State()), failedId, f, maxAttempts, moment)
    {
      rows := rows[nextId := NewRow(f.queue, f.name, f.payload, maxAttempts, 0, None, moment, moment)];
      nextId := nextId + 1;
      failed := failed - {failedId};
    }

    /** `retry_failed`: reads the rows, then moves each in a transaction of its own. */
    method RetryFailed(only: Option<nat>, maxAttempts: int, moments: nat -> int)
      returns (requeued: nat, ghost picked: seq<nat>)
      modifies this
      ensures forall id :: id in picked <==> id in old(failed) && (only.Some? ==> id == only.value)
      ensures forall i, j | 0 <= i < j < |picked| :: picked[i] < picked[j]
      ensures requeued == |picked|
              && State() == RetryAll(old(State()), old(failed), picked, Max(1, maxAttempts), moments)
    {
      var ids := FailedIds(only);
      picked := ids;
      ghost var db := State();
      var read := failed;
      var budget: nat := if maxAttempts < 1 then 1 else maxAttempts;
      requeued := 0;
      for i := 0 to |ids|
        invariant requeued == i && State() == RetryAll(db, read, ids[..i], budget, moments)
      {
        RetryOne(ids[i], read[ids[i]], budget, moments(i));
        requeued := requeued + 1;
        OneMoreRetried(db, read, ids, i, budget, moments);
      }
      assert ids[..|ids|] == ids;
    }

    /** `forget_failed`: one id, everything failed before a date, or everything. */
    method ForgetFailed(only: Option<nat>, before: Option<int>) returns (removed: nat)
      modifies this`failed
      ensures failed.Keys <= old(failed).Keys && forall id | id in failed :: failed[id] == old(failed)[id]
      ensures forall id | id in old(failed) ::
                id !in failed <==> if only.Some? then id == only.value
                                   else before.Some? ==> old(failed)[id].failedAt < before.value
      ensures removed == |old(failed)| - |failed|
    {
      var gone := set id | id in failed && Forgets(only, before, id, failed[id]);
      removed := |gone|;
      ghost var was := failed;
      failed := failed - gone;
      assert was.Keys == failed.Keys + gone;
      assert |was| == |was.Keys| && |failed| == |failed.Keys|;
    }
  }
}
