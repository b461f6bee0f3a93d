/** Runs of the Postgres driver: any number of workers and transactions in any order.

    A reserve transaction is two steps, the candidate's SELECT ... FOR UPDATE SKIP LOCKED and the
    statement that follows it. `locking` says whether the row lock of the first is still held when
    the second runs; without it the guard in the second statement is all there is. */
module PgRuns {
  import opened Wrappers
  import opened PgStore

  /** What a reserve transaction has read and not yet acted on. */
  datatype Look = Look(id: nat, moment: int, spent: bool)

  datatype Hand = Hand(id: nat, attempts: nat, maxAttempts: nat)

  /** `picked` is what each operator's `retry_failed` has read and not yet retried; `completed` and
      `moved` are the ids that have left the table, and how. */
  datatype World = World(db: Db, looks: map<string, Look>, hands: map<string, Hand>,
                         picked: map<string, map<nat, FailedRow>>, clock: int, completed: set<nat>, moved: set<nat>)

  datatype Event =
    | DoPush(row: Row)
    | DoLook(worker: string, id: nat, moment: int)
    | DoTake(worker: string, timeout: nat, failedAt: int)
    | DoAbort(worker: string)
    | DoDelete(worker: string)
    | DoRelease(worker: string, availableAt: int, error: string)
    | DoFail(worker: string, error: string, failedAt: int)
    | DoPick(operator: string, only: Option<nat>)
    | DoRetryRow(operator: string, failedId: nat, maxAttempts: nat, moment: int)
    | DoForget(failedId: nat)
    | DoLeave(worker: string)
    | DoTick(to: int)

  /** The row an UPDATE or DELETE of the step would wait for. */
  function RowOf(w: World, e: Event): Option<nat> {
    match e
    case DoDelete(worker) => if worker in w.hands then Some(w.hands[worker].id) else None
    case DoRelease(worker, _, _) => if worker in w.hands then Some(w.hands[worker].id) else None
    case DoFail(worker, _, _) => if worker in w.hands then Some(w.hands[worker].id) else None
    case DoLook(_, id, _) => Some(id)
    case _ => None
  }

  predicate Unlocked(w: World, id: nat) {
    forall worker | worker in w.looks :: w.looks[worker].id != id
  }

  predicate Picks(w: World, operator: string, failedId: nat) {
    operator in w.picked && failedId in w.picked[operator]
  }

  /** The SELECT that opens `retry_failed`: one failed row or all of them. */
  function Picked(db: Db, only: Option<nat>): map<nat, FailedRow> {
    map failedId | failedId in db.failed && (only.Some? ==> failedId == only.value) :: db.failed[failedId]
  }

  predicate Enabled(w: World, e: Event, locking: bool) {
    && (locking && RowOf(w, e).Some? ==> Unlocked(w, RowOf(w, e).value))
    && match e
       case DoPush(row) =>
         row.attempts == 0 && 1 <= row.maxAttempts && row.reservedUntil.None? && row.reservedBy.None?
           && KeyFree(w.db, row.uniqueKey)
       case DoLook(worker, id, moment) =>
         && worker !in w.looks && id in w.db.rows && moment <= w.clock
         && w.db.rows[id].availableAt <= moment && Unheld(w.db.rows[id], moment)
       case DoTake(worker, timeout, _) => worker in w.looks && 1 <= timeout
       case DoAbort(worker) => worker in w.looks
       case DoDelete(worker) => worker in w.hands
       case DoRelease(worker, _, _) => worker in w.hands
       case DoFail(worker, _, _) => worker in w.hands && w.hands[worker].maxAttempts <= w.hands[worker].attempts
       case DoPick(_, _) => true
       case DoRetryRow(operator, failedId, maxAttempts, _) => Picks(w, operator, failedId) && 1 <= maxAttempts
       case DoForget(_) => true
       case DoLeave(_) => true
       case DoTick(to) => w.clock <= to
  }

  predicate TakeClaims(w: World, worker: string) {
    && worker in w.looks && !w.looks[worker].spent
    && w.looks[worker].id in w.db.rows && Unheld(w.db.rows[w.looks[worker].id], w.looks[worker].moment)
  }

  predicate TakeBuries(w: World, worker: string) {
    && worker in w.looks && w.looks[worker].spent && w.looks[worker].id in w.db.rows
    && var row := w.db.rows[w.looks[worker].id]; Spent(row) && Unheld(row, w.looks[worker].moment)
  }

  function Take(w: World, worker: string, timeout: nat, failedAt: int): World
    requires worker in w.looks
  {
    var look := w.looks[worker];
    var v := w.(looks := w.looks - {worker});
    if look.spent then
      v.(db := Exhaust(w.db, look.id, look.moment, failedAt),
         moved := if TakeBuries(w, worker) then w.moved + {look.id} else w.moved)
    else
      var db := Claim(w.db, look.id, look.moment + timeout, worker, look.moment);
      v.(db := db,
         hands := if TakeClaims(w, worker) then
                    w.hands[worker := Hand(look.id, db.rows[look.id].attempts, db.rows[look.id].maxAttempts)]
                      else w.hands)
  }

  predicate HandHolds(w: World, worker: string) {
    worker in w.hands && Holds(w.db, w.hands[worker].id, worker, w.hands[worker].attempts)
  }

  function Apply(w: World, e: Event, locking: bool): World
    requires Enabled(w, e, locking)
  {
    match e
    case DoPush(row) => w.(db := Insert(w.db, row))
    case DoLook(worker, id, moment) => w.(looks := w.looks[worker := Look(id, moment, Spent(w.db.rows[id]))])
    case DoTake(worker, timeout, failedAt) => Take(w, worker, timeout, failedAt)
    case DoAbort(worker) => w.(looks := w.looks - {worker})
    case DoDelete(worker) =>
      var h := w.hands[worker];
      w.(db := Delete(w.db, h.id, worker, h.attempts),
         completed := if HandHolds(w, worker) then w.completed + {h.id} else w.completed)
    case DoRelease(worker, availableAt, error) =>
      w.(db := Release(w.db, w.hands[worker].id, worker, w.hands[worker].attempts, availableAt, error))
    case DoFail(worker, error, failedAt) =>
      var h := w.hands[worker];
      w.(db := Fail(w.db, h.id, worker, h.attempts, error, failedAt),
         moved := if HandHolds(w, worker) then w.moved + {h.id} else w.moved)
    case DoPick(operator, only) => w.(picked := w.picked[operator := Picked(w.db, only)])
    case DoRetryRow(operator, failedId, maxAttempts, moment) =>
      w.(db := RetryRow(w.db, failedId, w.picked[operator][failedId], maxAttempts, moment),
         picked := w.picked[operator := w.picked[operator] - {failedId}])
    case DoForget(failedId) => w.(db := Forget(w.db, failedId))
    case DoLeave(worker) => w.(hands := w.hands - {worker}, looks := w.looks - {worker})
    case DoTick(to) => w.(clock := to)
  }

  datatype Run = Run(worlds: seq<World>, events: seq<Event>, locking: bool)

  predicate StepAt(r: Run, i: nat)
    requires i < |r.events| && |r.worlds| == |r.events| + 1
  {
    Enabled(r.worlds[i], r.events[i], r.locking) && r.worlds[i + 1] == Apply(r.worlds[i], r.events[i], r.locking)
  }

  predicate Fresh(w: World) {
    w.db == EMPTY && w.looks == map[] && w.hands == map[] && w.picked == map[] && w.completed == {} && w.moved == {}
  }

  predicate IsRun(r: Run) {
    && |r.worlds| == |r.events| + 1
    && Fresh(r.worlds[0])
    && forall i | 0 <= i < |r.events| :: StepAt(r, i)
  }

  /////////////////////////////////
  /// Every run, with or without row locks
  /////////////////////////////////

  predicate RowSound(db: Db, id: nat) {
    id in db.rows ==>
      && 1 <= id < db.nextId && 1 <= db.rows[id].maxAttempts
      && (db.rows[id].reservedBy.None? <==> db.rows[id].reservedUntil.None?)
  }

  predicate FailedSound(db: Db, failedId: nat) {
    failedId in db.failed ==> failedId < db.nextFailed
  }

  predicate HandSound(w: World, worker: string) {
    HandHolds(w, worker) ==> w.db.rows[w.hands[worker].id].maxAttempts == w.hands[worker].maxAttempts
  }

  predicate LookSound(w: World, worker: string) {
    worker in w.looks ==> w.looks[worker].moment <= w.clock
  }

  /** What an operator read of a failed row is what is there, if it still is. */
  predicate PickSound(w: World, operator: string, failedId: nat) {
    Picks(w, operator, failedId) ==>
      && failedId < w.db.nextFailed
      && (failedId in w.db.failed ==> w.db.failed[failedId] == w.picked[operator][failedId])
  }

  /** Every id ever issued is in exactly one of: the table, completed, moved to failed. */
  predicate IdAccounted(w: World, id: nat) {
    if 1 <= id < w.db.nextId then
      && (id in w.db.rows || id in w.completed || id in w.moved)
      && !(id in w.db.rows && id in w.completed) && !(id in w.db.rows && id in w.moved)
           && !(id in w.completed && id in w.moved)
    else
      id !in w.db.rows && id !in w.completed && id !in w.moved
  }

  ghost predicate WorldSound(w: World) {
    && 1 <= w.db.nextId
    && (forall id {:trigger RowSound(w.db, id)} :: RowSound(w.db, id))
    && (forall id {:trigger FailedSound(w.db, id)} :: FailedSound(w.db, id))
    && (forall id {:trigger IdAccounted(w, id)} :: IdAccounted(w, id))
    && (forall worker {:trigger HandSound(w, worker)} :: HandSound(w, worker))
    && (forall worker {:trigger LookSound(w, worker)} :: LookSound(w, worker))
    && (forall operator, failedId {:trigger PickSound(w, operator, failedId)} :: PickSound(w, operator, failedId))
  }

  lemma StepKeepsHandSound(w: World, e: Event, locking: bool, worker: string)
    requires WorldSound(w) && Enabled(w, e, locking)
    ensures HandSound(Apply(w, e, locking), worker)
  {
    assert HandSound(w, worker);
    if worker in w.hands {
      assert RowSound(w.db, w.hands[worker].id) && RowSound(w.db, w.db.nextId);
    }
  }

  lemma StepKeepsWorldSound(w: World, e: Event, locking: bool)
    requires WorldSound(w) && Enabled(w, e, locking)
    ensures WorldSound(Apply(w, e, locking))
  {
    var v := Apply(w, e, locking);
    forall id: nat
      ensures RowSound(v.db, id) && FailedSound(v.db, id)
    {
      assert RowSound(w.db, id) && FailedSound(w.db, id);
    }
    forall id: nat
      ensures IdAccounted(v, id)
    {
      assert IdAccounted(w, id) && RowSound(w.db, id);
    }
    forall worker: string
      ensures HandSound(v, worker) && LookSound(v, worker)
    {
      StepKeepsHandSound(w, e, locking, worker);
      assert LookSound(w, worker);
    }
    forall operator: string, failedId: nat
      ensures PickSound(v, operator, failedId)
    {
      assert PickSound(w, operator, failedId) && FailedSound(w.db, failedId);
    }
  }

  lemma {:induction false} RunsStaySound(r: Run, k: nat)
    requires IsRun(r) && k <= |r.events|
    ensures WorldSound(r.worlds[k])
  {
    if 0 < k {
      RunsStaySound(r, k - 1);
      assert StepAt(r, k - 1);
      StepKeepsWorldSound(r.worlds[k - 1], r.events[k - 1], r.locking);
    }
  }

  predicate ClaimsAt(r: Run, i: int, id: nat) {
    && 0 <= i < |r.events| && i < |r.worlds| && r.events[i].DoTake?
    && TakeClaims(r.worlds[i], r.events[i].worker) && r.worlds[i].looks[r.events[i].worker].id == id
  }

  /** The attempt number the claim of step i was given. */
  function AttemptOf(r: Run, i: int, id: nat): nat
    requires ClaimsAt(r, i, id)
  {
    r.worlds[i].db.rows[id].attempts + 1
  }

  lemma {:induction false} AttemptsOnlyGrow(r: Run, id: nat, i: nat, j: nat)
    requires IsRun(r) && i <= j <= |r.events|
    requires id in r.worlds[i].db.rows && id in r.worlds[j].db.rows
    ensures r.worlds[i].db.rows[id].attempts <= r.worlds[j].db.rows[id].attempts
    decreases j
  {
    if i < j {
      assert StepAt(r, j - 1);
      RunsStaySound(r, i);
      RunsStaySound(r, j - 1);
      assert RowSound(r.worlds[i].db, id) && RowSound(r.worlds[j - 1].db, id);
      if id in r.worlds[j - 1].db.rows {
        AttemptsOnlyGrow(r, id, i, j - 1);
      } else {
        IdStaysIssued(r, id, i, j - 1);
      }
    }
  }

  lemma {:induction false} IdStaysIssued(r: Run, id: nat, i: nat, j: nat)
    requires IsRun(r) && i <= j <= |r.events| && id < r.worlds[i].db.nextId
    ensures id < r.worlds[j].db.nextId
    decreases j
  {
    if i < j {
      IdStaysIssued(r, id, i, j - 1);
      assert StepAt(r, j - 1);
    }
  }

  /** An (id, attempts) pair names at most one claim, whatever the interleaving, so the guard on
      every completion addresses that one. */
  lemma AttemptNamesOneClaim(r: Run, i: nat, j: nat, id: nat)
    requires IsRun(r) && i < j && ClaimsAt(r, i, id) && ClaimsAt(r, j, id)
    ensures AttemptOf(r, i, id) < AttemptOf(r, j, id)
  {
    assert StepAt(r, i) && StepAt(r, j);
    AttemptsOnlyGrow(r, id, i + 1, j);
  }

  /** Every issued id is in exactly one place, and stays accounted for. */
  lemma EveryIdIsAccountedFor(r: Run, k: nat)
    requires IsRun(r) && k <= |r.events|
    ensures forall id :: IdAccounted(r.worlds[k], id)
  {
    RunsStaySound(r, k);
  }

  /////////////////////////////////
  /// Runs in which the row lock is held
  /////////////////////////////////

  /** The locked candidate is still what the SELECT saw, and no other transaction has it. */
  predicate LookFresh(w: World, worker: string) {
    worker in w.looks ==>
      var look := w.looks[worker];
      && look.id in w.db.rows && Unheld(w.db.rows[look.id], look.moment)
           && w.db.rows[look.id].availableAt <= look.moment
      && (look.spent <==> Spent(w.db.rows[look.id]))
      && forall other | other in w.looks && other != worker :: w.looks[other].id != look.id
  }

  /** Budgets hold, and a held row was due when it was claimed. */
  predicate RowKept(w: World, id: nat) {
    id in w.db.rows ==>
      && w.db.rows[id].attempts <= w.db.rows[id].maxAttempts
      && (w.db.rows[id].reservedUntil.Some? ==> w.db.rows[id].availableAt <= w.clock)
  }

  ghost predicate WorldLocked(w: World) {
    && (forall worker {:trigger LookFresh(w, worker)} :: LookFresh(w, worker))
    && (forall id {:trigger RowKept(w, id)} :: RowKept(w, id))
  }

  lemma StepKeepsLookFresh(w: World, e: Event, worker: string)
    requires WorldSound(w) && WorldLocked(w) && Enabled(w, e, true)
    ensures LookFresh(Apply(w, e, true), worker)
  {
    assert LookFresh(w, worker);
    if worker in w.looks {
      assert RowSound(w.db, w.looks[worker].id) && RowSound(w.db, w.db.nextId);
    }
    if e.DoTake? || e.DoLook? {
      assert LookFresh(w, e.worker);
    }
  }

  lemma StepKeepsWorldLocked(w: World, e: Event)
    requires WorldSound(w) && WorldLocked(w) && Enabled(w, e, true)
    ensures WorldLocked(Apply(w, e, true))
  {
    var v := Apply(w, e, true);
    forall worker: string
      ensures LookFresh(v, worker)
    {
      StepKeepsLookFresh(w, e, worker);
    }
    forall id: nat
      ensures RowKept(v, id)
    {
      assert RowKept(w, id) && RowSound(w.db, id);
      if e.DoTake? {
        assert LookFresh(w, e.worker) && LookSound(w, e.worker);
      }
    }
  }

  lemma {:induction false} LockedRunsStayLocked(r: Run, k: nat)
    requires IsRun(r) && r.locking && k <= |r.events|
    ensures WorldLocked(r.worlds[k]) && WorldSound(r.worlds[k])
  {
    RunsStaySound(r, k);
    if 0 < k {
      LockedRunsStayLocked(r, k - 1);
      assert StepAt(r, k - 1);
      StepKeepsWorldLocked(r.worlds[k - 1], r.events[k - 1]);
    }
  }

  /** With the lock held no attempt budget is ever overspent. */
  lemma AttemptsStayInBudget(r: Run, k: nat, id: nat)
    requires IsRun(r) && r.locking && k <= |r.events| && id in r.worlds[k].db.rows
    ensures r.worlds[k].db.rows[id].attempts <= r.worlds[k].db.rows[id].maxAttempts
  {
    LockedRunsStayLocked(r, k);
    assert RowKept(r.worlds[k], id);
  }

  /** With the lock held a candidate is never lost: the second statement claims or buries the row
      the first one chose, which is due and has its attempts judged as they stand. */
  lemma CandidateIsNeverLost(r: Run, k: nat)
    requires IsRun(r) && r.locking && k < |r.events| && r.events[k].DoTake?
    ensures var w, worker := r.worlds[k], r.events[k].worker;
            && (TakeClaims(w, worker) || TakeBuries(w, worker))
            && (TakeClaims(w, worker) ==> !Spent(w.db.rows[w.looks[worker].id]))
            && w.db.rows[w.looks[worker].id].availableAt <= w.looks[worker].moment <= w.clock
  {
    LockedRunsStayLocked(r, k);
    assert StepAt(r, k) && LookFresh(r.worlds[k], r.events[k].worker) && LookSound(r.worlds[k], r.events[k].worker);
  }

  /** A held row was due when it was claimed, so at the present moment no row is both held and not
      yet due; without the lock one can be. */
  lemma HeldRowsAreDue(r: Run, k: nat, id: nat)
    requires IsRun(r) && r.locking && k <= |r.events| && id in r.worlds[k].db.rows
    ensures !Unheld(r.worlds[k].db.rows[id], r.worlds[k].clock) ==>
            r.worlds[k].db.rows[id].availableAt <= r.worlds[k].clock
  {
    LockedRunsStayLocked(r, k);
    assert RowKept(r.worlds[k], id);
  }

  /////////////////////////////////
  /// What the lock is for
  /////////////////////////////////

  function Last(r: Run): World
    requires |r.worlds| == |r.events| + 1
  {
    r.worlds[|r.events|]
  }

  lemma Extend(r: Run, e: Event) returns (longer: Run)
    requires IsRun(r) && Enabled(Last(r), e, r.locking)
    ensures IsRun(longer) && Last(longer) == Apply(Last(r), e, r.locking) && longer.locking == r.locking
    ensures longer.events == r.events + [e]
  {
    longer := Run(r.worlds + [Apply(Last(r), e, r.locking)], r.events + [e], r.locking);
    forall i | 0 <= i < |longer.events|
      ensures StepAt(longer, i)
    {
      assert i < |r.events| ==> StepAt(r, i);
    }
  }

  /** Without the row lock the guard still keeps claims apart, but not within the budget: two
      workers look at the only attempt of a job, the first puts it back, the second claims it. */
  lemma WithoutTheLockBudgetsOverspend() returns (r: Run)
    ensures IsRun(r) && !r.locking && 1 in Last(r).db.rows
    ensures Last(r).db.rows[1].maxAttempts < Last(r).db.rows[1].attempts
  {
    var row := NewRow("default", "send", "{}", 1, 0, None, 10, 10);
    r := Run([World(EMPTY, map[], map[], map[], 10, {}, {})], [], false);
    r := Extend(r, DoPush(row));
    assert Last(r).db.rows == map[1 := row];
    r := Extend(r, DoLook("a", 1, 10));
    r := Extend(r, DoLook("b", 1, 10));
    r := Extend(r, DoTake("a", 5, 10));
    r := Extend(r, DoRelease("a", 10, ""));
    assert Last(r).db.rows[1] == row.(attempts := 1);
    r := Extend(r, DoTake("b", 5, 10));
  }
}
