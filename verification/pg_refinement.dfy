/** The Postgres driver refines the same abstract queue, with or without row locks, up to the ids
    failed jobs are given. */
module PgRefinement {
  import opened Wrappers
  import opened PgStore
  import opened PgRuns
  import Spec = QueueSpec

  function AbsJob(row: Row): Spec.Job {
    Spec.Job(row.queue, row.name, row.payload, row.attempts, row.maxAttempts, row.priority, row.uniqueKey,
      row.availableAt,
             if row.reservedBy.None? || row.reservedUntil.None? then None
             else Some(Spec.Holder(row.reservedBy.value, row.reservedUntil.value)))
  }

  function AbsFailed(f: FailedRow): Spec.FailedJob {
    Spec.FailedJob(f.queue, f.name, f.payload, f.attempts)
  }

  function AbsHand(h: Hand): Spec.Hand {
    Spec.Hand(h.id, h.attempts, h.maxAttempts)
  }

  predicate RowRelated(db: Db, a: Spec.World, id: nat) {
    (id in a.live <==> id in db.rows) && (id in a.live ==> a.live[id] == AbsJob(db.rows[id]))
  }

  predicate FailedRelated(db: Db, a: Spec.World, id: nat) {
    (id in a.failed <==> id in db.failed) && (id in a.failed ==> a.failed[id] == AbsFailed(db.failed[id]))
  }

  predicate HandRelated(w: World, a: Spec.World, worker: string) {
    (worker in a.hands <==> worker in w.hands) && (worker in a.hands ==> a.hands[worker] == AbsHand(w.hands[worker]))
  }

  ghost predicate Related(w: World, a: Spec.World) {
    && (forall id {:trigger RowRelated(w.db, a, id)} :: RowRelated(w.db, a, id))
    && (forall id {:trigger FailedRelated(w.db, a, id)} :: FailedRelated(w.db, a, id))
    && (forall worker {:trigger HandRelated(w, a, worker)} :: HandRelated(w, a, worker))
    && a.clock == w.clock
  }

  /** Retrying a failed row that is meanwhile gone amounts to pushing its job again. */
  function AbsEvent(w: World, e: Event, locking: bool): Spec.Event
    requires Enabled(w, e, locking)
  {
    match e
    case DoPush(row) => Spec.Push(w.db.nextId, AbsJob(row))
    case DoTake(worker, timeout, _) =>
      var look := w.looks[worker];
      if TakeClaims(w, worker) then Spec.Claim(look.id, worker, look.moment, look.moment + timeout)
      else if TakeBuries(w, worker) then Spec.Exhaust(look.id, look.moment, w.db.nextFailed)
      else Spec.Stutter
    case DoDelete(worker) => Spec.Complete(worker)
    case DoRelease(worker, availableAt, _) => Spec.Release(worker, availableAt)
    case DoFail(worker, _, _) => Spec.Fail(worker, w.db.nextFailed)
    case DoPick(_, _) => Spec.Stutter
    case DoRetryRow(operator, failedId, maxAttempts, moment) =>
      var f := w.picked[operator][failedId];
      if failedId in w.db.failed then Spec.Retry(failedId, w.db.nextId, maxAttempts, moment)
      else Spec.Push(w.db.nextId, AbsJob(NewRow(f.queue, f.name, f.payload, maxAttempts, 0, None, moment, moment)))
    case DoForget(failedId) => if failedId in w.db.failed then Spec.Forget(failedId) else Spec.Stutter
    case DoLeave(worker) => Spec.Drop(worker)
    case DoTick(to) => Spec.Tick(to)
    case DoLook(_, _, _) => Spec.Stutter
    case DoAbort(_) => Spec.Stutter
  }

  lemma HoldsMeansEffective(w: World, a: Spec.World, worker: string)
    requires WorldSound(w) && Related(w, a) && worker in w.hands
    ensures worker in a.hands && (HandHolds(w, worker) <==> Spec.Effective(a, worker))
  {
    assert HandRelated(w, a, worker) && RowRelated(w.db, a, w.hands[worker].id) && RowSound(w.db, w.hands[worker].id);
  }

  lemma EventIsEnabled(w: World, e: Event, locking: bool, a: Spec.World)
    requires WorldSound(w) && Related(w, a) && Enabled(w, e, locking)
    ensures Spec.Enabled(a, AbsEvent(w, e, locking))
  {
    assert RowRelated(w.db, a, w.db.nextId) && RowSound(w.db, w.db.nextId);
    assert FailedRelated(w.db, a, w.db.nextFailed) && FailedSound(w.db, w.db.nextFailed);
    match e
    case DoPush(row) =>
      forall id | id in a.live
        ensures id in w.db.rows && a.live[id] == AbsJob(w.db.rows[id])
      {
        assert RowRelated(w.db, a, id);
      }
    case DoTake(worker, _, _) => assert LookSound(w, worker) && RowRelated(w.db, a, w.looks[worker].id);
    case DoDelete(worker) => assert HandRelated(w, a, worker);
    case DoRelease(worker, _, _) => assert HandRelated(w, a, worker);
    case DoFail(worker, _, _) => assert HandRelated(w, a, worker);
    case DoRetryRow(_, failedId, _, _) => assert FailedRelated(w.db, a, failedId);
    case DoForget(failedId) => assert FailedRelated(w.db, a, failedId);
    case _ =>
  }

  predicate OnRows(e: Event) {
    e.DoTake? || e.DoDelete? || e.DoRelease? || e.DoFail?
  }

  lemma RowsStayRelated(w: World, e: Event, locking: bool, a: Spec.World)
    requires WorldSound(w) && Related(w, a) && Enabled(w, e, locking) && Spec.Enabled(a, AbsEvent(w, e, locking))
             && OnRows(e)
    ensures Related(Apply(w, e, locking), Spec.Apply(a, AbsEvent(w, e, locking)))
  {
    var v, b := Apply(w, e, locking), Spec.Apply(a, AbsEvent(w, e, locking));
    if e.worker in w.hands {
      HoldsMeansEffective(w, a, e.worker);
      assert HandRelated(w, a, e.worker) && RowRelated(w.db, a, w.hands[e.worker].id)
          && RowSound(w.db, w.hands[e.worker].id);
    }
    if e.DoTake? {
      assert RowRelated(w.db, a, w.looks[e.worker].id);
    }
    forall id: nat
      ensures RowRelated(v.db, b, id) && FailedRelated(v.db, b, id)
    {
      assert RowRelated(w.db, a, id) && FailedRelated(w.db, a, id);
    }
    forall worker: string
      ensures HandRelated(v, b, worker)
    {
      assert HandRelated(w, a, worker);
    }
  }

  /** Every statement is one step of the abstract queue, or none. */
  lemma StepRefines(w: World, e: Event, locking: bool, a: Spec.World)
    requires WorldSound(w) && Related(w, a) && Enabled(w, e, locking)
    ensures Spec.Enabled(a, AbsEvent(w, e, locking))
    ensures Related(Apply(w, e, locking), Spec.Apply(a, AbsEvent(w, e, locking)))
  {
    EventIsEnabled(w, e, locking, a);
    var v, b := Apply(w, e, locking), Spec.Apply(a, AbsEvent(w, e, locking));
    if OnRows(e) {
      RowsStayRelated(w, e, locking, a);
    } else {
      if e.DoRetryRow? {
        assert FailedRelated(w.db, a, e.failedId) && PickSound(w, e.operator, e.failedId);
      }
      forall id: nat
        ensures RowRelated(v.db, b, id) && FailedRelated(v.db, b, id)
      {
        assert RowRelated(w.db, a, id) && FailedRelated(w.db, a, id);
      }
      forall worker: string
        ensures HandRelated(v, b, worker)
      {
        assert HandRelated(w, a, worker);
      }
    }
  }

  function AbsEventAt(r: Run, k: nat): Spec.Event
    requires IsRun(r) && k < |r.events|
  {
    assert StepAt(r, k);
    AbsEvent(r.worlds[k], r.events[k], r.locking)
  }

  /** The abstract queue, driven by what the driver did in its first k steps. */
  function AbsWorldAt(r: Run, k: nat): Spec.World
    requires IsRun(r) && k <= |r.events|
  {
    if k == 0 then Spec.World(map[], map[], map[], r.worlds[0].clock)
    else
      var a, e := AbsWorldAt(r, k - 1), AbsEventAt(r, k - 1);
      if Spec.Enabled(a, e) then Spec.Apply(a, e) else a
  }

  function AbsRun(r: Run): Spec.Run
    requires IsRun(r)
  {
    Spec.Run(seq(|r.events| + 1, i requires 0 <= i <= |r.events| => AbsWorldAt(r, i)),
             seq(|r.events|, i requires 0 <= i < |r.events| => AbsEventAt(r, i)))
  }

  lemma {:induction false} WorldsStayRelated(r: Run, k: nat)
    requires IsRun(r) && k <= |r.events|
    ensures WorldSound(r.worlds[k]) && Related(r.worlds[k], AbsWorldAt(r, k))
  {
    RunsStaySound(r, k);
    if k == 0 {
      forall id: nat
        ensures RowRelated(r.worlds[0].db, AbsWorldAt(r, 0), id) && FailedRelated(r.worlds[0].db, AbsWorldAt(r, 0), id)
      {
      }
      forall worker: string
        ensures HandRelated(r.worlds[0], AbsWorldAt(r, 0), worker)
      {
      }
    } else {
      WorldsStayRelated(r, k - 1);
      assert StepAt(r, k - 1);
      StepRefines(r.worlds[k - 1], r.events[k - 1], r.locking, AbsWorldAt(r, k - 1));
    }
  }

  lemma ClaimsAreBudgeted(r: Run, i: nat)
    requires IsRun(r) && r.locking && i < |r.events| && AbsEventAt(r, i).Claim?
    ensures var a, id := AbsWorldAt(r, i), AbsEventAt(r, i).id;
            id in a.live && a.live[id].attempts < a.live[id].maxAttempts
  {
    CandidateIsNeverLost(r, i);
    WorldsStayRelated(r, i);
    assert RowRelated(r.worlds[i].db, AbsWorldAt(r, i), AbsEventAt(r, i).id);
  }

  lemma StepAtRefines(r: Run, i: nat)
    requires IsRun(r) && i < |r.events|
    ensures Spec.StepAt(AbsRun(r), i)
  {
    assert StepAt(r, i);
    WorldsStayRelated(r, i);
    StepRefines(r.worlds[i], r.events[i], r.locking, AbsWorldAt(r, i));
  }

  /** Every run of the driver is a run of the abstract queue. With the row lock held it never
      overspends an attempt budget. */
  lemma RunRefines(r: Run)
    requires IsRun(r)
    ensures Spec.IsRun(AbsRun(r)) && (r.locking ==> Spec.Budgeted(AbsRun(r)))
  {
    forall i | 0 <= i < |r.events|
      ensures Spec.StepAt(AbsRun(r), i)
      ensures r.locking && Spec.ClaimAt(AbsRun(r), i) ==>
                var a, e := AbsWorldAt(r, i), AbsEventAt(r, i);
                  e.id in a.live && a.live[e.id].attempts < a.live[e.id].maxAttempts
    {
      StepAtRefines(r, i);
      if r.locking && AbsEventAt(r, i).Claim? {
        ClaimsAreBudgeted(r, i);
      }
    }
  }

  /** The worker that claimed at step i deletes, releases or fails at step k, still holding. */
  predicate EndsItsClaim(r: Run, i: int, k: int, id: nat) {
    && ClaimsAt(r, i, id) && i < k < |r.events| && k < |r.worlds|
    && var w, e := r.worlds[k], r.events[k];
    && (e.DoDelete? || e.DoRelease? || e.DoFail?)
    && e.worker == r.events[i].worker && HandHolds(w, e.worker) && w.hands[e.worker].id == id
  }

  lemma EndRefines(r: Run, i: nat, k: nat, id: nat)
    requires IsRun(r) && ClaimsAt(r, i, id) && Spec.EndsClaim(AbsRun(r), k, i)
    ensures EndsItsClaim(r, i, k, id)
  {
    assert StepAt(r, i) && StepAt(r, k);
    assert AbsRun(r).events[i] == AbsEventAt(r, i) && AbsRun(r).events[k] == AbsEventAt(r, k);
    assert AbsRun(r).worlds[k] == AbsWorldAt(r, k);
    WorldsStayRelated(r, k);
    var worker := AbsEventAt(r, k).worker;
    assert HandRelated(r.worlds[k], AbsWorldAt(r, k), worker);
    HoldsMeansEffective(r.worlds[k], AbsWorldAt(r, k), worker);
  }

  /** The guard of the claiming UPDATE is enough: even without row locks, claim periods of one job
      never overlap unless the holder ended its claim early. */
  lemma GuardAloneKeepsClaimsApart(r: Run, i: nat, j: nat, id: nat)
    requires IsRun(r) && i < j && ClaimsAt(r, i, id) && ClaimsAt(r, j, id)
    ensures || r.worlds[i].looks[r.events[i].worker].moment + r.events[i].timeout <= r.worlds[j].clock
            || exists k | i < k < j :: EndsItsClaim(r, i, k, id)
  {
    RunRefines(r);
    assert StepAt(r, i) && StepAt(r, j);
    assert AbsRun(r).events[i] == AbsEventAt(r, i) && AbsRun(r).events[j] == AbsEventAt(r, j);
    Spec.ClaimsNeverOverlap(AbsRun(r), i, j);
    if exists k | i < k < j :: Spec.EndsClaim(AbsRun(r), k, i) {
      var k :| i < k < j && Spec.EndsClaim(AbsRun(r), k, i);
      EndRefines(r, i, k, id);
    } else {
      WorldsStayRelated(r, j);
    }
  }

  /** A worker whose delete, release or fail takes effect made the newest claim of the row, and no
      second one takes effect for it. */
  lemma HolderMadeTheNewestClaim(r: Run, k: nat) returns (i: nat)
    requires IsRun(r) && k < |r.events|
    requires var e := r.events[k]; (e.DoDelete? || e.DoRelease? || e.DoFail?) && HandHolds(r.worlds[k], e.worker)
    ensures var id := r.worlds[k].hands[r.events[k].worker].id;
            && EndsItsClaim(r, i, k, id) && (forall m | i < m < k :: !ClaimsAt(r, m, id))
            && forall m | k < m < |r.events| :: !Spec.EndsClaim(AbsRun(r), m, i)
  {
    var worker := r.events[k].worker;
    var id := r.worlds[k].hands[worker].id;
    assert StepAt(r, k);
    RunRefines(r);
    WorldsStayRelated(r, k);
    HoldsMeansEffective(r.worlds[k], AbsWorldAt(r, k), worker);
    assert HandRelated(r.worlds[k], AbsWorldAt(r, k), worker);
    assert AbsRun(r).events[k] == AbsEventAt(r, k) && AbsRun(r).worlds[k] == AbsWorldAt(r, k);
    i := Spec.CompletionEndsOwnClaim(AbsRun(r), k);
    assert AbsRun(r).events[i] == AbsEventAt(r, i) && StepAt(r, i);
    EndRefines(r, i, k, id);
    forall m | i < m < k
      ensures !ClaimsAt(r, m, id)
    {
      assert StepAt(r, m) && AbsRun(r).events[m] == AbsEventAt(r, m) && !Spec.ClaimOf(AbsRun(r), m, id);
    }
    forall m | k < m < |r.events|
      ensures !Spec.EndsClaim(AbsRun(r), m, i)
    {
      Spec.CompletionTakesEffectOnce(AbsRun(r), k, m, i);
    }
  }

  /////////////////////////////////
  /// Conservation
  /////////////////////////////////

  /** The step retries a failed row that somebody else has retried or forgotten since it was read. */
  predicate RetriesGoneRow(w: World, e: Event) {
    e.DoRetryRow? && e.failedId !in w.db.failed
  }

  function Pushes(r: Run, k: nat): nat
    requires k <= |r.events|
  {
    if k == 0 then 0 else Pushes(r, k - 1) + if r.events[k - 1].DoPush? then 1 else 0
  }

  function GoneRowRetries(r: Run, k: nat): nat
    requires k <= |r.events| < |r.worlds|
  {
    if k == 0 then 0
    else GoneRowRetries(r, k - 1) + if RetriesGoneRow(r.worlds[k - 1], r.events[k - 1]) then 1 else 0
  }

  lemma {:induction false} AbstractPushesSplit(r: Run, k: nat)
    requires IsRun(r) && k <= |r.events|
    ensures Spec.TallyOf(AbsRun(r), k).pushed == Pushes(r, k) + GoneRowRetries(r, k)
  {
    if 0 < k {
      AbstractPushesSplit(r, k - 1);
      assert StepAt(r, k - 1) && AbsRun(r).events[k - 1] == AbsEventAt(r, k - 1);
    }
  }

  lemma TablesCountTheirJobs(r: Run, k: nat)
    requires IsRun(r) && k <= |r.events|
    ensures |r.worlds[k].db.failed| == |AbsWorldAt(r, k).failed| && |r.worlds[k].db.rows| == |AbsWorldAt(r, k).live|
  {
    var db, a := r.worlds[k].db, AbsWorldAt(r, k);
    WorldsStayRelated(r, k);
    forall id: nat
      ensures (id in a.failed <==> id in db.failed) && (id in a.live <==> id in db.rows)
    {
      assert RowRelated(db, a, id) && FailedRelated(db, a, id);
    }
    assert a.failed.Keys == db.failed.Keys && a.live.Keys == db.rows.Keys;
    assert |a.failed| == |a.failed.Keys| && |db.failed| == |db.failed.Keys|;
    assert |a.live| == |a.live.Keys| && |db.rows| == |db.rows.Keys|;
  }

  /** The failed table holds the jobs moved there and not yet retried or forgotten, and every job in
      either table, completed or forgotten was pushed, or added by retrying a row that was gone. */
  lemma FailedRowsAreConserved(r: Run, k: nat)
    requires IsRun(r) && k <= |r.events|
    ensures var t, db := Spec.TallyOf(AbsRun(r), k), r.worlds[k].db;
            && |db.failed| == t.moved - t.retried - t.forgotten
            && |db.rows| + |db.failed| + t.completed + t.forgotten == Pushes(r, k) + GoneRowRetries(r, k)
  {
    RunRefines(r);
    assert AbsRun(r).worlds[k] == AbsWorldAt(r, k);
    Spec.JobsAreConserved(AbsRun(r), k);
    TablesCountTheirJobs(r, k);
    AbstractPushesSplit(r, k);
  }

  lemma {:induction false} NoneGoneIff(r: Run, k: nat)
    requires IsRun(r) && k <= |r.events|
    ensures GoneRowRetries(r, k) == 0 <==> forall i | 0 <= i < k :: !RetriesGoneRow(r.worlds[i], r.events[i])
  {
    if 0 < k {
      NoneGoneIff(r, k - 1);
    }
  }

  /** Retrying moves jobs and adds none, over a whole run, if and only if every row retried was still
      in the failed table at that moment: reading the rows first does not guarantee it. */
  lemma RetryingAddsNoJobIff(r: Run, k: nat)
    requires IsRun(r) && k <= |r.events|
    ensures var t, db := Spec.TallyOf(AbsRun(r), k), r.worlds[k].db;
            |db.rows| + |db.failed| + t.completed + t.forgotten == Pushes(r, k) <==>
            forall i | 0 <= i < k :: !RetriesGoneRow(r.worlds[i], r.events[i])
  {
    FailedRowsAreConserved(r, k);
    NoneGoneIff(r, k);
  }

  lemma {:induction false} PushesOfPrefix(r: Run, longer: Run, k: nat)
    requires k <= |r.events| <= |longer.events| && r.events == longer.events[..|r.events|]
    ensures Pushes(longer, k) == Pushes(r, k)
  {
    if 0 < k {
      PushesOfPrefix(r, longer, k - 1);
    }
  }

  lemma ExtendCounted(r: Run, e: Event) returns (longer: Run)
    requires IsRun(r) && Enabled(Last(r), e, r.locking)
    ensures IsRun(longer) && Last(longer) == Apply(Last(r), e, r.locking) && longer.locking == r.locking
    ensures Pushes(longer, |longer.events|) == Pushes(r, |r.events|) + if e.DoPush? then 1 else 0
  {
    longer := Extend(r, e);
    PushesOfPrefix(r, longer, |r.events|);
  }

  const SENT := NewRow("default", "send", "{}", 1, 0, None, 10, 10)
  const FAILED_ROWS := map[1 := FailedRow("default", "send", "{}", 1, "boom", 10)]

  lemma OneFailedJob() returns (r: Run)
    ensures IsRun(r) && r.locking && Pushes(r, |r.events|) == 1
    ensures Last(r).db == Db(map[], FAILED_ROWS, 2, 2) && Last(r).picked == map[]
  {
    r := Run([World(EMPTY, map[], map[], map[], 10, {}, {})], [], true);
    r := ExtendCounted(r, DoPush(SENT));
    assert Last(r).db.rows == map[1 := SENT];
    r := ExtendCounted(r, DoLook("w", 1, 10));
    r := ExtendCounted(r, DoTake("w", 5, 10));
    r := ExtendCounted(r, DoFail("w", "boom", 10));
    assert Last(r).db.rows == map[] && Last(r).db.failed == FAILED_ROWS;
  }

  lemma BothHavePicked() returns (r: Run)
    ensures IsRun(r) && r.locking && Pushes(r, |r.events|) == 1
    ensures Last(r).db == Db(map[], FAILED_ROWS, 2, 2)
    ensures {"a", "b"} <= Last(r).picked.Keys && Last(r).picked["a"] == Last(r).picked["b"] == FAILED_ROWS
  {
    r := OneFailedJob();
    r := ExtendCounted(r, DoPick("a", None));
    assert Last(r).picked["a"] == FAILED_ROWS;
    r := ExtendCounted(r, DoPick("b", None));
  }

  /** Two operators retry all failed jobs at once: the one job that was pushed is there twice. */
  lemma TwoRetriesAddAJob() returns (r: Run)
    ensures IsRun(r) && r.locking && Pushes(r, |r.events|) == 1
    ensures var back := NewRow("default", "send", "{}", 3, 0, None, 10, 10);
            Last(r).db.rows == map[2 := back, 3 := back]
  {
    r := BothHavePicked();
    r := ExtendCounted(r, DoRetryRow("a", 1, 3, 10));
    var back := NewRow("default", "send", "{}", 3, 0, None, 10, 10);
    assert Last(r).db == Db(map[2 := back], map[], 3, 2);
    assert Last(r).picked["b"] == FAILED_ROWS;
    r := ExtendCounted(r, DoRetryRow("b", 1, 3, 10));
    assert Last(r).db.rows == map[2 := back][3 := back];
  }

  /** No retry or forget reaches a failed row that another operator has read and not yet retried. */
  predicate LeavesPicksAlone(w: World, e: Event) {
    match e
    case DoRetryRow(operator, failedId, _, _) => forall other | other in w.picked && other != operator ::
      failedId !in w.picked[other]
    case DoForget(failedId) => forall other | other in w.picked :: failedId !in w.picked[other]
    case _ => true
  }

  predicate PicksStillThere(w: World, operator: string, failedId: nat) {
    Picks(w, operator, failedId) ==> failedId in w.db.failed
  }

  lemma {:induction false} PicksStayThere(r: Run, k: nat, operator: string, failedId: nat)
    requires IsRun(r) && k <= |r.events| && forall i | 0 <= i < k :: LeavesPicksAlone(r.worlds[i], r.events[i])
    ensures PicksStillThere(r.worlds[k], operator, failedId)
  {
    if 0 < k {
      PicksStayThere(r, k - 1, operator, failedId);
      assert StepAt(r, k - 1) && LeavesPicksAlone(r.worlds[k - 1], r.events[k - 1]);
    }
  }

  /** So operators who keep out of each other's way, one at a time or on different rows, add no job. */
  lemma SeparateRetriesAddNoJob(r: Run, k: nat)
    requires IsRun(r) && k <= |r.events| && forall i | 0 <= i < k :: LeavesPicksAlone(r.worlds[i], r.events[i])
    ensures var t, db := Spec.TallyOf(AbsRun(r), k), r.worlds[k].db;
            |db.rows| + |db.failed| + t.completed + t.forgotten == Pushes(r, k)
  {
    forall i | 0 <= i < k
      ensures !RetriesGoneRow(r.worlds[i], r.events[i])
    {
      assert StepAt(r, i);
      if r.events[i].DoRetryRow? {
        PicksStayThere(r, i, r.events[i].operator, r.events[i].failedId);
      }
    }
    RetryingAddsNoJobIff(r, k);
  }
}
