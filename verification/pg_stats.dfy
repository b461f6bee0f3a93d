/** The counts `stats` reports for one queue. */
module PgStats {
  import opened Wrappers
  import opened PgStore
  import opened PgRuns
  import Refinement = PgRefinement
  import Spec = QueueSpec

  datatype Stats = Stats(pending: nat, delayed: nat, reserved: nat, total: nat)

  function InQueue(db: Db, queue: string): set<nat> {
    set id | id in db.rows && db.rows[id].queue == queue
  }

  function PendingRows(db: Db, queue: string, moment: int): set<nat> {
    set id | id in InQueue(db, queue) && db.rows[id].availableAt <= moment && Unheld(db.rows[id], moment)
  }

  function DelayedRows(db: Db, queue: string, moment: int): set<nat> {
    set id | id in InQueue(db, queue) && moment < db.rows[id].availableAt
  }

  function ReservedRows(db: Db, queue: string, moment: int): set<nat> {
    set id | id in InQueue(db, queue) && !Unheld(db.rows[id], moment)
  }

  function StatsOf(db: Db, queue: string, moment: int): Stats {
    Stats(|PendingRows(db, queue, moment)|, |DelayedRows(db, queue, moment)|, |ReservedRows(db, queue, moment)|,
      |InQueue(db, queue)|)
  }

  lemma ColumnsHaveTheirRows(db: Db, a: Spec.World, queue: string, moment: int)
    requires forall id {:trigger Refinement.RowRelated(db, a, id)} :: Refinement.RowRelated(db, a, id)
    requires forall id {:trigger RowSound(db, id)} :: RowSound(db, id)
    ensures InQueue(db, queue) == set id | id in a.live && a.live[id].queue == queue
    ensures PendingRows(db, queue, moment)
         == set id | id in a.live && a.live[id].queue == queue && a.live[id].availableAt <= moment
                     && a.live[id].Unheld(moment)
    ensures DelayedRows(db, queue, moment)
         == set id | id in a.live && a.live[id].queue == queue && moment < a.live[id].availableAt
    ensures ReservedRows(db, queue, moment)
         == set id | id in a.live && a.live[id].queue == queue && a.live[id].holder.Some?
                     && moment < a.live[id].holder.value.until
  {
    forall id: nat
      ensures id in db.rows <==> id in a.live
      ensures id in db.rows ==>
                && a.live[id].queue == db.rows[id].queue && a.live[id].availableAt == db.rows[id].availableAt
                && (Unheld(db.rows[id], moment) <==> a.live[id].Unheld(moment))
    {
      assert Refinement.RowRelated(db, a, id) && RowSound(db, id);
    }
  }

  /** In every run each column counts the jobs of the queue it is named for: pending those a worker could
      claim at that moment, delayed those not yet due, reserved those a worker holds, total all of them. */
  lemma ColumnsCountTheirJobs(r: Run, k: nat, queue: string, moment: int)
    requires IsRun(r) && k <= |r.events|
    ensures var a, s := Refinement.AbsRun(r).worlds[k], StatsOf(r.worlds[k].db, queue, moment);
            && s.total == |set id | id in a.live && a.live[id].queue == queue|
            && s.pending == |set id | id in a.live && a.live[id].queue == queue && a.live[id].availableAt <= moment
                                      && a.live[id].Unheld(moment)|
            && s.delayed == |set id | id in a.live && a.live[id].queue == queue && moment < a.live[id].availableAt|
            && s.reserved == |set id | id in a.live && a.live[id].queue == queue && a.live[id].holder.Some?
                                       && moment < a.live[id].holder.value.until|
  {
    Refinement.WorldsStayRelated(r, k);
    RunsStaySound(r, k);
    assert Refinement.AbsRun(r).worlds[k] == Refinement.AbsWorldAt(r, k);
    ColumnsHaveTheirRows(r.worlds[k].db, Refinement.AbsWorldAt(r, k), queue, moment);
  }

  /** By the moment of the report the row is still held, and not yet due. */
  predicate HeldBeforeDue(row: Row, moment: int) {
    moment < row.availableAt && !Unheld(row, moment)
  }

  /** The three columns add up to the fourth exactly when no row is held and not yet due at once. */
  lemma StatsSplitIff(db: Db, queue: string, moment: int)
    ensures var s := StatsOf(db, queue, moment);
            s.pending + s.delayed + s.reserved == s.total <==>
            forall id | id in InQueue(db, queue) :: !HeldBeforeDue(db.rows[id], moment)
  {
    var p, d, h := PendingRows(db, queue, moment), DelayedRows(db, queue, moment), ReservedRows(db, queue, moment);
    assert InQueue(db, queue) == p + (d + h) && p !! (d + h);
    assert |p + (d + h)| == |p| + |d + h| && |d + h| == |d| + |h| - |d * h|;
    if forall id | id in InQueue(db, queue) :: !HeldBeforeDue(db.rows[id], moment) {
      assert d * h == {};
    } else {
      var id :| id in InQueue(db, queue) && HeldBeforeDue(db.rows[id], moment);
      assert id in d * h;
    }
  }

  /** In a run with the row lock held only a report that looks back can fail to add up, and it fails
      exactly when it looks back past the due time of a job that is held by now; the rows it counts
      twice have all become due since. */
  lemma StatsSplitUnlessLookingBack(r: Run, k: nat, queue: string, moment: int)
    requires IsRun(r) && r.locking && k <= |r.events| && moment <= r.worlds[k].clock
    ensures var db, s := r.worlds[k].db, StatsOf(r.worlds[k].db, queue, moment);
            && (s.pending + s.delayed + s.reserved == s.total <==>
                  forall id | id in InQueue(db, queue) && !Unheld(db.rows[id], moment) ::
                      db.rows[id].availableAt <= moment)
            && forall id | id in InQueue(db, queue) && HeldBeforeDue(db.rows[id], moment) ::
                 moment < db.rows[id].availableAt <= r.worlds[k].clock
  {
    var db := r.worlds[k].db;
    StatsSplitIff(db, queue, moment);
    forall id | id in InQueue(db, queue) && HeldBeforeDue(db.rows[id], moment)
      ensures db.rows[id].availableAt <= r.worlds[k].clock
    {
      LockedRunsStayLocked(r, k);
      assert RowKept(r.worlds[k], id);
    }
    assert forall id | id in InQueue(db, queue) ::
        HeldBeforeDue(db.rows[id], moment) <==> !Unheld(db.rows[id], moment) && moment < db.rows[id].availableAt;
  }

  /** So a report whose moment is the present one adds up in every such run. */
  lemma StatsSplitTheQueue(r: Run, k: nat, queue: string)
    requires IsRun(r) && r.locking && k <= |r.events|
    ensures var s := StatsOf(r.worlds[k].db, queue, r.worlds[k].clock);
            s.pending + s.delayed + s.reserved == s.total
  {
    StatsSplitUnlessLookingBack(r, k, queue, r.worlds[k].clock);
  }

  /** Looking back does happen: a job due at second 10 is claimed then, and a report whose moment was
      read at second 9 counts it twice. */
  lemma LateReportCountsTwice() returns (r: Run)
    ensures IsRun(r) && r.locking && 9 <= Last(r).clock
    ensures StatsOf(Last(r).db, "default", 9) == Stats(0, 1, 1, 1)
  {
    var row := NewRow("default", "send", "{}", 1, 0, None, 10, 9);
    r := Run([World(EMPTY, map[], map[], map[], 10, {}, {})], [], true);
    r := Extend(r, DoPush(row));
    assert Last(r).db.rows == map[1 := row];
    r := Extend(r, DoLook("a", 1, 10));
    r := Extend(r, DoTake("a", 5, 10));
    var db := Last(r).db;
    assert db.rows == map[1 := row.(attempts := 1, reservedUntil := Some(15), reservedBy := Some("a"))];
    assert InQueue(db, "default") == {1} && PendingRows(db, "default", 9) == {};
    assert DelayedRows(db, "default", 9) == {1} && ReservedRows(db, "default", 9) == {1};
  }
}
