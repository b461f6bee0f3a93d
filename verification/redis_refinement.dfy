/** The Redis driver refines the queue of waiting, held and failed jobs, so its runs inherit every
    theorem of that queue: whatever the timeouts, clocks and interleaving. */
module RedisRefinement {
  import opened Wrappers
  import opened RedisStore
  import opened RedisInvariant
  import opened RedisRuns
  import Spec = QueueSpec

  function AbsJob(h: Hash): Spec.Job {
    Spec.Job(h.queue, h.name, h.payload, h.attempts, h.maxAttempts, h.priority,
             if h.uniqueKey == "" then None else Some(h.uniqueKey), h.availableAt,
             if h.reservedBy == "" then None else Some(Spec.Holder(h.reservedBy, h.reservedUntil)))
  }

  function AbsFailed(h: Hash): Spec.FailedJob {
    Spec.FailedJob(h.queue, h.name, h.payload, h.attempts)
  }

  function AbsHand(h: Hand): Spec.Hand {
    Spec.Hand(h.id, h.attempts, h.maxAttempts)
  }

  /** The hash of a job in the failed set is a failed job, every other hash is a live one. */
  predicate JobRelated(s: Store, a: Spec.World, id: nat) {
    && (id in a.live <==> id in s.jobs && id !in s.failed)
    && (id in a.live ==> a.live[id] == AbsJob(s.jobs[id]))
    && (id in a.failed <==> id in s.jobs && id in s.failed)
    && (id in a.failed ==> a.failed[id] == AbsFailed(s.jobs[id]))
  }

  predicate HandRelated(w: World, a: Spec.World, worker: string) {
    && (worker in a.hands <==> worker in w.hands)
    && (worker in a.hands ==> a.hands[worker] == AbsHand(w.hands[worker]))
  }

  /** The abstract clock counts seconds. */
  ghost predicate Related(w: World, a: Spec.World) {
    && (forall id {:trigger JobRelated(w.store, a, id)} :: JobRelated(w.store, a, id))
    && (forall worker {:trigger HandRelated(w, a, worker)} :: HandRelated(w, a, worker))
    && a.clock == w.clock / 1000
  }

  /** The job a push asks for. */
  function PushedJob(a: PushArgs): Spec.Job {
    Spec.Job(a.queue, a.name, a.payload, 0, a.maxAttempts, a.priority,
             if a.unique == "" then None else Some(a.unique), a.availableAt, None)
  }

  /** A promotion, a parking and a tombstone change nothing the caller can see; nor does finding a
      job exhausted that has already failed. */
  function AbsEvent(w: World, e: Event): Spec.Event
    requires Enabled(w, e)
  {
    match e
    case DoPush(a) => if KeyTaken(w.store, a.unique) then Spec.Stutter
      else Spec.Push(w.store.seqNo + 1, PushedJob(a))
    case DoPromote(_, _, _) => Spec.Stutter
    case DoVisit(slot, c) =>
      var id := w.store.entries[slot].job;
      if OutcomeOf(w.store, slot, c.now) == Claimed then Spec.Claim(id, c.worker, c.now, c.now + c.timeout)
      else if OutcomeOf(w.store, slot, c.now) == Exhausted && id !in w.store.failed then Spec.Exhaust(id, c.now, id)
      else Spec.Stutter
    case DoComplete(worker) => Spec.Complete(worker)
    case DoRelease(worker, availableAt, _) => Spec.Release(worker, availableAt)
    case DoFail(worker, _, _, _) =>
      if Holds(w.store, worker, w.hands[worker]) then Spec.Fail(worker, w.hands[worker].id) else Spec.Stutter
    case DoRequeue(id, maxAttempts, now) =>
      if id in w.store.failed && id in w.store.jobs then Spec.Retry(id, id, maxAttempts, now) else Spec.Stutter
    case DoForget(id) => if id in w.store.failed && id in w.store.jobs then Spec.Forget(id) else Spec.Stutter
    case DoLeave(worker) => Spec.Drop(worker)
    case DoTick(to) => Spec.Tick(to / 1000)
  }

  ghost predicate Simulates(w: World, e: Event, a: Spec.World)
    requires Enabled(w, e)
  {
    Spec.Enabled(a, AbsEvent(w, e)) && Related(Apply(w, e), Spec.Apply(a, AbsEvent(w, e)))
  }

  lemma HoldsMeansEffective(w: World, a: Spec.World, worker: string)
    requires WorldSound(w) && Related(w, a) && worker in w.hands
    ensures worker in a.hands && (Holds(w.store, worker, w.hands[worker]) <==> Spec.Effective(a, worker))
    ensures Holds(w.store, worker, w.hands[worker]) ==> w.hands[worker].id !in w.store.failed
  {
    assert HandSound(w, worker) && HandRelated(w, a, worker);
    assert JobSound(w.store, w.hands[worker].id) && JobRelated(w.store, a, w.hands[worker].id);
  }

  lemma HandsStayRelated(w: World, a: Spec.World, v: World, b: Spec.World)
    requires Related(w, a) && v.hands == w.hands && b.hands == a.hands
    ensures forall worker {:trigger HandRelated(v, b, worker)} :: HandRelated(v, b, worker)
  {
    forall worker: string
      ensures HandRelated(v, b, worker)
    {
      assert HandRelated(w, a, worker);
    }
  }

  lemma PushSimulates(w: World, e: Event, a: Spec.World)
    requires WorldSound(w) && Related(w, a) && Enabled(w, e) && e.DoPush?
    ensures Simulates(w, e, a)
  {
    var s, t := w.store, Apply(w, e).store;
    if !KeyTaken(s, e.args.unique) {
      NewIdIsNamedNowhere(s, s.seqNo + 1);
      assert JobRelated(s, a, s.seqNo + 1);
      forall id | id in a.live && e.args.unique != ""
        ensures a.live[id].uniqueKey != Some(e.args.unique)
      {
        assert JobRelated(s, a, id) && JobSound(s, id);
      }
      var b := Spec.Apply(a, AbsEvent(w, e));
      forall id: nat
        ensures JobRelated(t, b, id)
      {
        assert JobRelated(s, a, id);
      }
      HandsStayRelated(w, a, Apply(w, e), b);
    }
  }

  lemma PromoteSimulates(w: World, e: Event, a: Spec.World)
    requires WorldSound(w) && Related(w, a) && Enabled(w, e) && e.DoPromote?
    ensures Simulates(w, e, a)
  {
    forall id: nat
      ensures JobRelated(Apply(w, e).store, a, id)
    {
      assert JobRelated(w.store, a, id);
    }
    HandsStayRelated(w, a, Apply(w, e), a);
  }

  lemma ClaimSimulates(w: World, e: Event, a: Spec.World)
    requires WorldSound(w) && Related(w, a) && Enabled(w, e) && AbsEvent(w, e).Claim?
    ensures Simulates(w, e, a)
  {
    var s, job := w.store, w.store.entries[e.slot].job;
    assert JobSound(s, job) && JobRelated(s, a, job);
    var v, b := Apply(w, e), Spec.Apply(a, AbsEvent(w, e));
    forall id: nat
      ensures JobRelated(v.store, b, id)
    {
      assert JobRelated(s, a, id);
    }
    forall worker: string
      ensures HandRelated(v, b, worker)
    {
      assert HandRelated(w, a, worker);
    }
  }

  lemma ExhaustSimulates(w: World, e: Event, a: Spec.World)
    requires WorldSound(w) && Related(w, a) && Enabled(w, e) && AbsEvent(w, e).Exhaust?
    ensures Simulates(w, e, a)
  {
    var s, job := w.store, w.store.entries[e.slot].job;
    assert JobSound(s, job) && JobRelated(s, a, job);
    var v, b := Apply(w, e), Spec.Apply(a, AbsEvent(w, e));
    forall id: nat
      ensures JobRelated(v.store, b, id)
    {
      assert JobRelated(s, a, id);
    }
    HandsStayRelated(w, a, v, b);
  }

  lemma HiddenVisitSimulates(w: World, e: Event, a: Spec.World)
    requires WorldSound(w) && Related(w, a) && Enabled(w, e) && e.DoVisit? && AbsEvent(w, e).Stutter?
    ensures Simulates(w, e, a)
  {
    forall id: nat
      ensures JobRelated(Apply(w, e).store, a, id)
    {
      assert JobRelated(w.store, a, id) && JobSound(w.store, id);
    }
    HandsStayRelated(w, a, Apply(w, e), a);
  }

  lemma CompletionSimulates(w: World, e: Event, a: Spec.World)
    requires WorldSound(w) && Related(w, a) && Enabled(w, e) && (e.DoComplete? || e.DoRelease? || e.DoFail?)
    ensures Simulates(w, e, a)
  {
    var h := w.hands[e.worker];
    HoldsMeansEffective(w, a, e.worker);
    assert HandRelated(w, a, e.worker) && JobRelated(w.store, a, h.id) && JobSound(w.store, h.id);
    var v, b := Apply(w, e), Spec.Apply(a, AbsEvent(w, e));
    forall id: nat
      ensures JobRelated(v.store, b, id)
    {
      assert JobRelated(w.store, a, id);
    }
    HandsStayRelated(w, a, v, b);
  }

  lemma OperatorSimulates(w: World, e: Event, a: Spec.World)
    requires WorldSound(w) && Related(w, a) && Enabled(w, e) && (e.DoRequeue? || e.DoForget?)
    ensures Simulates(w, e, a)
  {
    assert JobSound(w.store, e.id) && FailedSound(w.store, e.id) && JobRelated(w.store, a, e.id);
    var v, b := Apply(w, e), Spec.Apply(a, AbsEvent(w, e));
    forall id: nat
      ensures JobRelated(v.store, b, id)
    {
      assert JobRelated(w.store, a, id);
    }
    HandsStayRelated(w, a, v, b);
  }

  lemma OutsideSimulates(w: World, e: Event, a: Spec.World)
    requires Related(w, a) && Enabled(w, e) && (e.DoLeave? || e.DoTick?)
    ensures Simulates(w, e, a)
  {
    var v, b := Apply(w, e), Spec.Apply(a, AbsEvent(w, e));
    forall id: nat
      ensures JobRelated(v.store, b, id)
    {
      assert JobRelated(w.store, a, id);
    }
    forall worker: string
      ensures HandRelated(v, b, worker)
    {
      assert HandRelated(w, a, worker);
    }
  }

  /** Every script is one step of the abstract queue, or none. */
  lemma StepRefines(w: World, e: Event, a: Spec.World)
    requires WorldSound(w) && Related(w, a) && Enabled(w, e)
    ensures Simulates(w, e, a)
  {
    match e
    case DoPush(_) => PushSimulates(w, e, a);
    case DoPromote(_, _, _) => PromoteSimulates(w, e, a);
    case DoVisit(_, _) =>
      match AbsEvent(w, e) {
        case Claim(_, _, _, _) => ClaimSimulates(w, e, a);
        case Exhaust(_, _, _) => ExhaustSimulates(w, e, a);
        case _ => HiddenVisitSimulates(w, e, a);
      }
    case DoComplete(_) => CompletionSimulates(w, e, a);
    case DoRelease(_, _, _) => CompletionSimulates(w, e, a);
    case DoFail(_, _, _, _) => CompletionSimulates(w, e, a);
    case DoRequeue(_, _, _) => OperatorSimulates(w, e, a);
    case DoForget(_) => OperatorSimulates(w, e, a);
    case DoLeave(_) => OutsideSimulates(w, e, a);
    case DoTick(_) => OutsideSimulates(w, e, a);
  }

  /** A spent budget is never claimed against. */
  lemma ClaimsAreBudgeted(w: World, e: Event, a: Spec.World)
    requires WorldSound(w) && Related(w, a) && Enabled(w, e) && AbsEvent(w, e).Claim?
    ensures var id := AbsEvent(w, e).id;
            id in a.live && a.live[id].attempts < a.live[id].maxAttempts
  {
    assert JobSound(w.store, AbsEvent(w, e).id) && JobRelated(w.store, a, AbsEvent(w, e).id);
  }

  function AbsEventAt(r: Run, k: nat): Spec.Event
    requires IsRun(r) && k < |r.events|
  {
    assert StepAt(r, k);
    AbsEvent(r.worlds[k], r.events[k])
  }

  /** The abstract queue, driven by what the driver did in its first k steps. */
  function AbsWorldAt(r: Run, k: nat): Spec.World
    requires IsRun(r) && k <= |r.events|
  {
    if k == 0 then Spec.World(map[], map[], map[], r.worlds[0].clock / 1000)
    else
      var a, e := AbsWorldAt(r, k - 1), AbsEventAt(r, k - 1);
      if Spec.Enabled(a, e) then Spec.Apply(a, e) else a
  }

  function AbsRun(r: Run): Spec.Run
    requires IsRun(r)
  {
    Spec.Run(seq(|r.events| + 1, i requires 0 <= i <= |r.events| => AbsWorldAt(r, i)),
             seq(|r.events|, i requires 0 <= i < |r.events| => AbsEventAt(r, i)))
  }

  lemma {:induction false} WorldsStayRelated(r: Run, k: nat)
    requires IsRun(r) && k <= |r.events|
    ensures WorldSound(r.worlds[k]) && Related(r.worlds[k], AbsWorldAt(r, k))
  {
    RunsStaySound(r, k);
    if k == 0 {
      forall id: nat
        ensures JobRelated(r.worlds[0].store, AbsWorldAt(r, 0), id)
      {
      }
      forall worker: string
        ensures HandRelated(r.worlds[0], AbsWorldAt(r, 0), worker)
      {
      }
    } else {
      WorldsStayRelated(r, k - 1);
      assert StepAt(r, k - 1);
      StepRefines(r.worlds[k - 1], r.events[k - 1], AbsWorldAt(r, k - 1));
    }
  }

  /** Every run of the driver is a run of the abstract queue, and one that never overspends an
      attempt budget. */
  lemma RunRefines(r: Run)
    requires IsRun(r)
    ensures Spec.IsRun(AbsRun(r)) && Spec.Budgeted(AbsRun(r))
  {
    forall i | 0 <= i < |r.events|
      ensures Spec.StepAt(AbsRun(r), i)
      ensures Spec.ClaimAt(AbsRun(r), i) ==>
                var a, e := AbsWorldAt(r, i), AbsEventAt(r, i);
                  e.id in a.live && a.live[e.id].attempts < a.live[e.id].maxAttempts
    {
      assert StepAt(r, i);
      WorldsStayRelated(r, i);
      StepRefines(r.worlds[i], r.events[i], AbsWorldAt(r, i));
      if AbsEventAt(r, i).Claim? {
        ClaimsAreBudgeted(r.worlds[i], r.events[i], AbsWorldAt(r, i));
      }
    }
  }

  predicate ClaimsJob(r: Run, i: int, id: nat) {
    && 0 <= i < |r.events| && i < |r.worlds| && r.events[i].DoVisit? && r.events[i].slot in r.worlds[i].store.entries
    && OutcomeOf(r.worlds[i].store, r.events[i].slot, r.events[i].caller.now) == Claimed
    && r.worlds[i].store.entries[r.events[i].slot].job == id
  }

  /** The worker that claimed at step i calls complete, release or fail at step k, still holding. */
  predicate EndsItsClaim(r: Run, i: int, k: int, id: nat) {
    && ClaimsJob(r, i, id) && i < k < |r.events| && k < |r.worlds|
    && var w, e := r.worlds[k], r.events[k];
    && (e.DoComplete? || e.DoRelease? || e.DoFail?)
    && e.worker == r.events[i].caller.worker && e.worker in w.hands && w.hands[e.worker].id == id
    && Holds(w.store, e.worker, w.hands[e.worker])
  }

  lemma EndRefines(r: Run, i: nat, k: nat, id: nat)
    requires IsRun(r) && ClaimsJob(r, i, id) && Spec.EndsClaim(AbsRun(r), k, i)
    ensures EndsItsClaim(r, i, k, id)
  {
    assert StepAt(r, i) && StepAt(r, k);
    assert AbsRun(r).events[i] == AbsEventAt(r, i) && AbsRun(r).events[k] == AbsEventAt(r, k);
    assert AbsRun(r).worlds[k] == AbsWorldAt(r, k);
    WorldsStayRelated(r, k);
    var worker := AbsEventAt(r, k).worker;
    HoldsMeansEffective(r.worlds[k], AbsWorldAt(r, k), worker);
    assert HandRelated(r.worlds[k], AbsWorldAt(r, k), worker);
  }

  /** Even with mixed timeouts and lagging clocks, so that parking and duplicate entries do occur,
      no job is claimed while an earlier claim's deadline lies ahead, unless that claim's own
      holder ended it. */
  lemma NoTwoWorkersHoldOneJob(r: Run, i: nat, j: nat, id: nat)
    requires IsRun(r) && i < j && ClaimsJob(r, i, id) && ClaimsJob(r, j, id)
    ensures || r.events[i].caller.now + r.events[i].caller.timeout <= r.worlds[j].clock / 1000
            || exists k | i < k < j :: EndsItsClaim(r, i, k, id)
  {
    RunRefines(r);
    assert StepAt(r, i) && StepAt(r, j);
    assert AbsRun(r).events[i] == AbsEventAt(r, i) && AbsRun(r).events[j] == AbsEventAt(r, j);
    Spec.ClaimsNeverOverlap(AbsRun(r), i, j);
    if exists k | i < k < j :: Spec.EndsClaim(AbsRun(r), k, i) {
      var k :| i < k < j && Spec.EndsClaim(AbsRun(r), k, i);
      EndRefines(r, i, k, id);
    } else {
      WorldsStayRelated(r, j);
    }
  }

  /** A worker whose complete, release or fail takes effect made the newest claim of the job, so a
      stale one can never end somebody else's, not even after a retry has reset the attempts. */
  lemma HolderMadeTheNewestClaim(r: Run, k: nat, id: nat) returns (i: nat)
    requires IsRun(r) && k < |r.events|
    requires var w, e := r.worlds[k], r.events[k];
             && (e.DoComplete? || e.DoRelease? || e.DoFail?)
             && e.worker in w.hands && w.hands[e.worker].id == id && Holds(w.store, e.worker, w.hands[e.worker])
    ensures EndsItsClaim(r, i, k, id) && forall m | i < m < k :: !ClaimsJob(r, m, id)
  {
    var worker := r.events[k].worker;
    assert StepAt(r, k);
    RunRefines(r);
    WorldsStayRelated(r, k);
    HoldsMeansEffective(r.worlds[k], AbsWorldAt(r, k), worker);
    assert HandRelated(r.worlds[k], AbsWorldAt(r, k), worker);
    assert AbsRun(r).events[k] == AbsEventAt(r, k) && AbsRun(r).worlds[k] == AbsWorldAt(r, k);
    i := Spec.CompletionEndsOwnClaim(AbsRun(r), k);
    assert AbsRun(r).events[i] == AbsEventAt(r, i) && StepAt(r, i);
    EndRefines(r, i, k, id);
    forall m | i < m < k
      ensures !ClaimsJob(r, m, id)
    {
      assert StepAt(r, m) && AbsRun(r).events[m] == AbsEventAt(r, m) && !Spec.ClaimOf(AbsRun(r), m, id);
    }
  }

  /** No job is lost or duplicated: the failed set holds those moved there and not yet retried or
      forgotten, and every job pushed has its hash until it completes or is forgotten. */
  lemma HashesAreConserved(r: Run, k: nat)
    requires IsRun(r) && k <= |r.events|
    ensures var s, t := r.worlds[k].store, Spec.TallyOf(AbsRun(r), k);
            && |s.failed| == t.moved - t.retried - t.forgotten
            && |s.jobs| + t.completed + t.forgotten == t.pushed
  {
    var s, a := r.worlds[k].store, AbsWorldAt(r, k);
    RunRefines(r);
    WorldsStayRelated(r, k);
    assert AbsRun(r).worlds[k] == a;
    Spec.JobsAreConserved(AbsRun(r), k);
    forall id: nat
      ensures id in a.failed <==> id in s.failed
      ensures id in a.live <==> id in s.jobs && id !in s.failed
      ensures id in s.failed ==> id in s.jobs
    {
      assert JobRelated(s, a, id) && FailedSound(s, id);
    }
    assert a.failed.Keys == s.failed.Keys && s.jobs.Keys == a.live.Keys + a.failed.Keys;
    assert |a.failed| == |a.failed.Keys| && |s.failed| == |s.failed.Keys|;
    assert |a.live| == |a.live.Keys| && |s.jobs| == |s.jobs.Keys|;
  }

  /** Each time a job is put on the queue it is handed out at most `max_attempts` times. */
  lemma HandedOutWithinBudget(r: Run, k: nat, id: nat)
    requires IsRun(r) && k <= |r.events| && id in r.worlds[k].store.jobs && id !in r.worlds[k].store.failed
    ensures Spec.ClaimsSinceQueued(AbsRun(r), id, k) == r.worlds[k].store.jobs[id].attempts
            <= r.worlds[k].store.jobs[id].maxAttempts
  {
    RunRefines(r);
    WorldsStayRelated(r, k);
    assert AbsRun(r).worlds[k] == AbsWorldAt(r, k) && JobRelated(r.worlds[k].store, AbsWorldAt(r, k), id);
    Spec.ClaimsStayInBudget(AbsRun(r), id, k);
  }
}
