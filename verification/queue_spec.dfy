/** What both storage drivers owe their callers, stated once: a queue of jobs that are waiting,
    held until a deadline, or failed, together with the workers that hold them.

    The drivers are shown elsewhere to take only steps of this machine, so every theorem about
    its runs is a theorem about theirs. */
module QueueSpec {
  import opened Wrappers

  /** A claim is a deadline, not a flag: after `until` the job may be claimed again. */
  datatype Holder = Holder(worker: string, until: int)

  datatype Job = Job(queue: string, name: string, payload: string, attempts: nat, maxAttempts: nat,
                     priority: int, uniqueKey: Option<string>, availableAt: int, holder: Option<Holder>)
  {
    predicate Unheld(now: int) {
      holder.None? || holder.value.until <= now
    }
  }

  datatype FailedJob = FailedJob(queue: string, name: string, payload: string, attempts: nat)

  /** What a worker remembers of its newest claim. It is never given back: a stale worker may
      present it at any later time, any number of times. */
  datatype Hand = Hand(id: nat, attempts: nat, maxAttempts: nat)

  datatype World = World(live: map<nat, Job>, failed: map<nat, FailedJob>, hands: map<string, Hand>, clock: int)

  /** Failed jobs and live jobs are numbered separately, because one driver renumbers a job when
      it fails and the other does not. */
  datatype Event =
    | Push(id: nat, job: Job)
    | Claim(id: nat, worker: string, now: int, until: int)
    | Complete(worker: string)
    | Release(worker: string, availableAt: int)
    | Fail(worker: string, failedId: nat)
    | Exhaust(id: nat, now: int, failedId: nat)
    | Retry(failedId: nat, id: nat, maxAttempts: nat, now: int)
    | Forget(failedId: nat)
    | Drop(worker: string)
    | Tick(to: int)
    | Stutter

  predicate Ends(e: Event) {
    e.Complete? || e.Release? || e.Fail?
  }

  /** The worker's remembered claim is still the one the job is under. */
  predicate Effective(w: World, worker: string) {
    && worker in w.hands
    && var hand := w.hands[worker];
    && hand.id in w.live
    && w.live[hand.id].attempts == hand.attempts
    && w.live[hand.id].holder.Some?
    && w.live[hand.id].holder.value.worker == worker
  }

  predicate KeyFree(w: World, key: Option<string>) {
    key.Some? ==> forall id | id in w.live :: w.live[id].uniqueKey != key
  }

  predicate Enabled(w: World, e: Event) {
    match e
    case Push(id, job) =>
      && id !in w.live && job.attempts == 0 && 1 <= job.maxAttempts && job.holder.None?
      && KeyFree(w, job.uniqueKey)
    case Claim(id, worker, now, until) => id in w.live && w.live[id].Unheld(now) && now <= w.clock
    case Complete(worker) => worker in w.hands
    case Release(worker, _) => worker in w.hands
    case Fail(worker, failedId) =>
      && worker in w.hands && failedId !in w.failed
      && w.hands[worker].maxAttempts <= w.hands[worker].attempts
    case Exhaust(id, now, failedId) =>
      && id in w.live && w.live[id].Unheld(now) && now <= w.clock
      && w.live[id].maxAttempts <= w.live[id].attempts && failedId !in w.failed
    case Retry(failedId, id, maxAttempts, _) => failedId in w.failed && id !in w.live && 1 <= maxAttempts
    case Forget(failedId) => failedId in w.failed
    case Drop(_) => true
    case Tick(to) => w.clock <= to
    case Stutter => true
  }

  function Bury(w: World, id: nat, failedId: nat): World
    requires id in w.live
  {
    var job := w.live[id];
    w.(live := w.live - {id},
       failed := w.failed[failedId := FailedJob(job.queue, job.name, job.payload, job.attempts)])
  }

  function Apply(w: World, e: Event): World
    requires Enabled(w, e)
  {
    match e
    case Push(id, job) => w.(live := w.live[id := job])
    case Claim(id, worker, now, until) =>
      var job := w.live[id].(attempts := w.live[id].attempts + 1, holder := Some(Holder(worker, until)));
      w.(live := w.live[id := job], hands := w.hands[worker := Hand(id, job.attempts, job.maxAttempts)])
    case Complete(worker) => if Effective(w, worker) then w.(live := w.live - {w.hands[worker].id}) else w
    case Release(worker, availableAt) =>
      if Effective(w, worker) then
        var id := w.hands[worker].id;
        w.(live := w.live[id := w.live[id].(holder := None, availableAt := availableAt)])
      else w
    case Fail(worker, failedId) => if Effective(w, worker) then Bury(w, w.hands[worker].id, failedId) else w
    case Exhaust(id, _, failedId) => Bury(w, id, failedId)
    case Retry(failedId, id, maxAttempts, now) =>
      var f := w.failed[failedId];
      w.(live := w.live[id := Job(f.queue, f.name, f.payload, 0, maxAttempts, 0, None, now, None)],
         failed := w.failed - {failedId})
    case Forget(failedId) => w.(failed := w.failed - {failedId})
    case Drop(worker) => w.(hands := w.hands - {worker})
    case Tick(to) => w.(clock := to)
    case Stutter => w
  }

  datatype Run = Run(worlds: seq<World>, events: seq<Event>)

  predicate Fresh(w: World) {
    w.live == map[] && w.failed == map[] && w.hands == map[]
  }

  predicate StepAt(r: Run, i: nat)
    requires i < |r.events| && |r.worlds| == |r.events| + 1
  {
    Enabled(r.worlds[i], r.events[i]) && r.worlds[i + 1] == Apply(r.worlds[i], r.events[i])
  }

  predicate IsRun(r: Run) {
    && |r.worlds| == |r.events| + 1
    && Fresh(r.worlds[0])
    && forall i | 0 <= i < |r.events| :: StepAt(r, i)
  }

  predicate ClaimAt(r: Run, i: int) {
    0 <= i < |r.events| && i < |r.worlds| && r.events[i].Claim?
  }

  predicate ClaimOf(r: Run, i: int, id: nat) {
    ClaimAt(r, i) && r.events[i].id == id
  }

  predicate ClaimBy(r: Run, i: int, worker: string) {
    ClaimAt(r, i) && r.events[i].worker == worker
  }

  /** At step k the worker that made the claim of step i ends it, having claimed nothing since. */
  predicate EndsClaim(r: Run, k: int, i: int) {
    && ClaimAt(r, i) && i < k < |r.events| && k < |r.worlds|
    && Ends(r.events[k]) && r.events[k].worker == r.events[i].worker
    && Effective(r.worlds[k], r.events[k].worker)
    && r.worlds[k].hands[r.events[k].worker].id == r.events[i].id
    && forall m | i < m < k :: !ClaimBy(r, m, r.events[i].worker)
  }

  /////////////////////////////////
  /// Claim periods do not overlap
  /////////////////////////////////

  /** Between the claim of step i and step m, nobody else has claimed the job and its worker has
      not gone on to another claim of it. */
  ghost predicate StillHeld(r: Run, i: nat, m: nat)
    requires IsRun(r) && ClaimAt(r, i) && i < m <= |r.events|
  {
    var e, w := r.events[i], r.worlds[m];
    && e.id in w.live
    && w.live[e.id].holder == Some(Holder(e.worker, e.until))
    && (e.worker in w.hands && w.hands[e.worker].id == e.id ==>
          forall k | i < k < m :: !ClaimBy(r, k, e.worker))
  }

  lemma {:induction false} HeldUntilDeadlineOrEnd(r: Run, i: nat, m: nat)
    requires IsRun(r) && ClaimAt(r, i) && i < m <= |r.events|
    ensures || StillHeld(r, i, m)
            || r.events[i].until <= r.worlds[m].clock
            || exists k | i < k < m :: EndsClaim(r, k, i)
    decreases m
  {
    assert StepAt(r, m - 1);
    if m == i + 1 {
    } else {
      HeldUntilDeadlineOrEnd(r, i, m - 1);
      if StillHeld(r, i, m - 1) {
        var e, w, next := r.events[m - 1], r.worlds[m - 1], r.worlds[m];
        if Ends(e) && Effective(w, e.worker) && w.hands[e.worker].id == r.events[i].id {
          assert EndsClaim(r, m - 1, i);
        } else if ClaimBy(r, m - 1, r.events[i].worker) && e.id != r.events[i].id {
          assert next.hands[e.worker].id != r.events[i].id;
        }
      }
    }
  }

  /** Two claims of one job never overlap: when the later one is made, the earlier deadline has
      passed or the earlier holder has ended its own claim. */
  lemma ClaimsNeverOverlap(r: Run, i: nat, j: nat)
    requires IsRun(r) && i < j && ClaimAt(r, i) && ClaimOf(r, j, r.events[i].id)
    ensures r.events[i].until <= r.worlds[j].clock || exists k | i < k < j :: EndsClaim(r, k, i)
  {
    assert StepAt(r, j);
    HeldUntilDeadlineOrEnd(r, i, j);
  }

  /////////////////////////////////
  /// A completion ends its own claim, and only once
  /////////////////////////////////

  ghost predicate LastClaimOf(r: Run, c: nat, id: nat, k: nat) {
    c < k && ClaimOf(r, c, id) && forall m | c < m < k :: !ClaimOf(r, m, id)
  }

  ghost predicate LastClaimBy(r: Run, c: nat, worker: string, k: nat) {
    c < k && ClaimBy(r, c, worker) && forall m | c < m < k :: !ClaimBy(r, m, worker)
  }

  lemma {:induction false} HolderClaimed(r: Run, id: nat, k: nat) returns (c: nat)
    requires IsRun(r) && k <= |r.events|
    requires id in r.worlds[k].live && r.worlds[k].live[id].holder.Some?
    ensures LastClaimOf(r, c, id, k) && r.events[c].worker == r.worlds[k].live[id].holder.value.worker
    decreases k
  {
    assert StepAt(r, k - 1);
    if ClaimOf(r, k - 1, id) {
      c := k - 1;
    } else {
      c := HolderClaimed(r, id, k - 1);
    }
  }

  lemma {:induction false} HandClaimed(r: Run, worker: string, k: nat) returns (c: nat)
    requires IsRun(r) && k <= |r.events|
    requires worker in r.worlds[k].hands
    ensures LastClaimBy(r, c, worker, k) && r.events[c].id == r.worlds[k].hands[worker].id
    decreases k
  {
    assert StepAt(r, k - 1);
    if ClaimBy(r, k - 1, worker) {
      c := k - 1;
    } else {
      c := HandClaimed(r, worker, k - 1);
    }
  }

  /** A completion that takes effect ends the newest claim of the job, which is also the newest
      claim of the worker presenting it: it can never drop somebody else's claim. */
  lemma CompletionEndsOwnClaim(r: Run, k: nat) returns (c: nat)
    requires IsRun(r) && k < |r.events| && Ends(r.events[k])
    requires Effective(r.worlds[k], r.events[k].worker)
    ensures EndsClaim(r, k, c)
    ensures LastClaimOf(r, c, r.worlds[k].hands[r.events[k].worker].id, k)
    ensures LastClaimBy(r, c, r.events[k].worker, k)
  {
    var worker := r.events[k].worker;
    c := HolderClaimed(r, r.worlds[k].hands[worker].id, k);
    var byWorker := HandClaimed(r, worker, k);
    assert ClaimBy(r, c, worker) && ClaimOf(r, byWorker, r.events[c].id);
  }

  lemma {:induction false} UnheldUntilClaimed(r: Run, id: nat, i: nat, j: nat)
    requires IsRun(r) && i <= j <= |r.events|
    requires id in r.worlds[i].live ==> r.worlds[i].live[id].holder.None?
    requires forall m | i <= m < j :: !ClaimOf(r, m, id)
    ensures id in r.worlds[j].live ==> r.worlds[j].live[id].holder.None?
    decreases j
  {
    if i < j {
      UnheldUntilClaimed(r, id, i, j - 1);
      assert StepAt(r, j - 1) && !ClaimOf(r, j - 1, id);
    }
  }

  /** Of all the completions ever presented for one claim, at most one takes effect. */
  lemma CompletionTakesEffectOnce(r: Run, i: nat, j: nat, c: nat)
    requires IsRun(r) && i < j < |r.events| && EndsClaim(r, i, c)
    ensures !EndsClaim(r, j, c)
  {
    if EndsClaim(r, j, c) {
      var id := r.events[c].id;
      var ci := CompletionEndsOwnClaim(r, i);
      var cj := CompletionEndsOwnClaim(r, j);
      assert ClaimBy(r, c, r.events[c].worker) && ci == c == cj;
      assert StepAt(r, i);
      UnheldUntilClaimed(r, id, i + 1, j);
      assert false;
    }
  }

  /////////////////////////////////
  /// The attempt budget
  /////////////////////////////////

  /** Every claim in the run was made while the job still had attempts left. */
  ghost predicate Budgeted(r: Run) {
    forall i {:trigger ClaimAt(r, i)} | ClaimAt(r, i) && r.events[i].id in r.worlds[i].live ::
      r.worlds[i].live[r.events[i].id].attempts < r.worlds[i].live[r.events[i].id].maxAttempts
  }

  /** How often the job was claimed since it was last put on the queue. */
  function ClaimsSinceQueued(r: Run, id: nat, k: nat): nat
    requires k <= |r.events|
  {
    if k == 0 then 0
    else match r.events[k - 1]
      case Push(i, _) => if i == id then 0 else ClaimsSinceQueued(r, id, k - 1)
      case Retry(_, i, _, _) => if i == id then 0 else ClaimsSinceQueued(r, id, k - 1)
      case Claim(i, _, _, _) => ClaimsSinceQueued(r, id, k - 1) + if i == id then 1 else 0
      case _ => ClaimsSinceQueued(r, id, k - 1)
  }

  lemma {:induction false} AttemptsCountClaims(r: Run, id: nat, k: nat)
    requires IsRun(r) && k <= |r.events| && id in r.worlds[k].live
    ensures r.worlds[k].live[id].attempts == ClaimsSinceQueued(r, id, k)
    ensures 1 <= r.worlds[k].live[id].maxAttempts
    decreases k
  {
    assert 0 < k;
    assert StepAt(r, k - 1);
    if id in r.worlds[k - 1].live {
      AttemptsCountClaims(r, id, k - 1);
    }
  }

  /** A job is claimed, and so handed to a handler, at most `maxAttempts` times each time it is
      put on the queue. */
  lemma {:induction false} ClaimsStayInBudget(r: Run, id: nat, k: nat)
    requires IsRun(r) && Budgeted(r) && k <= |r.events| && id in r.worlds[k].live
    ensures ClaimsSinceQueued(r, id, k) == r.worlds[k].live[id].attempts <= r.worlds[k].live[id].maxAttempts
    decreases k
  {
    AttemptsCountClaims(r, id, k);
    assert 0 < k;
    assert StepAt(r, k - 1);
    if id in r.worlds[k - 1].live {
      ClaimsStayInBudget(r, id, k - 1);
      assert ClaimAt(r, k - 1) ==> r.events[k - 1].id in r.worlds[k - 1].live;
    }
  }

  /////////////////////////////////
  /// Conservation
  /////////////////////////////////

  datatype Tally = Tally(pushed: nat, completed: nat, moved: nat, retried: nat, forgotten: nat)

  function TallyOf(r: Run, k: nat): Tally
    requires k <= |r.events| < |r.worlds|
  {
    if k == 0 then Tally(0, 0, 0, 0, 0)
    else
      var t := TallyOf(r, k - 1);
      match r.events[k - 1]
      case Push(_, _) => t.(pushed := t.pushed + 1)
      case Complete(worker) => if Effective(r.worlds[k - 1], worker) then t.(completed := t.completed + 1) else t
      case Fail(worker, _) => if Effective(r.worlds[k - 1], worker) then t.(moved := t.moved + 1) else t
      case Exhaust(_, _, _) => t.(moved := t.moved + 1)
      case Retry(_, _, _, _) => t.(retried := t.retried + 1)
      case Forget(_) => t.(forgotten := t.forgotten + 1)
      case _ => t
  }

  lemma RemovedKeyCount<V>(m: map<nat, V>, k: nat)
    requires k in m
    ensures |m - {k}| == |m| - 1
  {
    assert m == (m - {k})[k := m[k]];
  }

  /** By how much an event changes the number of live and of failed jobs. */
  lemma EventMovesSizes(w: World, e: Event)
    requires Enabled(w, e)
    ensures var v := Apply(w, e); var out := e.Complete? && Effective(w, e.worker);
            var moved := (e.Fail? && Effective(w, e.worker)) || e.Exhaust?;
            && |v.live| == |w.live| + (if e.Push? || e.Retry? then 1 else 0) - (if out || moved then 1 else 0)
            && |v.failed| == |w.failed| + (if moved then 1 else 0) - (if e.Retry? || e.Forget? then 1 else 0)
  {
    match e
    case Complete(worker) => if Effective(w, worker) { RemovedKeyCount(w.live, w.hands[worker].id); }
    case Fail(worker, _) => if Effective(w, worker) { RemovedKeyCount(w.live, w.hands[worker].id); }
    case Exhaust(id, _, _) => RemovedKeyCount(w.live, id);
    case Retry(failedId, _, _, _) => RemovedKeyCount(w.failed, failedId);
    case Forget(failedId) => RemovedKeyCount(w.failed, failedId);
    case _ =>
  }

  /** No job is lost and none is duplicated: the failed jobs are those moved there and not yet
      retried or forgotten, and every job ever pushed is live, failed, completed or forgotten. */
  lemma {:induction false} JobsAreConserved(r: Run, k: nat)
    requires IsRun(r) && k <= |r.events|
    ensures var t := TallyOf(r, k);
            && |r.worlds[k].failed| == t.moved - t.retried - t.forgotten
            && |r.worlds[k].live| + |r.worlds[k].failed| + t.completed + t.forgotten == t.pushed
    decreases k
  {
    if 0 < k {
      JobsAreConserved(r, k - 1);
      assert StepAt(r, k - 1);
      EventMovesSizes(r.worlds[k - 1], r.events[k - 1]);
    }
  }

  /** A job keeps its unique key as long as it is live. */
  lemma {:induction false} KeyStaysWhileLive(r: Run, id: nat, i: nat, k: nat)
    requires IsRun(r) && i <= k <= |r.events| && forall m | i <= m <= k :: id in r.worlds[m].live
    ensures r.worlds[k].live[id].uniqueKey == r.worlds[i].live[id].uniqueKey
    decreases k
  {
    if i < k {
      KeyStaysWhileLive(r, id, i, k - 1);
      assert StepAt(r, k - 1) && id in r.worlds[k - 1].live;
    }
  }

  /** At most one live job carries a given unique key. */
  lemma {:induction false} UniqueKeysAreUnique(r: Run, k: nat, a: nat, b: nat)
    requires IsRun(r) && k <= |r.events| && a in r.worlds[k].live && b in r.worlds[k].live
    requires r.worlds[k].live[a].uniqueKey == r.worlds[k].live[b].uniqueKey != None
    ensures a == b
    decreases k
  {
    assert 0 < k;
    assert StepAt(r, k - 1);
    if a in r.worlds[k - 1].live && b in r.worlds[k - 1].live {
      UniqueKeysAreUnique(r, k - 1, a, b);
    }
  }
}
