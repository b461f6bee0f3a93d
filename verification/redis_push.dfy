/** What a push on Redis puts there, and what a second one with the same unique key does. */
module RedisPush {
  import opened Wrappers
  import opened RedisStore
  import opened RedisInvariant
  import opened RedisRuns
  import opened RedisRefinement
  import Spec = QueueSpec

  /** No job that is there carries the key. */
  predicate KeyUnused(s: Store, key: string) {
    key == "" || forall id | id in s.jobs :: s.jobs[id].uniqueKey != key
  }

  lemma UnusedKeyIsNotTaken(s: Store, key: string)
    requires Sound(s) && KeyUnused(s, key)
    ensures !KeyTaken(s, key)
  {
    assert KeySound(s, key);
  }

  lemma EnqueueOnlySetsTheEntry(s: Store, queue: string, level: int, id: nat)
    requires id in s.jobs
    ensures var t := Enqueue(s, queue, level, id);
            && t.jobs.Keys == s.jobs.Keys && t.jobs[id] == s.jobs[id].(entry := t.jobs[id].entry)
            && t.jobs - {id} == s.jobs - {id}
            && t.unique == s.unique && t.failed == s.failed && t.queues == s.queues
  {
  }

  lemma RegisterWritesItsArguments(s: Store, a: PushArgs)
    requires s.seqNo + 1 !in s.jobs
    ensures var t, id := Register(s, a), s.seqNo + 1;
            && t.jobs - {id} == s.jobs && id in t.jobs && t.jobs[id] == NewHash(a)
            && t.failed == s.failed && t.queues == s.queues + {a.queue}
            && (a.unique != "" ==> t.unique == s.unique[a.unique := id]) && (a.unique == "" ==> t.unique == s.unique)
  {
  }

  /** The hash of a new job, by its fields, and the key that leads to it. */
  lemma PushWritesItsArguments(s: Store, a: PushArgs)
    requires Sound(s) && KeyUnused(s, a.unique)
    ensures var (t, id) := Push(s, a);
            && id !in s.jobs && id in t.jobs && t.failed == s.failed && a.queue in t.queues
            && var h := t.jobs[id];
               && h.queue == a.queue && h.name == a.name && h.payload == a.payload && h.attempts == 0
               && h.maxAttempts == a.maxAttempts && h.priority == a.priority && h.uniqueKey == a.unique
               && h.availableAt == a.availableAt && h.createdAt == a.createdAt
               && h.reservedBy == "" && h.reservedUntil == 0 && h.lastError == "" && h.error == "" && h.failedAt == ""
    ensures var (t, id) := Push(s, a);
            && t.jobs - {id} == s.jobs && (a.unique != "" ==> t.unique == s.unique[a.unique := id])
            && (a.unique == "" ==> t.unique == s.unique)
  {
    UnusedKeyIsNotTaken(s, a.unique);
    assert JobSound(s, s.seqNo + 1);
    RegisterWritesItsArguments(s, a);
    if a.availableAt <= a.now {
      EnqueueOnlySetsTheEntry(Register(s, a), a.queue, a.priority, s.seqNo + 1);
    }
  }

  /** Where a new job waits: in the delayed set until it is due, or at the end of its own level's stream,
      not yet handed out, if it is due at once. */
  lemma PushQueuesByDate(s: Store, a: PushArgs)
    requires Sound(s) && KeyUnused(s, a.unique)
    ensures var (t, id) := Push(s, a);
            if a.now < a.availableAt then
              t.delayed == s.delayed[(a.queue, id) := a.availableAt] && t.entries == s.entries
            else
              && t.delayed == s.delayed && id in t.jobs && t.jobs[id].entry.Some?
              && var slot := Slot(a.queue, a.priority, t.jobs[id].entry.value);
                 && slot !in s.entries && t.entries == s.entries[slot := Entry(id, None)]
                 && (a.queue, a.priority) in t.levels
                 && forall other | other in s.entries && other.queue == a.queue && other.level == a.priority ::
                      other.number < slot.number
  {
    UnusedKeyIsNotTaken(s, a.unique);
    forall other | other in s.entries && other.queue == a.queue && other.level == a.priority
      ensures other.number <= Last(s, a.queue, a.priority)
    {
      assert EntrySound(s, other);
    }
  }

  /** On any keyspace at all, reachable or not: a key that leads to a job that is there makes push answer
      it and leave everything alone; a key left over from a job that is gone is given to the new one. */
  lemma LeftoverKeyIsTakenOver(s: Store, a: PushArgs)
    requires a.unique != "" && a.unique in s.unique
    ensures var (t, id) := Push(s, a);
            if s.unique[a.unique] in s.jobs then t == s && id == s.unique[a.unique]
            else
              && id == s.seqNo + 1 == t.seqNo && id in t.jobs && t.jobs[id].uniqueKey == a.unique
              && t.unique == s.unique[a.unique := id] && forall other | other in s.jobs && other != id ::
                   other in t.jobs && t.jobs[other] == s.jobs[other]
  {
  }

  predicate Live(s: Store, id: nat) {
    id in s.jobs && id !in s.failed
  }

  lemma PushedJobCarriesItsKey(s: Store, a: PushArgs)
    requires Sound(s) && a.unique != ""
    ensures var (t, id) := Push(s, a); id in t.jobs && t.jobs[id].uniqueKey == a.unique
  {
    if KeyTaken(s, a.unique) {
      assert KeySound(s, a.unique);
    } else {
      assert JobSound(s, s.seqNo + 1);
    }
  }

  lemma {:induction false} JobKeepsItsKey(r: Run, id: nat, i: nat, k: nat)
    requires IsRun(r) && i <= k <= |r.events| && forall m | i <= m <= k :: Live(r.worlds[m].store, id)
    requires Live(r.worlds[i].store, id) && Live(r.worlds[k].store, id)
    ensures r.worlds[k].store.jobs[id].uniqueKey == r.worlds[i].store.jobs[id].uniqueKey
  {
    RunRefines(r);
    forall m | i <= m <= k
      ensures id in AbsRun(r).worlds[m].live
      ensures AbsRun(r).worlds[m].live[id] == AbsJob(r.worlds[m].store.jobs[id])
    {
      assert AbsRun(r).worlds[m] == AbsWorldAt(r, m);
      WorldsStayRelated(r, m);
      assert JobRelated(r.worlds[m].store, AbsWorldAt(r, m), id) && Live(r.worlds[m].store, id);
    }
    Spec.KeyStaysWhileLive(AbsRun(r), id, i, k);
  }

  /** The law of unique keys, over runs: as long as the job a push answered is live, every further push
      with the same key answers that same job and changes nothing. */
  lemma PushAgainChangesNothing(r: Run, i: nat, k: nat, again: PushArgs)
    requires IsRun(r) && i < k <= |r.events| && r.events[i].DoPush? && r.events[i].args.unique != ""
    requires var id := Push(r.worlds[i].store, r.events[i].args).1;
             forall m | i < m <= k :: Live(r.worlds[m].store, id)
    requires again.unique == r.events[i].args.unique
    ensures Push(r.worlds[k].store, again) == (r.worlds[k].store, Push(r.worlds[i].store, r.events[i].args).1)
  {
    var a := r.events[i].args;
    var id := Push(r.worlds[i].store, a).1;
    assert StepAt(r, i) && Live(r.worlds[k].store, id);
    RunsStaySound(r, i);
    RunsStaySound(r, k);
    PushedJobCarriesItsKey(r.worlds[i].store, a);
    JobKeepsItsKey(r, id, i + 1, k);
    HolderOfKeyTakesIt(r.worlds[k].store, id);
  }
}
