/** What every script keeps of the keyspace, whatever the timeouts, clocks and workers, and what
    it keeps besides when no claim is ever handed over early. */
module RedisInvariant {
  import opened QueueLimits
  import opened Wrappers
  import opened RedisStore

  /////////////////////////////////
  /// Kept by every script
  /////////////////////////////////

  /** A failed job is unheld, out of attempts and has given its key up; a key a job carries maps
      back to it. */
  predicate JobSound(s: Store, id: nat) {
    id in s.jobs ==>
      var h := s.jobs[id];
      && 1 <= id <= s.seqNo && h.queue != "" && 1 <= h.maxAttempts
      && (h.reservedBy == "" ==> h.reservedUntil == 0)
      && (h.uniqueKey != "" ==> h.uniqueKey in s.unique && s.unique[h.uniqueKey] == id)
      && (id in s.failed ==> h.reservedBy == "" && h.uniqueKey == "" && h.maxAttempts <= h.attempts)
      && (id !in s.failed ==> h.queue in s.queues)
  }

  predicate FailedSound(s: Store, id: nat) {
    id in s.failed ==> id in s.jobs
  }

  predicate KeySound(s: Store, key: string) {
    key in s.unique ==> key != "" && s.unique[key] in s.jobs && s.jobs[s.unique[key]].uniqueKey == key
  }

  /** Ids are never reused, and whatever still names a job names it in the job's own queue. */
  predicate EntrySound(s: Store, slot: Slot) {
    slot in s.entries ==>
      var id := s.entries[slot].job;
      && id <= s.seqNo && slot.number <= Last(s, slot.queue, slot.level) && (slot.queue, slot.level) in s.levels
      && (id in s.jobs ==> s.jobs[id].queue == slot.queue)
  }

  predicate DelaySound(s: Store, queue: string, id: nat) {
    (queue, id) in s.delayed ==> id <= s.seqNo && (id in s.jobs ==> s.jobs[id].queue == queue)
  }

  ghost predicate Sound(s: Store) {
    && (forall id {:trigger JobSound(s, id)} :: JobSound(s, id))
    && (forall id {:trigger FailedSound(s, id)} :: FailedSound(s, id))
    && (forall key {:trigger KeySound(s, key)} :: KeySound(s, key))
    && (forall slot {:trigger EntrySound(s, slot)} :: EntrySound(s, slot))
    && (forall queue, id {:trigger DelaySound(s, queue, id)} :: DelaySound(s, queue, id))
  }

  /** Enough for `Sound` of `t`, when `t` differs from a sound `s` in job `id` and slot `slot` only. */
  lemma SoundExceptAt(s: Store, t: Store, id: nat, slot: Slot)
    requires Sound(s) && s.seqNo <= t.seqNo && s.levels <= t.levels && s.queues <= t.queues
    requires forall other | other != id ::
             (other in t.jobs <==> other in s.jobs) && (other in t.failed <==> other in s.failed)
    requires forall other | other in t.jobs && other != id :: t.jobs[other] == s.jobs[other]
    requires forall q, l :: Last(s, q, l) <= Last(t, q, l)
    requires forall other | other in t.entries && other != slot ::
             other in s.entries && t.entries[other] == s.entries[other]
    requires forall d | d in t.delayed && d.1 != id :: d in s.delayed
    requires forall q | (q, id) in t.delayed :: id <= t.seqNo && (id in t.jobs ==> t.jobs[id].queue == q)
    requires forall key | key in t.unique && t.unique[key] != id :: key in s.unique && t.unique[key] == s.unique[key]
    requires forall key | key in s.unique && s.unique[key] != id :: key in t.unique && t.unique[key] == s.unique[key]
    requires forall key | key in t.unique && t.unique[key] == id :: KeySound(t, key)
    requires JobSound(t, id) && FailedSound(t, id) && EntrySound(t, slot)
    requires id in t.jobs && id in s.jobs ==> t.jobs[id].queue == s.jobs[id].queue
    requires id in t.jobs && id !in s.jobs ==> s.seqNo < id
    ensures Sound(t)
  {
    forall other: nat
      ensures JobSound(t, other) && FailedSound(t, other)
    {
      assert JobSound(s, other) && FailedSound(s, other);
    }
    forall key: string
      ensures KeySound(t, key)
    {
      assert KeySound(s, key);
    }
    forall other: Slot
      ensures EntrySound(t, other)
    {
      assert EntrySound(s, other);
      assert Last(s, other.queue, other.level) <= Last(t, other.queue, other.level);
    }
    forall queue: string, other: nat
      ensures DelaySound(t, queue, other)
    {
      assert DelaySound(s, queue, other);
    }
  }

  /** All that `Sound` says of one job. */
  lemma JobKeysSound(s: Store, id: nat)
    requires Sound(s)
    ensures JobSound(s, id) && FailedSound(s, id)
    ensures forall key | key in s.unique && s.unique[key] == id :: id in s.jobs && key == s.jobs[id].uniqueKey != ""
    ensures forall q | (q, id) in s.delayed :: DelaySound(s, q, id)
  {
    forall key | key in s.unique && s.unique[key] == id
      ensures id in s.jobs && key == s.jobs[id].uniqueKey != ""
    {
      assert KeySound(s, key);
    }
  }

  lemma EnqueueKeepsSound(s: Store, level: int, id: nat)
    requires Sound(s) && id in s.jobs
    ensures Sound(Enqueue(s, s.jobs[id].queue, level, id))
  {
    var queue := s.jobs[id].queue;
    JobKeysSound(s, id);
    SoundExceptAt(s, Enqueue(s, queue, level, id), id, Slot(queue, level, Last(s, queue, level) + 1));
  }

  lemma UndelayKeepsSound(s: Store, queue: string, id: nat)
    requires Sound(s)
    ensures Sound(s.(delayed := s.delayed - {(queue, id)}))
  {
    var t, slot := s.(delayed := s.delayed - {(queue, id)}), Slot("", 0, 0);
    JobKeysSound(s, id);
    assert EntrySound(s, slot);
    SoundExceptAt(s, t, id, slot);
  }

  lemma RegisterKeepsSound(s: Store, a: PushArgs)
    requires Sound(s) && a.queue != "" && 1 <= a.maxAttempts && !KeyTaken(s, a.unique)
    ensures Sound(Register(s, a))
  {
    var id, slot := s.seqNo + 1, Slot("", 0, 0);
    assert JobSound(s, id) && FailedSound(s, id) && KeySound(s, a.unique) && EntrySound(s, slot);
    forall q: string
      ensures (q, id) !in s.delayed
    {
      assert DelaySound(s, q, id);
    }
    forall key | key in s.unique
      ensures s.unique[key] != id
    {
      assert KeySound(s, key);
    }
    SoundExceptAt(s, Register(s, a), id, slot);
  }

  lemma DelayKeepsSound(s: Store, id: nat, due: int)
    requires Sound(s) && id in s.jobs
    ensures Sound(s.(delayed := s.delayed[(s.jobs[id].queue, id) := due]))
  {
    JobKeysSound(s, id);
    var slot := Slot("", 0, 0);
    assert EntrySound(s, slot);
    SoundExceptAt(s, s.(delayed := s.delayed[(s.jobs[id].queue, id) := due]), id, slot);
  }

  lemma PushKeepsSound(s: Store, a: PushArgs)
    requires Sound(s) && a.queue != "" && 1 <= a.maxAttempts
    ensures Sound(Push(s, a).0)
  {
    if !KeyTaken(s, a.unique) {
      RegisterKeepsSound(s, a);
      if a.now < a.availableAt {
        DelayKeepsSound(Register(s, a), s.seqNo + 1, a.availableAt);
      } else {
        EnqueueKeepsSound(Register(s, a), a.priority, s.seqNo + 1);
      }
    }
  }

  lemma PromoteKeepsSound(s: Store, queue: string, id: nat)
    requires Sound(s)
    ensures Sound(Promote(s, queue, id))
  {
    if (queue, id) in s.delayed {
      assert DelaySound(s, queue, id);
      UndelayKeepsSound(s, queue, id);
      if id in s.jobs {
        EnqueueKeepsSound(s.(delayed := s.delayed - {(queue, id)}), s.jobs[id].priority, id);
      }
    }
  }

  lemma BuryKeepsSound(s: Store, id: nat, slot: Slot, error: string, now: nat, failedAt: string)
    requires Sound(s) && id in s.jobs && s.jobs[id].maxAttempts <= s.jobs[id].attempts
    ensures Sound(Bury(Drop(s, slot), id, error, now, failedAt))
  {
    JobKeysSound(s, id);
    SoundExceptAt(s, Bury(Drop(s, slot), id, error, now, failedAt), id, slot);
  }

  lemma DeliverKeepsSound(s: Store, slot: Slot, clock: int)
    requires Sound(s) && slot in s.entries
    ensures Sound(Deliver(s, slot, clock))
  {
    var id := s.entries[slot].job;
    JobKeysSound(s, id);
    assert EntrySound(s, slot);
    SoundExceptAt(s, Deliver(s, slot, clock), id, slot);
  }

  /** Rewriting a live job's claim and attempt keeps what is known of it. */
  lemma RewriteKeepsSound(s: Store, id: nat, h: Hash)
    requires Sound(s) && id in s.jobs && JobSound(s.(jobs := s.jobs[id := h]), id)
    requires h.queue == s.jobs[id].queue && h.uniqueKey == s.jobs[id].uniqueKey
    ensures Sound(s.(jobs := s.jobs[id := h]))
  {
    var slot := Slot("", 0, 0);
    JobKeysSound(s, id);
    assert EntrySound(s, slot);
    SoundExceptAt(s, s.(jobs := s.jobs[id := h]), id, slot);
  }

  lemma DropKeepsSound(s: Store, slot: Slot)
    requires Sound(s)
    ensures Sound(Drop(s, slot))
  {
    JobKeysSound(s, 0);
    SoundExceptAt(s, Drop(s, slot), 0, slot);
  }

  lemma VisitKeepsSound(s: Store, slot: Slot, clock: int, c: Caller)
    requires Sound(s) && slot in s.entries && c.worker != ""
    ensures Sound(Visit(s, slot, clock, c).0)
  {
    var id, t := s.entries[slot].job, Deliver(s, slot, clock);
    DeliverKeepsSound(s, slot, clock);
    assert JobSound(t, id) && EntrySound(t, slot);
    match OutcomeOf(s, slot, c.now)
    case Exhausted => BuryKeepsSound(t, id, slot, EXHAUSTED_ERROR, c.now, c.failedAt);
    case Tombstone => DropKeepsSound(t, slot);
    case Parked =>
      DelayKeepsSound(t, id, t.jobs[id].reservedUntil);
      var u := t.(delayed := t.delayed[(slot.queue, id) := t.jobs[id].reservedUntil]);
      RewriteKeepsSound(u, id, t.jobs[id].(entry := None));
      DropKeepsSound(u.(jobs := u.jobs[id := t.jobs[id].(entry := None)]), slot);
    case Claimed =>
      RewriteKeepsSound(t, id, t.jobs[id].(attempts := t.jobs[id].attempts + 1, reservedBy := c.worker,
                                           reservedUntil := c.now + c.timeout, entry := Some(slot.number)));
  }

  lemma CompleteKeepsSound(s: Store, worker: string, h: Hand)
    requires Sound(s) && worker != ""
    ensures Sound(Complete(s, worker, h))
  {
    if Holds(s, worker, h) {
      JobKeysSound(s, h.id);
      SoundExceptAt(s, Complete(s, worker, h), h.id, HeldSlot(s, h));
    }
  }

  lemma ReleaseKeepsSound(s: Store, worker: string, h: Hand, availableAt: int, error: string)
    requires Sound(s) && worker != "" && (Holds(s, worker, h) ==> h.queue == s.jobs[h.id].queue)
    ensures Sound(Release(s, worker, h, availableAt, error))
  {
    if Holds(s, worker, h) {
      JobKeysSound(s, h.id);
      SoundExceptAt(s, Release(s, worker, h, availableAt, error), h.id, HeldSlot(s, h));
    }
  }

  lemma FailKeepsSound(s: Store, worker: string, h: Hand, error: string, now: nat, failedAt: string)
    requires Sound(s) && worker != ""
    requires Holds(s, worker, h) ==> s.jobs[h.id].maxAttempts <= s.jobs[h.id].attempts
    ensures Sound(Fail(s, worker, h, error, now, failedAt))
  {
    if Holds(s, worker, h) {
      BuryKeepsSound(s, h.id, HeldSlot(s, h), error, now, failedAt);
    }
  }

  lemma RequeueKeepsSound(s: Store, id: nat, maxAttempts: nat, now: nat)
    requires Sound(s) && 1 <= maxAttempts
    ensures Sound(Requeue(s, id, maxAttempts, now).0)
  {
    JobKeysSound(s, id);
    if id in s.failed {
      var slot := Slot(s.jobs[id].queue, 0, Last(s, s.jobs[id].queue, 0) + 1);
      assert EntrySound(s, slot);
      SoundExceptAt(s, Requeue(s, id, maxAttempts, now).0, id, slot);
    }
  }

  lemma ForgetKeepsSound(s: Store, id: nat)
    requires Sound(s)
    ensures Sound(Forget(s, id).0)
  {
    JobKeysSound(s, id);
    var slot := Slot("", 0, 0);
    assert EntrySound(s, slot);
    SoundExceptAt(s, Forget(s, id).0, id, slot);
  }

  lemma HolderOfKeyTakesIt(s: Store, id: nat)
    requires Sound(s) && id in s.jobs && s.jobs[id].uniqueKey != ""
    ensures id !in s.failed && KeyTaken(s, s.jobs[id].uniqueKey) && s.unique[s.jobs[id].uniqueKey] == id
  {
    assert JobSound(s, id);
  }

  /** `push` answers with an existing id exactly when a live job carries the key, and otherwise
      with an id no job has had. */
  lemma PushReturnsHolderOfKey(s: Store, a: PushArgs)
    requires Sound(s)
    ensures (exists id :: id in s.jobs && id !in s.failed && s.jobs[id].uniqueKey == a.unique != "")
            <==> Push(s, a).1 in s.jobs
    ensures Push(s, a).1 in s.jobs ==> Push(s, a).0 == s && s.jobs[Push(s, a).1].uniqueKey == a.unique
    ensures Push(s, a).1 !in s.jobs ==>
              Push(s, a).1 == s.seqNo + 1 && Push(s, a).0.jobs.Keys == s.jobs.Keys + {s.seqNo + 1}
  {
    assert KeySound(s, a.unique) && JobSound(s, s.seqNo + 1);
    if KeyTaken(s, a.unique) {
      HolderOfKeyTakesIt(s, s.unique[a.unique]);
    } else {
      forall id | id in s.jobs && id !in s.failed && a.unique != ""
        ensures s.jobs[id].uniqueKey != a.unique
      {
        if s.jobs[id].uniqueKey == a.unique {
          HolderOfKeyTakesIt(s, id);
        }
      }
    }
  }

  /////////////////////////////////
  /// One place for every job
  /////////////////////////////////

  datatype Place = AtFailed | AtDelayed(queue: string) | AtEntry(slot: Slot)

  /** Everywhere the keyspace names the job. */
  ghost function Places(s: Store, id: nat): set<Place> {
    (if id in s.failed then {AtFailed} else {})
    + (set d | d in s.delayed && d.1 == id :: AtDelayed(d.0))
    + (set slot | slot in s.entries && s.entries[slot].job == id :: AtEntry(slot))
  }

  /** Where the job's own hash says it is. */
  function Home(s: Store, id: nat): Place
    requires id in s.jobs
  {
    var h := s.jobs[id];
    if id in s.failed then AtFailed
    else if h.entry.Some? then AtEntry(Slot(h.queue, h.priority, h.entry.value))
    else AtDelayed(h.queue)
  }

  predicate JobPlaced(s: Store, id: nat) {
    id in s.jobs ==>
      match Home(s, id)
      case AtFailed => s.jobs[id].entry.None?
      case AtDelayed(queue) => (queue, id) in s.delayed
      case AtEntry(slot) => slot in s.entries && s.entries[slot].job == id
  }

  predicate EntryPlaced(s: Store, slot: Slot) {
    slot in s.entries ==> s.entries[slot].job in s.jobs && Home(s, s.entries[slot].job) == AtEntry(slot)
  }

  predicate DelayPlaced(s: Store, queue: string, id: nat) {
    (queue, id) in s.delayed ==> id in s.jobs && Home(s, id) == AtDelayed(queue)
  }

  ghost predicate Placed(s: Store) {
    && (forall id {:trigger JobPlaced(s, id)} :: JobPlaced(s, id))
    && (forall slot {:trigger EntryPlaced(s, slot)} :: EntryPlaced(s, slot))
    && (forall queue, id {:trigger DelayPlaced(s, queue, id)} :: DelayPlaced(s, queue, id))
  }

  /** Every job is in one place, the one its hash names, and nothing names a job that is gone. */
  ghost predicate OnePlaceEach(s: Store) {
    forall id {:trigger Places(s, id)} :: Places(s, id) == if id in s.jobs then {Home(s, id)} else {}
  }

  /** That is what `Placed` says name by name. */
  lemma PlacedMeansOnePlaceEach(s: Store)
    requires Sound(s) && Placed(s)
    ensures OnePlaceEach(s)
  {
    forall id: nat
      ensures Places(s, id) == if id in s.jobs then {Home(s, id)} else {}
    {
      assert FailedSound(s, id) && JobPlaced(s, id);
      forall slot | slot in s.entries && s.entries[slot].job == id
        ensures id in s.jobs && Home(s, id) == AtEntry(slot)
      {
        assert EntryPlaced(s, slot);
      }
      forall d | d in s.delayed && d.1 == id
        ensures id in s.jobs && Home(s, id) == AtDelayed(d.0)
      {
        assert DelayPlaced(s, d.0, id);
      }
      if id in s.jobs {
        assert Home(s, id) in Places(s, id) by {
          match Home(s, id)
          case AtFailed =>
          case AtDelayed(queue) => assert (queue, id) in s.delayed && (queue, id).1 == id;
          case AtEntry(slot) =>
        }
      }
    }
  }

  lemma OnePlaceEachMeansNothingStrays(s: Store, slot: Slot, queue: string, id: nat)
    requires OnePlaceEach(s)
    ensures EntryPlaced(s, slot) && DelayPlaced(s, queue, id)
  {
    if slot in s.entries {
      assert AtEntry(slot) in Places(s, s.entries[slot].job);
    }
    if (queue, id) in s.delayed {
      assert (queue, id).1 == id && AtDelayed(queue) in Places(s, id);
    }
  }

  /** A delayed job is unheld and scored by when it is due. */
  predicate DelayTimed(s: Store, queue: string, id: nat) {
    (queue, id) in s.delayed && id in s.jobs ==>
      s.jobs[id].reservedBy == "" && s.delayed[(queue, id)] == s.jobs[id].availableAt
  }

  /** A job in a stream is due, its entry is delivered exactly when it is held, and its claim has
      run out by the time the entry has been idle for the timeout. */
  predicate EntryTimed(s: Store, slot: Slot, clock: int, timeout: nat) {
    slot in s.entries && s.entries[slot].job in s.jobs ==>
      var h := s.jobs[s.entries[slot].job];
      && 1000 * h.availableAt <= clock
      && match s.entries[slot].delivered
         case None => h.reservedBy == ""
         case Some(at) => at <= clock && h.reservedBy != "" && 1000 * h.reservedUntil <= at + 1000 * timeout
  }

  ghost predicate Timed(s: Store, clock: int, timeout: nat) {
    && (forall slot {:trigger EntryTimed(s, slot, clock, timeout)} :: EntryTimed(s, slot, clock, timeout))
    && (forall queue, id {:trigger DelayTimed(s, queue, id)} :: DelayTimed(s, queue, id))
  }

  ghost predicate Tidy(s: Store, clock: int, timeout: nat) {
    Sound(s) && Placed(s) && Timed(s, clock, timeout)
  }

  lemma JobHasOnePlace(s: Store, id: nat)
    requires Sound(s) && Placed(s)
    ensures JobPlaced(s, id) && JobSound(s, id)
    ensures forall slot | slot in s.entries && s.entries[slot].job == id :: id in s.jobs && AtEntry(slot) == Home(s, id)
    ensures forall q | (q, id) in s.delayed :: id in s.jobs && AtDelayed(q) == Home(s, id)
  {
    forall slot | slot in s.entries && s.entries[slot].job == id
      ensures id in s.jobs && AtEntry(slot) == Home(s, id)
    {
      assert EntryPlaced(s, slot);
    }
    forall q | (q, id) in s.delayed
      ensures id in s.jobs && AtDelayed(q) == Home(s, id)
    {
      assert DelayPlaced(s, q, id);
    }
    assert JobPlaced(s, id) && JobSound(s, id);
  }

  /** Enough for `Placed` of `t`, when `t` differs from a placed `s` in job `id` only. */
  lemma PlacedExceptAt(s: Store, t: Store, id: nat)
    requires Sound(s) && Placed(s)
    requires forall other | other != id ::
             (other in t.jobs <==> other in s.jobs) && (other in t.failed <==> other in s.failed)
    requires forall other | other in t.jobs && other != id :: t.jobs[other] == s.jobs[other]
    requires forall slot | slot in s.entries && s.entries[slot].job != id ::
             slot in t.entries && t.entries[slot].job == s.entries[slot].job
    requires forall slot | slot in t.entries && t.entries[slot].job != id ::
             slot in s.entries && t.entries[slot].job == s.entries[slot].job
    requires forall slot | slot in t.entries && t.entries[slot].job == id ::
             id in t.jobs && AtEntry(slot) == Home(t, id)
    requires forall d | d in s.delayed && d.1 != id :: d in t.delayed
    requires forall d | d in t.delayed && d.1 != id :: d in s.delayed
    requires forall q | (q, id) in t.delayed :: id in t.jobs && AtDelayed(q) == Home(t, id)
    requires JobPlaced(t, id)
    ensures Placed(t)
  {
    forall slot: Slot
      ensures EntryPlaced(t, slot)
    {
      assert EntryPlaced(s, slot);
    }
    forall queue: string, other: nat
      ensures DelayPlaced(t, queue, other)
    {
      assert DelayPlaced(s, queue, other);
      assert (queue, other).1 == other;
    }
    forall other: nat
      ensures JobPlaced(t, other)
    {
      assert JobPlaced(s, other) && JobSound(s, other);
      if other in s.jobs {
        assert (s.jobs[other].queue, other).1 == other;
      }
    }
  }

  /** Enough for `Tidy` of `t`, when `t` differs from a tidy `s` in job `id` only. */
  lemma TidyExceptAt(s: Store, t: Store, id: nat, clock: int, timeout: nat)
    requires Tidy(s, clock, timeout) && Sound(t) && Placed(t)
    requires forall other | other in t.jobs && other != id :: other in s.jobs && t.jobs[other] == s.jobs[other]
    requires forall slot | slot in t.entries && t.entries[slot].job != id ::
             slot in s.entries && t.entries[slot] == s.entries[slot]
    requires forall slot | slot in t.entries && t.entries[slot].job == id :: EntryTimed(t, slot, clock, timeout)
    requires forall d | d in t.delayed && d.1 != id :: d in s.delayed && t.delayed[d] == s.delayed[d]
    requires forall q | (q, id) in t.delayed :: DelayTimed(t, q, id)
    ensures Tidy(t, clock, timeout)
  {
    forall slot: Slot
      ensures EntryTimed(t, slot, clock, timeout)
    {
      assert EntryTimed(s, slot, clock, timeout);
    }
    forall queue: string, other: nat
      ensures DelayTimed(t, queue, other)
    {
      assert DelayTimed(s, queue, other);
      assert (queue, other).1 == other;
    }
  }

  lemma NewIdIsNamedNowhere(s: Store, id: nat)
    requires Sound(s) && s.seqNo < id
    ensures id !in s.jobs && id !in s.failed
    ensures forall slot | slot in s.entries :: s.entries[slot].job != id
    ensures forall d | d in s.delayed :: d.1 != id
  {
    assert JobSound(s, id) && FailedSound(s, id);
    forall slot | slot in s.entries
      ensures s.entries[slot].job != id
    {
      assert EntrySound(s, slot);
    }
    forall d | d in s.delayed
      ensures d.1 != id
    {
      assert DelaySound(s, d.0, d.1);
    }
  }

  /** A job named nowhere gets an entry. */
  lemma EnqueueKeepsPlaced(s: Store, t: Store, id: nat)
    requires Sound(s) && Placed(s) && id in t.jobs && id !in t.failed && t.lastNumber == s.lastNumber
    requires forall other | other != id ::
             (other in t.jobs <==> other in s.jobs) && (other in t.failed <==> other in s.failed)
    requires forall other | other in t.jobs && other != id :: t.jobs[other] == s.jobs[other]
    requires t.entries == s.entries && forall slot | slot in s.entries :: s.entries[slot].job != id
    requires forall d :: d in t.delayed <==> d in s.delayed && d.1 != id
    ensures Placed(Enqueue(t, t.jobs[id].queue, t.jobs[id].priority, id))
  {
    var queue, level := t.jobs[id].queue, t.jobs[id].priority;
    assert EntrySound(s, Slot(queue, level, Last(s, queue, level) + 1));
    PlacedExceptAt(s, Enqueue(t, queue, level, id), id);
  }

  lemma DelayNewKeepsPlaced(s: Store, a: PushArgs)
    requires Sound(s) && Placed(s) && !KeyTaken(s, a.unique) && a.now < a.availableAt
    ensures Placed(Push(s, a).0)
  {
    NewIdIsNamedNowhere(s, s.seqNo + 1);
    PlacedExceptAt(s, Push(s, a).0, s.seqNo + 1);
  }

  lemma EnqueueNewKeepsPlaced(s: Store, a: PushArgs)
    requires Sound(s) && Placed(s) && !KeyTaken(s, a.unique) && a.availableAt <= a.now
    ensures Placed(Push(s, a).0)
  {
    NewIdIsNamedNowhere(s, s.seqNo + 1);
    EnqueueKeepsPlaced(s, Register(s, a), s.seqNo + 1);
  }

  lemma PushKeepsPlaced(s: Store, a: PushArgs)
    requires Sound(s) && Placed(s)
    ensures Placed(Push(s, a).0)
  {
    if KeyTaken(s, a.unique) {
    } else if a.now < a.availableAt {
      DelayNewKeepsPlaced(s, a);
    } else {
      EnqueueNewKeepsPlaced(s, a);
    }
  }

  lemma PromoteKeepsPlaced(s: Store, queue: string, id: nat)
    requires Sound(s) && Placed(s)
    ensures Placed(Promote(s, queue, id))
  {
    if (queue, id) in s.delayed {
      JobHasOnePlace(s, id);
      EnqueueKeepsPlaced(s, s.(delayed := s.delayed - {(queue, id)}), id);
    }
  }

  lemma ClaimKeepsPlaced(s: Store, slot: Slot, clock: int, c: Caller)
    requires Sound(s) && Placed(s) && slot in s.entries && OutcomeOf(s, slot, c.now) == Claimed
    ensures Placed(Visit(s, slot, clock, c).0)
  {
    JobHasOnePlace(s, s.entries[slot].job);
    PlacedExceptAt(s, Visit(s, slot, clock, c).0, s.entries[slot].job);
  }

  lemma ParkKeepsPlaced(s: Store, slot: Slot, clock: int, c: Caller)
    requires Sound(s) && Placed(s) && slot in s.entries && OutcomeOf(s, slot, c.now) == Parked
    ensures Placed(Visit(s, slot, clock, c).0)
  {
    JobHasOnePlace(s, s.entries[slot].job);
    PlacedExceptAt(s, Visit(s, slot, clock, c).0, s.entries[slot].job);
  }

  lemma ExhaustKeepsPlaced(s: Store, slot: Slot, clock: int, c: Caller)
    requires Sound(s) && Placed(s) && slot in s.entries && OutcomeOf(s, slot, c.now) == Exhausted
    ensures Placed(Visit(s, slot, clock, c).0)
  {
    JobHasOnePlace(s, s.entries[slot].job);
    PlacedExceptAt(s, Visit(s, slot, clock, c).0, s.entries[slot].job);
  }

  /** A round keeps every job in one place on any of its branches, parking included. */
  lemma VisitKeepsPlaced(s: Store, slot: Slot, clock: int, c: Caller)
    requires Sound(s) && Placed(s) && slot in s.entries
    ensures Placed(Visit(s, slot, clock, c).0)
  {
    assert EntryPlaced(s, slot);
    match OutcomeOf(s, slot, c.now)
    case Claimed => ClaimKeepsPlaced(s, slot, clock, c);
    case Parked => ParkKeepsPlaced(s, slot, clock, c);
    case Exhausted => ExhaustKeepsPlaced(s, slot, clock, c);
    case Tombstone =>
  }

  lemma RequeueKeepsPlaced(s: Store, id: nat, maxAttempts: nat, now: nat)
    requires Sound(s) && Placed(s)
    ensures Placed(Requeue(s, id, maxAttempts, now).0)
  {
    if id in s.failed {
      JobHasOnePlace(s, id);
      assert FailedSound(s, id);
      var queue := s.jobs[id].queue;
      var h := s.jobs[id].(attempts := 0, maxAttempts := maxAttempts, priority := 0, uniqueKey := "",
                           availableAt := now, reservedUntil := 0, reservedBy := "", lastError := "",
                           error := "", failedAt := "");
      EnqueueKeepsPlaced(s, s.(failed := s.failed - {id}, jobs := s.jobs[id := h], queues := s.queues + {queue}), id);
    }
  }

  lemma ForgetKeepsPlaced(s: Store, id: nat)
    requires Sound(s) && Placed(s)
    ensures Placed(Forget(s, id).0)
  {
    if id in s.failed {
      JobHasOnePlace(s, id);
      assert FailedSound(s, id);
      PlacedExceptAt(s, Forget(s, id).0, id);
    }
  }

  /** The claim a worker remembers is still the job's, but not on the entry the job's hash names. */
  predicate OffEntry(s: Store, worker: string, h: Hand) {
    Holds(s, worker, h) && s.jobs[h.id].entry != Some(h.entry)
  }

  /** The claim's slot, as long as it is in the stream, is the claimed job's own. */
  predicate HandOwned(s: Store, worker: string, h: Hand) {
    Holds(s, worker, h) ==>
      && h.queue == s.jobs[h.id].queue && h.entry <= Last(s, h.queue, s.jobs[h.id].priority)
      && (HeldSlot(s, h) in s.entries ==> s.entries[HeldSlot(s, h)].job == h.id)
  }

  lemma EndKeepsPlaced(s: Store, worker: string, h: Hand, error: string, now: nat, failedAt: string)
    requires Sound(s) && Placed(s) && worker != "" && HandOwned(s, worker, h) && !OffEntry(s, worker, h)
    ensures Placed(Complete(s, worker, h)) && Placed(Fail(s, worker, h, error, now, failedAt))
  {
    if Holds(s, worker, h) {
      JobHasOnePlace(s, h.id);
      PlacedExceptAt(s, Complete(s, worker, h), h.id);
      PlacedExceptAt(s, Fail(s, worker, h, error, now, failedAt), h.id);
    }
  }

  /** A release may also find its job parked: it only moves it within the delayed set. */
  lemma ReleaseKeepsPlaced(s: Store, worker: string, h: Hand, availableAt: int, error: string)
    requires Sound(s) && Placed(s) && worker != "" && HandOwned(s, worker, h)
    requires OffEntry(s, worker, h) ==> s.jobs[h.id].entry.None?
    ensures Placed(Release(s, worker, h, availableAt, error))
  {
    if Holds(s, worker, h) {
      JobHasOnePlace(s, h.id);
      PlacedExceptAt(s, Release(s, worker, h, availableAt, error), h.id);
    }
  }

  /** Off its entry, any other end leaves a job or the trace of one where its hash does not say. */
  lemma EndOffEntryMisplaces(s: Store, worker: string, h: Hand, error: string, now: nat, failedAt: string)
    requires Sound(s) && Placed(s) && worker != "" && OffEntry(s, worker, h)
    ensures !OnePlaceEach(Complete(s, worker, h)) && !OnePlaceEach(Fail(s, worker, h, error, now, failedAt))
  {
    JobHasOnePlace(s, h.id);
    var t, u := Complete(s, worker, h), Fail(s, worker, h, error, now, failedAt);
    var slot := if Home(s, h.id).AtEntry? then Home(s, h.id).slot else HeldSlot(s, h);
    var queue := s.jobs[h.id].queue;
    if OnePlaceEach(t) {
      OnePlaceEachMeansNothingStrays(t, slot, queue, h.id);
    }
    if OnePlaceEach(u) {
      OnePlaceEachMeansNothingStrays(u, slot, queue, h.id);
    }
  }

  lemma ReleaseOffEntryMisplaces(s: Store, worker: string, h: Hand, availableAt: int, error: string)
    requires Sound(s) && Placed(s) && worker != "" && OffEntry(s, worker, h) && s.jobs[h.id].entry.Some?
    ensures !OnePlaceEach(Release(s, worker, h, availableAt, error))
  {
    JobHasOnePlace(s, h.id);
    var t := Release(s, worker, h, availableAt, error);
    if OnePlaceEach(t) {
      OnePlaceEachMeansNothingStrays(t, Home(s, h.id).slot, h.queue, h.id);
    }
  }

  lemma DelayNewKeepsTidy(s: Store, a: PushArgs, clock: int, timeout: nat)
    requires Tidy(s, clock, timeout) && !KeyTaken(s, a.unique) && a.now < a.availableAt && Sound(Push(s, a).0)
    ensures Tidy(Push(s, a).0, clock, timeout)
  {
    NewIdIsNamedNowhere(s, s.seqNo + 1);
    DelayNewKeepsPlaced(s, a);
    TidyExceptAt(s, Push(s, a).0, s.seqNo + 1, clock, timeout);
  }

  lemma EnqueueNewKeepsTidy(s: Store, a: PushArgs, clock: int, timeout: nat)
    requires Tidy(s, clock, timeout) && !KeyTaken(s, a.unique) && a.availableAt <= a.now && Sound(Push(s, a).0)
    requires 1000 * a.now <= clock
    ensures Tidy(Push(s, a).0, clock, timeout)
  {
    NewIdIsNamedNowhere(s, s.seqNo + 1);
    EnqueueNewKeepsPlaced(s, a);
    assert EntrySound(s, Slot(a.queue, a.priority, Last(s, a.queue, a.priority) + 1));
    TidyExceptAt(s, Push(s, a).0, s.seqNo + 1, clock, timeout);
  }

  lemma PushKeepsTidy(s: Store, a: PushArgs, clock: int, timeout: nat)
    requires Tidy(s, clock, timeout) && a.queue != "" && 1 <= a.maxAttempts && 1000 * a.now <= clock
    ensures Tidy(Push(s, a).0, clock, timeout)
  {
    if !KeyTaken(s, a.unique) {
      PushKeepsSound(s, a);
      if a.now < a.availableAt {
        DelayNewKeepsTidy(s, a, clock, timeout);
      } else {
        EnqueueNewKeepsTidy(s, a, clock, timeout);
      }
    }
  }

  lemma PromoteKeepsTidy(s: Store, queue: string, id: nat, now: nat, clock: int, timeout: nat)
    requires Tidy(s, clock, timeout) && 1000 * now <= clock
    requires (queue, id) in s.delayed ==> s.delayed[(queue, id)] <= now
    ensures Tidy(Promote(s, queue, id), clock, timeout)
  {
    if (queue, id) in s.delayed {
      PromoteKeepsSound(s, queue, id);
      PromoteKeepsPlaced(s, queue, id);
      JobHasOnePlace(s, id);
      var level := s.jobs[id].priority;
      assert EntrySound(s, Slot(queue, level, Last(s, queue, level) + 1)) && DelayTimed(s, queue, id);
      TidyExceptAt(s, Promote(s, queue, id), id, clock, timeout);
    }
  }

  lemma ParkingBreaksTidy(s: Store, slot: Slot, clock: int, c: Caller, longest: nat)
    requires Tidy(s, clock, longest) && slot in s.entries && OutcomeOf(s, slot, c.now) == Parked
    ensures !Tidy(Visit(s, slot, clock, c).0, clock, longest)
  {
    var t, id := Visit(s, slot, clock, c).0, s.entries[slot].job;
    assert JobSound(s, id);
    assert (slot.queue, id) in t.delayed && t.jobs[id].reservedBy != "";
    assert !DelayTimed(t, slot.queue, id);
  }

  lemma UnparkedVisitKeepsTidy(s: Store, slot: Slot, clock: int, c: Caller, longest: nat)
    requires Tidy(s, clock, longest) && slot in s.entries && c.timeout <= longest
    requires EntryTimed(s, slot, clock, longest) && s.entries[slot].job in s.jobs
    requires c.worker != "" && 1000 * c.now <= clock && OutcomeOf(s, slot, c.now) != Parked
    ensures Tidy(Visit(s, slot, clock, c).0, clock, longest)
  {
    VisitKeepsSound(s, slot, clock, c);
    VisitKeepsPlaced(s, slot, clock, c);
    JobHasOnePlace(s, s.entries[slot].job);
    TidyExceptAt(s, Visit(s, slot, clock, c).0, s.entries[slot].job, clock, longest);
  }

  /** Parking is the one branch that breaks this, whatever timeouts up to the longest the workers
      bring and however far their clocks lag: a round keeps it if and only if the entry it was handed
      is not still under an unexpired claim. */
  lemma VisitKeepsTidyIff(s: Store, slot: Slot, clock: int, c: Caller, longest: nat)
    requires Tidy(s, clock, longest) && slot in s.entries && c.timeout <= longest
    requires c.worker != "" && 1000 * c.now <= clock
    ensures s.entries[slot].job in s.jobs
    ensures Tidy(Visit(s, slot, clock, c).0, clock, longest) <==> s.jobs[s.entries[slot].job].reservedUntil <= c.now
  {
    var id := s.entries[slot].job;
    JobHasOnePlace(s, id);
    assert EntryPlaced(s, slot) && EntryTimed(s, slot, clock, longest) && JobSound(s, id);
    if OutcomeOf(s, slot, c.now) == Parked {
      ParkingBreaksTidy(s, slot, clock, c, longest);
    } else {
      UnparkedVisitKeepsTidy(s, slot, clock, c, longest);
    }
  }

  /** A round finds no tombstone, and whatever it hands out is due by the server's clock, however far
      the worker's lags. */
  lemma VisitedJobsAreDue(s: Store, slot: Slot, clock: int, now: nat, longest: nat)
    requires Tidy(s, clock, longest) && slot in s.entries
    ensures s.entries[slot].job in s.jobs && OutcomeOf(s, slot, now) != Tombstone
    ensures 1000 * s.jobs[s.entries[slot].job].availableAt <= clock
  {
    assert EntryPlaced(s, slot) && EntryTimed(s, slot, clock, longest);
  }

  /** A round parks only a job that was handed out before, and only for a caller whose timeout is not
      the longest or whose clock is a second or more behind the server's. */
  lemma ParkingNeedsALaggingOrShorterCaller(s: Store, slot: Slot, clock: int, c: Caller, longest: nat)
    requires Tidy(s, clock, longest) && Takeable(s, slot, clock, c.timeout) && OutcomeOf(s, slot, c.now) == Parked
    ensures s.entries[slot].delivered.Some?
    ensures c.timeout < longest || 1000 * c.now + 1000 <= clock
  {
    assert EntryPlaced(s, slot) && EntryTimed(s, slot, clock, longest) && JobSound(s, s.entries[slot].job);
  }

  /** The claim a worker remembers, when it is still the job's, is on the entry the hash names. */
  predicate HandPlaced(s: Store, worker: string, h: Hand) {
    Holds(s, worker, h) ==> Home(s, h.id) == AtEntry(HeldSlot(s, h))
  }

  lemma PlacedHandIsOwned(s: Store, worker: string, h: Hand)
    requires Sound(s) && Placed(s) && HandPlaced(s, worker, h)
    ensures HandOwned(s, worker, h) && !OffEntry(s, worker, h)
  {
    if Holds(s, worker, h) {
      assert JobPlaced(s, h.id) && EntrySound(s, HeldSlot(s, h));
    }
  }

  lemma CompleteKeepsTidy(s: Store, worker: string, h: Hand, clock: int, timeout: nat)
    requires Tidy(s, clock, timeout) && worker != "" && HandPlaced(s, worker, h)
    ensures Tidy(Complete(s, worker, h), clock, timeout)
  {
    if Holds(s, worker, h) {
      CompleteKeepsSound(s, worker, h);
      PlacedHandIsOwned(s, worker, h);
      EndKeepsPlaced(s, worker, h, "", 0, "");
      JobHasOnePlace(s, h.id);
      TidyExceptAt(s, Complete(s, worker, h), h.id, clock, timeout);
    }
  }

  lemma ReleaseKeepsTidy(s: Store, worker: string, h: Hand, availableAt: int, error: string, clock: int, timeout: nat)
    requires Tidy(s, clock, timeout) && worker != "" && HandPlaced(s, worker, h)
    ensures Tidy(Release(s, worker, h, availableAt, error), clock, timeout)
  {
    if Holds(s, worker, h) {
      ReleaseKeepsSound(s, worker, h, availableAt, error);
      PlacedHandIsOwned(s, worker, h);
      ReleaseKeepsPlaced(s, worker, h, availableAt, error);
      JobHasOnePlace(s, h.id);
      TidyExceptAt(s, Release(s, worker, h, availableAt, error), h.id, clock, timeout);
    }
  }

  lemma FailKeepsTidy(s: Store, worker: string, h: Hand, error: string, now: nat, failedAt: string, clock: int,
                      timeout: nat)
    requires Tidy(s, clock, timeout) && worker != "" && HandPlaced(s, worker, h)
    requires Holds(s, worker, h) ==> s.jobs[h.id].maxAttempts <= s.jobs[h.id].attempts
    ensures Tidy(Fail(s, worker, h, error, now, failedAt), clock, timeout)
  {
    if Holds(s, worker, h) {
      FailKeepsSound(s, worker, h, error, now, failedAt);
      PlacedHandIsOwned(s, worker, h);
      EndKeepsPlaced(s, worker, h, error, now, failedAt);
      JobHasOnePlace(s, h.id);
      TidyExceptAt(s, Fail(s, worker, h, error, now, failedAt), h.id, clock, timeout);
    }
  }

  lemma RequeueKeepsTidy(s: Store, id: nat, maxAttempts: nat, now: nat, clock: int, timeout: nat)
    requires Tidy(s, clock, timeout) && 1 <= maxAttempts && 1000 * now <= clock
    ensures Tidy(Requeue(s, id, maxAttempts, now).0, clock, timeout)
  {
    if id in s.failed {
      RequeueKeepsSound(s, id, maxAttempts, now);
      RequeueKeepsPlaced(s, id, maxAttempts, now);
      JobHasOnePlace(s, id);
      assert FailedSound(s, id);
      assert EntrySound(s, Slot(s.jobs[id].queue, 0, Last(s, s.jobs[id].queue, 0) + 1));
      TidyExceptAt(s, Requeue(s, id, maxAttempts, now).0, id, clock, timeout);
    }
  }

  lemma ForgetKeepsTidy(s: Store, id: nat, clock: int, timeout: nat)
    requires Tidy(s, clock, timeout)
    ensures Tidy(Forget(s, id).0, clock, timeout)
  {
    if id in s.failed {
      ForgetKeepsSound(s, id);
      ForgetKeepsPlaced(s, id);
      JobHasOnePlace(s, id);
      assert FailedSound(s, id);
      TidyExceptAt(s, Forget(s, id).0, id, clock, timeout);
    }
  }

  /** Time passing keeps it too. */
  lemma TickKeepsTidy(s: Store, clock: int, later: int, timeout: nat)
    requires Tidy(s, clock, timeout) && clock <= later
    ensures Tidy(s, later, timeout)
  {
    forall slot: Slot
      ensures EntryTimed(s, slot, later, timeout)
    {
      assert EntryTimed(s, slot, clock, timeout);
    }
  }

  /** What parking leads to. Once a held job is parked, its holder's `complete` leaves the delayed
      set naming a job that is gone, and its holder's `fail` leaves the job in two places. */
  lemma ParkedJobLosesItsPlace(s: Store, slot: Slot, clock: int, c: Caller, h: Hand)
    requires Sound(s) && Placed(s) && slot in s.entries && OutcomeOf(s, slot, c.now) == Parked
    requires h.id == s.entries[slot].job && Holds(s, s.jobs[h.id].reservedBy, h)
    requires h.queue == slot.queue && h.entry == slot.number
    ensures var t, w := Visit(s, slot, clock, c).0, s.jobs[h.id].reservedBy;
            && h.id !in Complete(t, w, h).jobs && AtDelayed(h.queue) in Places(Complete(t, w, h), h.id)
            && {AtFailed, AtDelayed(h.queue)} <= Places(Fail(t, w, h, "", c.now, ""), h.id)
  {
    var t, w := Visit(s, slot, clock, c).0, s.jobs[h.id].reservedBy;
    assert (h.queue, h.id) in t.delayed && (h.queue, h.id).1 == h.id;
    assert (h.queue, h.id) in Complete(t, w, h).delayed;
    assert (h.queue, h.id) in Fail(t, w, h, "", c.now, "").delayed;
  }
}
