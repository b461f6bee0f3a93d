/** In which order the streams hand jobs out, and when a claim that was never ended comes round again. */
module RedisOrder {
  import opened QueueLimits
  import opened Wrappers
  import opened RedisStore
  import opened RedisInvariant
  import opened RedisRuns
  import opened RedisPlacement

  /** The entry has not been handed out, or is not there yet. */
  predicate NotYetDelivered(s: Store, slot: Slot) {
    if slot in s.entries then s.entries[slot].delivered.None? else Last(s, slot.queue, slot.level) < slot.number
  }

  /** No step takes a delivery back. */
  predicate DeliveriesStay(s: Store, t: Store) {
    forall slot | slot in t.entries && t.entries[slot].delivered.None? && slot in s.entries ::
      s.entries[slot].delivered.None?
  }

  lemma VisitKeepsDeliveries(s: Store, slot: Slot, clock: int, c: Caller)
    requires slot in s.entries
    ensures DeliveriesStay(s, Visit(s, slot, clock, c).0)
  {
    if OutcomeOf(s, slot, c.now) == Exhausted {
      BuryLeavesTheRest(Drop(Deliver(s, slot, clock), slot), s.entries[slot].job, EXHAUSTED_ERROR, c.now, c.failedAt);
    }
  }

  lemma EndKeepsDeliveries(s: Store, worker: string, h: Hand, availableAt: int, error: string, now: nat,
                           failedAt: string)
    ensures DeliveriesStay(s, Complete(s, worker, h)) && DeliveriesStay(s, Release(s, worker, h, availableAt, error))
    ensures DeliveriesStay(s, Fail(s, worker, h, error, now, failedAt))
  {
  }

  lemma EnqueueKeepsDeliveries(s: Store, queue: string, level: int, id: nat)
    requires Sound(s) && id in s.jobs
    ensures DeliveriesStay(s, Enqueue(s, queue, level, id))
  {
    assert EntrySound(s, Slot(queue, level, Last(s, queue, level) + 1));
  }

  lemma RequeueKeepsDeliveries(s: Store, id: nat, maxAttempts: nat, now: nat)
    requires Sound(s)
    ensures DeliveriesStay(s, Requeue(s, id, maxAttempts, now).0)
  {
    if id in s.jobs {
      assert JobSound(s, id);
      assert EntrySound(s, Slot(s.jobs[id].queue, 0, Last(s, s.jobs[id].queue, 0) + 1));
    }
  }

  lemma PushKeepsDeliveries(s: Store, a: PushArgs)
    requires Sound(s)
    ensures DeliveriesStay(s, Push(s, a).0)
  {
    assert EntrySound(s, Slot(a.queue, a.priority, Last(s, a.queue, a.priority) + 1));
  }

  lemma StepKeepsDeliveries(w: World, e: Event)
    requires WorldSound(w) && Enabled(w, e)
    ensures DeliveriesStay(w.store, Apply(w, e).store)
  {
    match e
    case DoPush(a) => PushKeepsDeliveries(w.store, a);
    case DoPromote(queue, id, _) =>
      if id in w.store.jobs {
        assert DelaySound(w.store, queue, id);
        EnqueueKeepsDeliveries(w.store, queue, w.store.jobs[id].priority, id);
      }
    case DoVisit(slot, c) => VisitKeepsDeliveries(w.store, slot, w.clock, c);
    case DoComplete(worker) => EndKeepsDeliveries(w.store, worker, w.hands[worker], 0, "", 0, "");
    case DoRelease(worker, at, error) => EndKeepsDeliveries(w.store, worker, w.hands[worker], at, error, 0, "");
    case DoFail(worker, error, now, failedAt) =>
      EndKeepsDeliveries(w.store, worker, w.hands[worker], 0, error, now, failedAt);
    case DoRequeue(id, maxAttempts, now) => RequeueKeepsDeliveries(w.store, id, maxAttempts, now);
    case _ =>
  }

  lemma {:induction false} NotDeliveredBefore(r: Run, i: nat, j: nat, slot: Slot)
    requires IsRun(r) && i <= j <= |r.events| && NotYetDelivered(r.worlds[j].store, slot)
    ensures NotYetDelivered(r.worlds[i].store, slot)
    decreases j
  {
    if i < j {
      var w, e := r.worlds[j - 1], r.events[j - 1];
      RunsStaySound(r, j - 1);
      assert StepAt(r, j - 1);
      StepKeepsDeliveries(w, e);
      StepStreamsGrow(w, e);
      assert Last(w.store, slot.queue, slot.level) <= Last(r.worlds[j].store, slot.queue, slot.level);
      if slot in w.store.entries && slot !in r.worlds[j].store.entries {
        assert EntrySound(w.store, slot);
      }
      NotDeliveredBefore(r, i, j - 1, slot);
    }
  }

  /** The step hands the entry out for the first time. */
  predicate FirstHandsOut(r: Run, i: int, slot: Slot) {
    && 0 <= i < |r.events| && i < |r.worlds| && r.events[i].DoVisit? && r.events[i].slot == slot
    && slot in r.worlds[i].store.entries && r.worlds[i].store.entries[slot].delivered.None?
  }

  /** First come, first served: in every run the entries of one level's stream are handed out for the
      first time in the order they were added, whatever other workers do in between. */
  lemma FirstComeFirstServed(r: Run, i: nat, j: nat, earlier: Slot, later: Slot)
    requires IsRun(r) && i < j && FirstHandsOut(r, i, earlier) && FirstHandsOut(r, j, later)
    requires earlier.queue == later.queue && earlier.level == later.level
    ensures earlier.number < later.number
  {
    assert StepAt(r, i);
    RunsStaySound(r, i);
    assert EntrySound(r.worlds[i].store, earlier);
    NotDeliveredBefore(r, i, j, later);
    if earlier == later {
      NotDeliveredBefore(r, i + 1, j, later);
      HandedOutIsDelivered(r.worlds[i], r.events[i]);
    }
  }

  lemma HandedOutIsDelivered(w: World, e: Event)
    requires WorldSound(w) && Enabled(w, e) && e.DoVisit?
    ensures !NotYetDelivered(Apply(w, e).store, e.slot)
  {
    assert EntrySound(w.store, e.slot);
    if OutcomeOf(w.store, e.slot, e.caller.now) == Exhausted {
      BuryLeavesTheRest(Drop(Deliver(w.store, e.slot, w.clock), e.slot), w.store.entries[e.slot].job, EXHAUSTED_ERROR,
        e.caller.now, e.caller.failedAt);
    }
  }

  /** A claim that was never ended comes round again. Once its entry has been idle for the timeout, a
      prompt worker with that timeout may be handed it, and then claims the job or, if that was its last
      attempt, buries it; it never finds it still held. */
  lemma AbandonedClaimsAreTakenUp(r: Run, k: nat, slot: Slot, c: Caller, at: int)
    requires IsRun(r) && k <= |r.events| && Unparked(r, k) && c.timeout == Longest(r.events) && 1 <= c.timeout
    requires c.worker != "" && c.now == r.worlds[k].clock / 1000
    requires slot in r.worlds[k].store.entries && r.worlds[k].store.entries[slot].delivered == Some(at)
    requires at + 1000 * c.timeout <= r.worlds[k].clock
    ensures Enabled(r.worlds[k], DoVisit(slot, c))
    ensures var s := r.worlds[k].store;
            && s.entries[slot].job in s.jobs && s.jobs[s.entries[slot].job].reservedUntil <= c.now
            && OutcomeOf(s, slot, c.now)
               == if s.jobs[s.entries[slot].job].attempts < s.jobs[s.entries[slot].job].maxAttempts then Claimed
                  else Exhausted
  {
    UnparkedRunsStayTidy(r, k);
    var s := r.worlds[k].store;
    assert EntryPlaced(s, slot) && EntryTimed(s, slot, r.worlds[k].clock, Longest(r.events));
  }
}
