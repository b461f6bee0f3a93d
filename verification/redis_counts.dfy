/** What `stats` reports about one queue, counted from the streams and the delayed set alone. */
module RedisCounts {
  import opened Wrappers
  import opened RedisStore
  import opened RedisInvariant
  import opened RedisQueue

  datatype Counts = Counts(pending: nat, delayed: nat, reserved: nat, total: nat)

  function EntriesAt(s: Store, queue: string, ranked: seq<int>): set<Slot> {
    set slot | slot in s.entries && slot.queue == queue && slot.level in ranked
  }

  function PendingAt(s: Store, queue: string, ranked: seq<int>): set<Slot> {
    set slot | slot in EntriesAt(s, queue, ranked) && s.entries[slot].delivered.Some?
  }

  function ScheduledIn(s: Store, queue: string): set<(string, nat)> {
    set d | d in s.delayed && d.0 == queue
  }

  lemma OneMoreLevel(s: Store, queue: string, ranked: seq<int>, level: int)
    requires level !in ranked
    ensures |EntriesAt(s, queue, ranked + [level])| == |EntriesAt(s, queue, ranked)| + |EntriesAt(s, queue, [level])|
    ensures |PendingAt(s, queue, ranked + [level])| == |PendingAt(s, queue, ranked)| + |PendingAt(s, queue, [level])|
  {
    var a, b := EntriesAt(s, queue, ranked), EntriesAt(s, queue, [level]);
    assert EntriesAt(s, queue, ranked + [level]) == a + b && a !! b;
    var c, d := PendingAt(s, queue, ranked), PendingAt(s, queue, [level]);
    assert PendingAt(s, queue, ranked + [level]) == c + d && c !! d;
  }

  function DueIn(s: Store, queue: string, now: int): set<(string, nat)> {
    set d | d in ScheduledIn(s, queue) && s.delayed[d] <= now
  }

  function CountsFrom(ready: nat, held: nat, due: nat, scheduled: nat): Counts {
    var pending := Max(0, ready - held) + due;
    var later := Max(0, scheduled - due);
    Counts(pending, later, held, pending + later + held)
  }

  /** The entries on the levels the queue is known to have. */
  function EntriesIn(s: Store, queue: string): set<Slot> {
    set slot | slot in s.entries && slot.queue == queue && (queue, slot.level) in s.levels
  }

  function DeliveredIn(s: Store, queue: string): set<Slot> {
    set slot | slot in EntriesIn(s, queue) && s.entries[slot].delivered.Some?
  }

  /** `_counts`: XLEN and the pending list of each level, then ZCOUNT and ZCARD. */
  method Count(q: Scripts, queue: string, now: int) returns (c: Counts)
    ensures var s := q.State();
            c == CountsFrom(|EntriesIn(s, queue)|, |DeliveredIn(s, queue)|, |DueIn(s, queue, now)|,
              |ScheduledIn(s, queue)|)
  {
    ghost var s := q.State();
    var ranked := q.RankedLevels(queue);
    var ready, held := 0, 0;
    for i := 0 to |ranked|
      invariant ready == |EntriesAt(s, queue, ranked[..i])| && held == |PendingAt(s, queue, ranked[..i])|
    {
      var here := set slot | slot in q.entries && slot.queue == queue && slot.level == ranked[i];
      var pending := set slot | slot in here && q.entries[slot].delivered.Some?;
      ghost var before := ranked[..i];
      assert ranked[..i + 1] == before + [ranked[i]];
      OneMoreLevel(s, queue, before, ranked[i]);
      assert here == EntriesAt(s, queue, [ranked[i]]) && pending == PendingAt(s, queue, [ranked[i]]);
      ready, held := ready + |here|, held + |pending|;
    }
    assert ranked[..|ranked|] == ranked;
    assert EntriesAt(s, queue, ranked) == EntriesIn(s, queue) && PendingAt(s, queue, ranked) == DeliveredIn(s, queue);
    var scheduled := set d | d in q.delayed && d.0 == queue;
    var due := set d | d in scheduled && q.delayed[d] <= now;
    assert scheduled == ScheduledIn(s, queue) && due == DueIn(s, queue, now);
    c := CountsFrom(ready, held, |due|, |scheduled|);
  }

  /////////////////////////////////
  /// The report is right
  /////////////////////////////////

  function LiveIn(s: Store, queue: string): set<nat> {
    set id | id in s.jobs && id !in s.failed && s.jobs[id].queue == queue
  }

  function HeldIn(s: Store, queue: string): set<nat> {
    set id | id in LiveIn(s, queue) && s.jobs[id].reservedBy != ""
  }

  /** Unheld jobs that are in a stream, or due by the moment of the report. */
  function ReadyIn(s: Store, queue: string, now: int): set<nat> {
    set id | id in LiveIn(s, queue) && s.jobs[id].reservedBy == ""
      && (s.jobs[id].entry.Some? || s.jobs[id].availableAt <= now)
  }

  /** Unheld jobs in the delayed set that are not due by then. */
  function LaterIn(s: Store, queue: string, now: int): set<nat> {
    set id | id in LiveIn(s, queue) && s.jobs[id].reservedBy == "" && s.jobs[id].entry.None?
      && now < s.jobs[id].availableAt
  }

  function DueJobsIn(s: Store, queue: string, now: int): set<nat> {
    set id | id in LiveIn(s, queue) && s.jobs[id].reservedBy == "" && s.jobs[id].availableAt <= now
  }

  function JobsAt(s: Store, slots: set<Slot>): set<nat>
    requires slots <= s.entries.Keys
  {
    set slot | slot in slots :: s.entries[slot].job
  }

  lemma {:induction false} EntriesCountTheirJobs(s: Store, slots: set<Slot>)
    requires Placed(s) && slots <= s.entries.Keys
    ensures |JobsAt(s, slots)| == |slots|
    decreases slots
  {
    if slots != {} {
      var slot :| slot in slots;
      EntriesCountTheirJobs(s, slots - {slot});
      forall other | other in slots - {slot}
        ensures s.entries[other].job != s.entries[slot].job
      {
        assert EntryPlaced(s, slot) && EntryPlaced(s, other);
      }
      assert JobsAt(s, slots) == JobsAt(s, slots - {slot}) + {s.entries[slot].job};
    }
  }

  function Ids(delays: set<(string, nat)>): set<nat> {
    set d | d in delays :: d.1
  }

  lemma {:induction false} DelaysCountTheirJobs(queue: string, delays: set<(string, nat)>)
    requires forall d | d in delays :: d.0 == queue
    ensures |Ids(delays)| == |delays|
    decreases delays
  {
    if delays != {} {
      var d :| d in delays;
      DelaysCountTheirJobs(queue, delays - {d});
      assert Ids(delays) == Ids(delays - {d}) + {d.1};
    }
  }

  /** Streams and delayed set between them name every live job of the queue, once. */
  lemma StreamsAndDelaysNameLiveJobs(s: Store, queue: string)
    requires Sound(s) && Placed(s)
    ensures var streamed, scheduled := JobsAt(s, EntriesIn(s, queue)), Ids(ScheduledIn(s, queue));
            LiveIn(s, queue) == streamed + scheduled && streamed !! scheduled
  {
    forall slot | slot in EntriesIn(s, queue)
      ensures s.entries[slot].job in LiveIn(s, queue) && s.jobs[s.entries[slot].job].entry.Some?
    {
      assert EntryPlaced(s, slot) && EntrySound(s, slot);
    }
    forall d | d in ScheduledIn(s, queue)
      ensures d.1 in LiveIn(s, queue) && s.jobs[d.1].entry.None?
    {
      assert DelayPlaced(s, d.0, d.1) && DelaySound(s, d.0, d.1);
    }
    forall id | id in LiveIn(s, queue)
      ensures id in JobsAt(s, EntriesIn(s, queue)) || id in Ids(ScheduledIn(s, queue))
    {
      assert JobPlaced(s, id);
      match Home(s, id)
      case AtEntry(slot) => assert EntrySound(s, slot) && slot in EntriesIn(s, queue);
      case AtDelayed(_) => assert (queue, id) in ScheduledIn(s, queue) && (queue, id).1 == id;
    }
  }

  lemma PartIsNoLarger<T>(part: set<T>, whole: set<T>)
    requires part <= whole
    ensures |part| <= |whole|
  {
    assert whole == part + (whole - part);
  }

  /** As long as every job is in one place the total is right for any moment: the queue's live, unfailed
      jobs, wherever parking has left them. */
  lemma TotalIsTheLiveJobs(s: Store, queue: string, now: int)
    requires Sound(s) && Placed(s)
    ensures CountsFrom(|EntriesIn(s, queue)|, |DeliveredIn(s, queue)|, |DueIn(s, queue, now)|,
              |ScheduledIn(s, queue)|).total
            == |LiveIn(s, queue)|
  {
    var entries, scheduled := EntriesIn(s, queue), ScheduledIn(s, queue);
    StreamsAndDelaysNameLiveJobs(s, queue);
    EntriesCountTheirJobs(s, entries);
    DelaysCountTheirJobs(queue, scheduled);
    PartIsNoLarger(DeliveredIn(s, queue), entries);
    PartIsNoLarger(DueIn(s, queue, now), scheduled);
  }

  /** What is known of the job an entry names. */
  predicate EntryFacts(s: Store, slot: Slot, clock: int) {
    slot in s.entries ==>
      var id := s.entries[slot].job;
      && id in s.jobs && id !in s.failed && s.jobs[id].queue == slot.queue && (slot.queue, slot.level) in s.levels
      && Home(s, id) == AtEntry(slot) && 1000 * s.jobs[id].availableAt <= clock
      && (s.entries[slot].delivered.Some? <==> s.jobs[id].reservedBy != "")
  }

  /** What is known of the job a delay names. */
  predicate DelayFacts(s: Store, d: (string, nat)) {
    d in s.delayed ==>
      && d.1 in s.jobs && d.1 !in s.failed && s.jobs[d.1].queue == d.0 && Home(s, d.1) == AtDelayed(d.0)
      && s.jobs[d.1].reservedBy == "" && s.jobs[d.1].availableAt == s.delayed[d]
  }

  lemma NamesHaveFacts(s: Store, clock: int, timeout: nat)
    requires Tidy(s, clock, timeout)
    ensures forall slot {:trigger s.entries[slot]} | slot in s.entries :: EntryFacts(s, slot, clock)
    ensures forall d {:trigger s.delayed[d]} {:trigger d in s.delayed} | d in s.delayed :: DelayFacts(s, d)
  {
    forall slot | slot in s.entries
      ensures EntryFacts(s, slot, clock)
    {
      assert EntryPlaced(s, slot) && EntrySound(s, slot) && EntryTimed(s, slot, clock, timeout);
    }
    forall d | d in s.delayed
      ensures DelayFacts(s, d)
    {
      assert DelayPlaced(s, d.0, d.1) && DelayTimed(s, d.0, d.1);
    }
  }

  lemma LiveJobIsNamed(s: Store, clock: int, timeout: nat, id: nat)
    requires Tidy(s, clock, timeout) && id in s.jobs && id !in s.failed
    ensures match Home(s, id)
            case AtFailed => false
            case AtEntry(slot) => slot in s.entries && s.entries[slot].job == id && slot.queue == s.jobs[id].queue
              && EntryFacts(s, slot, clock)
            case AtDelayed(queue) => (queue, id) in s.delayed && queue == s.jobs[id].queue && DelayFacts(s, (queue, id))
  {
    assert JobPlaced(s, id);
    NamesHaveFacts(s, clock, timeout);
  }

  lemma HeldJobsAreDelivered(s: Store, clock: int, timeout: nat, queue: string)
    requires Tidy(s, clock, timeout)
    ensures HeldIn(s, queue) == JobsAt(s, DeliveredIn(s, queue))
  {
    NamesHaveFacts(s, clock, timeout);
    forall id | id in HeldIn(s, queue)
      ensures id in JobsAt(s, DeliveredIn(s, queue))
    {
      LiveJobIsNamed(s, clock, timeout, id);
    }
  }

  lemma ReadyJobsAreWaitingOrDue(s: Store, clock: int, timeout: nat, queue: string, now: int)
    requires Tidy(s, clock, timeout)
    ensures var waiting, due := JobsAt(s, EntriesIn(s, queue) - DeliveredIn(s, queue)), Ids(DueIn(s, queue, now));
            ReadyIn(s, queue, now) == waiting + due && waiting !! due
  {
    NamesHaveFacts(s, clock, timeout);
    forall id | id in ReadyIn(s, queue, now)
      ensures id in JobsAt(s, EntriesIn(s, queue) - DeliveredIn(s, queue)) || id in Ids(DueIn(s, queue, now))
    {
      LiveJobIsNamed(s, clock, timeout, id);
      if Home(s, id).AtDelayed? {
        assert (queue, id) in DueIn(s, queue, now) && (queue, id).1 == id;
      }
    }
  }

  lemma LaterJobsAreScheduled(s: Store, clock: int, timeout: nat, queue: string, now: int)
    requires Tidy(s, clock, timeout)
    ensures LaterIn(s, queue, now) == Ids(ScheduledIn(s, queue) - DueIn(s, queue, now))
  {
    NamesHaveFacts(s, clock, timeout);
    forall id | id in LaterIn(s, queue, now)
      ensures id in Ids(ScheduledIn(s, queue) - DueIn(s, queue, now))
    {
      LiveJobIsNamed(s, clock, timeout, id);
      assert (queue, id) in ScheduledIn(s, queue) - DueIn(s, queue, now) && (queue, id).1 == id;
    }
  }

  lemma LiveSplits(s: Store, queue: string, now: int)
    ensures |LiveIn(s, queue)| == |ReadyIn(s, queue, now)| + |LaterIn(s, queue, now)| + |HeldIn(s, queue)|
  {
    var ready, later, held := ReadyIn(s, queue, now), LaterIn(s, queue, now), HeldIn(s, queue);
    assert LiveIn(s, queue) == ready + later + held;
  }

  lemma ReadyCount(s: Store, clock: int, timeout: nat, queue: string, now: int)
    requires Tidy(s, clock, timeout)
    ensures |ReadyIn(s, queue, now)| == |EntriesIn(s, queue)| - |DeliveredIn(s, queue)| + |DueIn(s, queue, now)|
    ensures |HeldIn(s, queue)| == |DeliveredIn(s, queue)| <= |EntriesIn(s, queue)|
  {
    var delivered, waiting := DeliveredIn(s, queue), EntriesIn(s, queue) - DeliveredIn(s, queue);
    var due := DueIn(s, queue, now);
    HeldJobsAreDelivered(s, clock, timeout, queue);
    EntriesCountTheirJobs(s, delivered);
    ReadyJobsAreWaitingOrDue(s, clock, timeout, queue, now);
    EntriesCountTheirJobs(s, waiting);
    DelaysCountTheirJobs(queue, due);
    assert EntriesIn(s, queue) == delivered + waiting;
  }

  lemma LaterCount(s: Store, clock: int, timeout: nat, queue: string, now: int)
    requires Tidy(s, clock, timeout)
    ensures |LaterIn(s, queue, now)| == |ScheduledIn(s, queue)| - |DueIn(s, queue, now)|
  {
    var due, later := DueIn(s, queue, now), ScheduledIn(s, queue) - DueIn(s, queue, now);
    LaterJobsAreScheduled(s, clock, timeout, queue, now);
    DelaysCountTheirJobs(queue, later);
    assert ScheduledIn(s, queue) == due + later;
  }

  /** While nothing has been parked, a report on one keyspace splits the queue for any moment:
      reserved are the held jobs, pending the unheld ones in a stream or due by then, delayed the
      others, and together they are all its live, unfailed jobs. */
  lemma CountsSplitTheQueue(s: Store, queue: string, clock: int, timeout: nat, now: int)
    requires Tidy(s, clock, timeout)
    ensures |DeliveredIn(s, queue)| <= |EntriesIn(s, queue)|
    ensures CountsFrom(|EntriesIn(s, queue)|, |DeliveredIn(s, queue)|, |DueIn(s, queue, now)|, |ScheduledIn(s, queue)|)
            == Counts(|ReadyIn(s, queue, now)|, |LaterIn(s, queue, now)|, |HeldIn(s, queue)|, |LiveIn(s, queue)|)
  {
    ReadyCount(s, clock, timeout, queue, now);
    LaterCount(s, clock, timeout, queue, now);
    LiveSplits(s, queue, now);
  }

  /** Pending are just the due jobs if and only if no job waiting in a stream is due after the moment
      of the report, which holds when that is not behind the server's second. */
  lemma PendingMeansDueIff(s: Store, queue: string, clock: int, timeout: nat, now: int)
    requires Tidy(s, clock, timeout)
    ensures ReadyIn(s, queue, now) == DueJobsIn(s, queue, now) <==>
            forall id | id in LiveIn(s, queue) && s.jobs[id].reservedBy == "" && s.jobs[id].entry.Some? ::
              s.jobs[id].availableAt <= now
    ensures clock / 1000 <= now ==> ReadyIn(s, queue, now) == DueJobsIn(s, queue, now)
  {
    NamesHaveFacts(s, clock, timeout);
    forall id | id in LiveIn(s, queue) && s.jobs[id].entry.Some?
      ensures 1000 * s.jobs[id].availableAt <= clock
    {
      LiveJobIsNamed(s, clock, timeout, id);
    }
    forall id | id in LiveIn(s, queue) && s.jobs[id].reservedBy == "" && s.jobs[id].entry.Some?
        && now < s.jobs[id].availableAt
      ensures id in ReadyIn(s, queue, now) && id !in DueJobsIn(s, queue, now)
    {
    }
  }
}
