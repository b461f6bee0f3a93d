/** Runs in which the parking branch is taken, because a worker's moment lags the server's clock or
    because two workers bring different timeouts, and what may come of it. */
module RedisLimits {
  import opened Wrappers
  import opened RedisStore
  import opened RedisInvariant
  import opened RedisRuns

  const QUEUE := "default"
  const QUEUED := Hash(QUEUE, "send", "{}", 0, 3, 0, "", 10, 0, "", "", "", Some(1), "", "")

  /** The keyspace of one job, its entries and its delays. */
  function Keyspace(h: Hash, entries: map<Slot, Entry>, last: nat, delayed: map<(string, nat), int>): Store {
    Store(1, map[1 := h], entries, map[(QUEUE, 0) := last], {(QUEUE, 0)}, delayed, map[], map[], {QUEUE})
  }

  predicate Goes(w: World, e: Event, v: World) {
    Enabled(w, e) && Apply(w, e) == v
  }

  function Final(r: Run): World
    requires |r.worlds| == |r.events| + 1
  {
    r.worlds[|r.events|]
  }

  predicate SharedTimeout(r: Run, timeout: nat) {
    forall i | 0 <= i < |r.events| :: r.events[i].DoVisit? ==> r.events[i].caller.timeout == timeout
  }

  predicate PromptClocks(r: Run) {
    |r.worlds| == |r.events| + 1
    && forall i | 0 <= i < |r.events| :: r.events[i].DoVisit? ==> r.events[i].caller.now == r.worlds[i].clock / 1000
  }

  lemma Extend(r: Run, e: Event, v: World) returns (longer: Run)
    requires IsRun(r) && Goes(Final(r), e, v)
    ensures IsRun(longer) && Final(longer) == v
    ensures PromptClocks(r) && (e.DoVisit? ==> e.caller.now == Final(r).clock / 1000) ==> PromptClocks(longer)
    ensures forall t :: SharedTimeout(r, t) && (e.DoVisit? ==> e.caller.timeout == t) ==> SharedTimeout(longer, t)
  {
    longer := Run(r.worlds + [v], r.events + [e]);
    forall i | 0 <= i < |longer.events|
      ensures StepAt(longer, i)
    {
      assert i < |r.events| ==> StepAt(r, i);
    }
  }

  lemma ClaimStep(h: Hash, n: nat, delayed: map<(string, nat), int>, hands: map<string, Hand>, clock: nat, c: Caller)
    requires h.queue == QUEUE && h.attempts < h.maxAttempts && h.reservedUntil <= c.now && 1000 * c.now <= clock
    requires c.worker != "" && 1 <= c.timeout
    ensures Goes(World(Keyspace(h, map[Slot(QUEUE, 0, n) := Entry(1, None)], n, delayed), hands, clock),
                 DoVisit(Slot(QUEUE, 0, n), c),
                 World(Keyspace(h.(attempts := h.attempts + 1, reservedBy := c.worker, entry := Some(n),
                                   reservedUntil := c.now + c.timeout),
                                map[Slot(QUEUE, 0, n) := Entry(1, Some(clock))], n, delayed),
                       hands[c.worker := Hand(1, QUEUE, n, h.attempts + 1, h.maxAttempts)], clock))
  {
  }

  lemma ParkStep(h: Hash, at: nat, hands: map<string, Hand>, clock: nat, c: Caller)
    requires h.queue == QUEUE && c.now < h.reservedUntil && at + 1000 * c.timeout <= clock && 1000 * c.now <= clock
    requires c.worker != "" && 1 <= c.timeout
    ensures Goes(World(Keyspace(h, map[Slot(QUEUE, 0, 1) := Entry(1, Some(at))], 1, map[]), hands, clock),
                 DoVisit(Slot(QUEUE, 0, 1), c),
                 World(Keyspace(h.(entry := None), map[], 1, map[(QUEUE, 1) := h.reservedUntil]), hands, clock))
  {
  }

  lemma ReleaseOldStep(h: Hash, hand: Hand, due: int, clock: nat)
    requires h.queue == QUEUE && h.reservedBy == "a" && hand == Hand(1, QUEUE, 1, h.attempts, h.maxAttempts)
    requires h.priority == 0
    ensures Goes(World(Keyspace(h, map[Slot(QUEUE, 0, 2) := Entry(1, None)], 2, map[]), map["a" := hand], clock),
                 DoRelease("a", due, ""),
                 World(Keyspace(h.(availableAt := due, reservedUntil := 0, reservedBy := "", lastError := "",
                                   entry := None),
                                map[Slot(QUEUE, 0, 2) := Entry(1, None)], 2, map[(QUEUE, 1) := due]),
                       map["a" := hand], clock))
  {
    var entries := map[Slot(QUEUE, 0, 2) := Entry(1, None)];
    assert entries - {Slot(QUEUE, 0, 1)} == entries;
  }

  /** The first job claimed by worker `a` until `10 + timeout`. */
  lemma ClaimedRun(timeout: nat) returns (r: Run)
    requires 1 <= timeout
    ensures IsRun(r) && PromptClocks(r) && SharedTimeout(r, timeout)
    ensures Final(r) == World(Keyspace(QUEUED.(attempts := 1, reservedBy := "a", reservedUntil := 10 + timeout),
                                       map[Slot(QUEUE, 0, 1) := Entry(1, Some(10000))], 1, map[]),
                              map["a" := Hand(1, QUEUE, 1, 1, 3)], 10000)
  {
    var slot := Slot(QUEUE, 0, 1);
    r := Run([World(EMPTY, map[], 10000)], []);
    r := Extend(r, DoPush(PushArgs(QUEUE, "send", "{}", 0, 3, "", 10, "", 10)),
                World(Keyspace(QUEUED, map[slot := Entry(1, None)], 1, map[]), map[], 10000));
    var a := Caller(10, timeout, "a", "");
    ClaimStep(QUEUED, 1, map[], map[], 10000, a);
    var h := QUEUED.(attempts := 1, reservedBy := "a", reservedUntil := 10 + timeout);
    r := Extend(r, DoVisit(slot, a),
      World(Keyspace(h, map[slot := Entry(1, Some(10000))], 1, map[]), map["a" := Hand(1, QUEUE, 1, 1, 3)], 10000));
  }

  /** The same job parked by worker `b` while `a` still holds it. */
  lemma ParkedRun(timeout: nat, clock: nat, b: Caller) returns (r: Run)
    requires 1 <= timeout && 10000 <= clock && b.worker == "b" && 1 <= b.timeout
    requires b.now < 10 + timeout && 10000 + 1000 * b.timeout <= clock && 1000 * b.now <= clock
    ensures IsRun(r) && (b.now == clock / 1000 ==> PromptClocks(r))
            && (b.timeout == timeout ==> SharedTimeout(r, timeout))
    ensures var h := QUEUED.(attempts := 1, reservedBy := "a", reservedUntil := 10 + timeout, entry := None);
            Final(r) == World(Keyspace(h, map[], 1, map[(QUEUE, 1) := 10 + timeout]),
              map["a" := Hand(1, QUEUE, 1, 1, 3)], clock)
  {
    var h := QUEUED.(attempts := 1, reservedBy := "a", reservedUntil := 10 + timeout);
    var hands := map["a" := Hand(1, QUEUE, 1, 1, 3)];
    r := ClaimedRun(timeout);
    r := Extend(r, DoTick(clock),
      World(Keyspace(h, map[Slot(QUEUE, 0, 1) := Entry(1, Some(10000))], 1, map[]), hands, clock));
    ParkStep(h, 10000, hands, clock, b);
    r := Extend(r, DoVisit(Slot(QUEUE, 0, 1), b),
      World(Keyspace(h.(entry := None), map[], 1, map[(QUEUE, 1) := 10 + timeout]), hands, clock));
  }

  /** One shared timeout is not enough on its own. Worker `b` is a second behind the server, so it
      parks the job `a` still held; when `a` completes, the delayed set names a job that is gone. */
  lemma LaggingMomentLeavesTombstone() returns (r: Run)
    ensures IsRun(r) && SharedTimeout(r, 5)
    ensures (QUEUE, 1) in Final(r).store.delayed && 1 !in Final(r).store.jobs
  {
    r := ParkedRun(5, 15000, Caller(14, 5, "b", ""));
    var w := Apply(Final(r), DoComplete("a"));
    r := Extend(r, DoComplete("a"), w);
  }

  /** The job of the second run while `a` holds it, and after `a` put it back until second 210. */
  const HELD := QUEUED.(attempts := 1, reservedBy := "a", reservedUntil := 110)
  const LATE := HELD.(availableAt := 210, reservedUntil := 0, reservedBy := "", entry := None)
  const PROMOTED: map<Slot, Entry> := map[Slot(QUEUE, 0, 2) := Entry(1, None)]
  const HANDS := map["a" := Hand(1, QUEUE, 1, 1, 3)]

  /** Parked early and promoted when `a`'s claim runs out. */
  lemma PromotedRun() returns (r: Run)
    ensures IsRun(r) && PromptClocks(r)
    ensures Final(r) == World(Keyspace(HELD.(entry := Some(2)), PROMOTED, 2, map[]), HANDS, 110000)
  {
    r := ParkedRun(100, 15000, Caller(15, 5, "b", ""));
    r := Extend(r, DoTick(110000),
      World(Keyspace(HELD.(entry := None), map[], 1, map[(QUEUE, 1) := 110]), HANDS, 110000));
    r := Extend(r, DoPromote(QUEUE, 1, 110),
      World(Keyspace(HELD.(entry := Some(2)), PROMOTED, 2, map[]), HANDS, 110000));
  }

  /** Prompt clocks are not enough either. With two timeouts worker `b` parks the job `a` holds,
      promotes it when `a`'s claim runs out, and may claim it at second 110 although `a` has
      meanwhile put it back until second 210, where the job is a second time. */
  lemma MixedTimeoutsClaimBeforeDue() returns (r: Run, e: Event)
    ensures IsRun(r) && PromptClocks(r) && Enabled(Final(r), e) && e.DoVisit? && e.caller.now == Final(r).clock / 1000
    ensures var s := Final(r).store;
            && OutcomeOf(s, e.slot, e.caller.now) == Claimed && s.entries[e.slot].job in s.jobs
            && e.caller.now < s.jobs[s.entries[e.slot].job].availableAt
            && (QUEUE, s.entries[e.slot].job) in s.delayed
  {
    r := PromotedRun();
    ReleaseOldStep(HELD.(entry := Some(2)), HANDS["a"], 210, 110000);
    r := Extend(r, DoRelease("a", 210, ""), World(Keyspace(LATE, PROMOTED, 2, map[(QUEUE, 1) := 210]), HANDS, 110000));
    e := DoVisit(Slot(QUEUE, 0, 2), Caller(110, 5, "b", ""));
  }

  /** Parking alone does no harm: after it the job is in one place still, until its holder ends the
      claim. */
  lemma ParkedJobsMayStayPlaced() returns (r: Run)
    ensures IsRun(r) && !Unparked(r, |r.events|) && Placed(Final(r).store)
  {
    r := ParkedRun(5, 15000, Caller(14, 5, "b", ""));
    var s := Final(r).store;
    assert !DelayTimed(s, QUEUE, 1);
    TidyIffNothingIsParked(r, |r.events|);
    assert !WorldTidy(r.worlds[|r.events|], Longest(r.events));
  }
}
