/** The Redis keyspace of one queue prefix, and what each Lua script does to it.

    A script is atomic, so each is a function from keyspace to keyspace. `_RESERVE` is the one
    that loops; its two loop bodies are the functions `Promote` and `Visit`. */
module RedisStore {
  import opened QueueLimits
  import opened Wrappers

  const PROMOTE_LIMIT: nat := 50

  /** The job hash. `entry` is the id of its stream entry, None for the empty string. */
  datatype Hash = Hash(
    queue: string, name: string, payload: string, attempts: nat, maxAttempts: nat, priority: int,
    uniqueKey: string, availableAt: int, reservedUntil: int, reservedBy: string, lastError: string,
    createdAt: string, entry: Option<nat>, error: string, failedAt: string)

  /** A stream entry by its key and its id. Generated ids only ever grow within one stream, and
      nothing but their order and uniqueness is used, so they are numbered from 1. */
  datatype Slot = Slot(queue: string, level: int, number: nat)

  /** `delivered` is the millisecond the consumer group last handed the entry out, None while it
      has not; an entry leaves the stream and the pending list together. */
  datatype Entry = Entry(job: nat, delivered: Option<int>)

  datatype Store = Store(
    seqNo: nat,
    jobs: map<nat, Hash>,
    entries: map<Slot, Entry>,
    lastNumber: map<(string, int), nat>,
    levels: set<(string, int)>,
    delayed: map<(string, nat), int>,
    failed: map<nat, int>,
    unique: map<string, nat>,
    queues: set<string>)

  const EMPTY := Store(0, map[], map[], map[], {}, map[], map[], map[], {})

  function Last(s: Store, queue: string, level: int): nat {
    if (queue, level) in s.lastNumber then s.lastNumber[(queue, level)] else 0
  }

  /** XADD, HSET entry and ZADD levels, which always come together. */
  function Enqueue(s: Store, queue: string, level: int, id: nat): Store
    requires id in s.jobs
  {
    var number := Last(s, queue, level) + 1;
    s.(entries := s.entries[Slot(queue, level, number) := Entry(id, None)],
       lastNumber := s.lastNumber[(queue, level) := number],
       jobs := s.jobs[id := s.jobs[id].(entry := Some(number))],
       levels := s.levels + {(queue, level)})
  }

  /** XACK and XDEL: harmless when the entry is already gone. */
  function Drop(s: Store, slot: Slot): Store {
    s.(entries := s.entries - {slot})
  }

  /** Both scripts that bury a job give its unique key up first. */
  function FreeKey(s: Store, id: nat): Store
    requires id in s.jobs
  {
    var key := s.jobs[id].uniqueKey;
    if key == "" then s
    else s.(unique := s.unique - {key}, jobs := s.jobs[id := s.jobs[id].(uniqueKey := "")])
  }

  function Bury(s: Store, id: nat, error: string, now: nat, failedAt: string): Store
    requires id in s.jobs
  {
    var t := FreeKey(s, id);
    t.(jobs := t.jobs[id := t.jobs[id].(error := error, failedAt := failedAt, reservedUntil := 0,
                                        reservedBy := "", entry := None)],
       failed := t.failed[id := now])
  }

  datatype PushArgs = PushArgs(queue: string, name: string, payload: string, priority: int, maxAttempts: nat,
                               unique: string, availableAt: int, createdAt: string, now: nat)

  predicate KeyTaken(s: Store, key: string) {
    key != "" && key in s.unique && s.unique[key] in s.jobs
  }

  function NewHash(a: PushArgs): Hash {
    Hash(a.queue, a.name, a.payload, 0, a.maxAttempts, a.priority, a.unique, a.availableAt, 0, "", "",
         a.createdAt, None, "", "")
  }

  /** The hash of a new job, its unique key and its queue's name. */
  function Register(s: Store, a: PushArgs): Store {
    var id := s.seqNo + 1;
    s.(seqNo := id, jobs := s.jobs[id := NewHash(a)],
       unique := if a.unique == "" then s.unique else s.unique[a.unique := id],
       queues := s.queues + {a.queue})
  }

  /** `_PUSH`. */
  function Push(s: Store, a: PushArgs): (Store, nat) {
    if KeyTaken(s, a.unique) then (s, s.unique[a.unique])
    else
      var t, id := Register(s, a), s.seqNo + 1;
      if a.now < a.availableAt then (t.(delayed := t.delayed[(a.queue, id) := a.availableAt]), id)
      else (Enqueue(t, a.queue, a.priority, id), id)
  }

  /** One pass of `_RESERVE`'s promote loop. */
  function Promote(s: Store, queue: string, id: nat): Store {
    if (queue, id) !in s.delayed then s
    else
      var t := s.(delayed := s.delayed - {(queue, id)});
      if id in t.jobs then Enqueue(t, queue, t.jobs[id].priority, id) else t
  }

  /** What a claim hands the worker: enough to address the job, its entry and its attempt. */
  datatype Hand = Hand(id: nat, queue: string, entry: nat, attempts: nat, maxAttempts: nat)

  datatype Caller = Caller(now: nat, timeout: nat, worker: string, failedAt: string)

  /** XAUTOCLAIM may hand back a delivered entry once it has been idle for the whole timeout;
      XREADGROUP hands out the oldest entry never delivered. */
  predicate Takeable(s: Store, slot: Slot, clock: int, timeout: nat) {
    && slot in s.entries
    && match s.entries[slot].delivered
       case Some(at) => at + 1000 * timeout <= clock
       case None =>
         forall other | other in s.entries && other.queue == slot.queue && other.level == slot.level ::
           s.entries[other].delivered.None? ==> slot.number <= other.number
  }

  datatype RoundOutcome = Tombstone | Parked | Exhausted | Claimed

  function OutcomeOf(s: Store, slot: Slot, now: nat): RoundOutcome
    requires slot in s.entries
  {
    var id := s.entries[slot].job;
    if id !in s.jobs then Tombstone
    else if now < s.jobs[id].reservedUntil then Parked
    else if s.jobs[id].maxAttempts <= s.jobs[id].attempts then Exhausted
    else Claimed
  }

  /** Handing an entry out records when. */
  function Deliver(s: Store, slot: Slot, clock: int): Store
    requires slot in s.entries
  {
    s.(entries := s.entries[slot := s.entries[slot].(delivered := Some(clock))])
  }

  /** One round of `_RESERVE`'s claim loop, on the entry it was handed. */
  function Visit(s: Store, slot: Slot, clock: int, c: Caller): (Store, Option<Hand>)
    requires slot in s.entries
  {
    var id := s.entries[slot].job;
    var t := Deliver(s, slot, clock);
    match OutcomeOf(s, slot, c.now)
    case Tombstone => (Drop(t, slot), None)
    case Parked =>
      (Drop(t.(delayed := t.delayed[(slot.queue, id) := t.jobs[id].reservedUntil],
               jobs := t.jobs[id := t.jobs[id].(entry := None)]), slot), None)
    case Exhausted => (Bury(Drop(t, slot), id, EXHAUSTED_ERROR, c.now, c.failedAt), None)
    case Claimed =>
      var h := t.jobs[id].(attempts := t.jobs[id].attempts + 1, reservedBy := c.worker,
                           reservedUntil := c.now + c.timeout, entry := Some(slot.number));
      (t.(jobs := t.jobs[id := h]), Some(Hand(id, h.queue, slot.number, h.attempts, h.maxAttempts)))
  }

  /** The opening of every script that ends a claim. */
  predicate Holds(s: Store, worker: string, h: Hand) {
    h.id in s.jobs && s.jobs[h.id].reservedBy == worker && s.jobs[h.id].attempts == h.attempts
  }

  function HeldSlot(s: Store, h: Hand): Slot
    requires h.id in s.jobs
  {
    Slot(h.queue, s.jobs[h.id].priority, h.entry)
  }

  /** `_COMPLETE`. */
  function Complete(s: Store, worker: string, h: Hand): Store {
    if !Holds(s, worker, h) then s
    else
      var t := FreeKey(Drop(s, HeldSlot(s, h)), h.id);
      t.(jobs := t.jobs - {h.id})
  }

  /** `_RELEASE`. */
  function Release(s: Store, worker: string, h: Hand, availableAt: int, error: string): Store {
    if !Holds(s, worker, h) then s
    else
      Drop(s.(delayed := s.delayed[(h.queue, h.id) := availableAt],
              jobs := s.jobs[h.id := s.jobs[h.id].(availableAt := availableAt, reservedUntil := 0,
                                                   reservedBy := "", lastError := error, entry := None)]),
           HeldSlot(s, h))
  }

  /** `_FAIL`. */
  function Fail(s: Store, worker: string, h: Hand, error: string, now: nat, failedAt: string): Store {
    if !Holds(s, worker, h) then s
    else Bury(Drop(s, HeldSlot(s, h)), h.id, error, now, failedAt)
  }

  /** `_REQUEUE`, with how many jobs it moved. */
  function Requeue(s: Store, id: nat, maxAttempts: nat, now: nat): (Store, nat) {
    if id !in s.failed then (s, 0)
    else
      var t := s.(failed := s.failed - {id});
      if id !in t.jobs then (t, 0)
      else
        var queue := if t.jobs[id].queue == "" then "default" else t.jobs[id].queue;
        var h := t.jobs[id].(attempts := 0, maxAttempts := maxAttempts, priority := 0, uniqueKey := "",
                             availableAt := now, reservedUntil := 0, reservedBy := "", lastError := "",
                             error := "", failedAt := "");
        (Enqueue(t.(jobs := t.jobs[id := h], queues := t.queues + {queue}), queue, 0, id), 1)
  }

  /** `_FORGET`, with how many jobs it removed. */
  function Forget(s: Store, id: nat): (Store, nat) {
    if id !in s.failed then (s, 0)
    else (s.(failed := s.failed - {id}, jobs := s.jobs - {id}), 1)
  }
}
