/** The two tables of the Postgres driver, and what each guarded statement does to them. */
module PgStore {
  import opened QueueLimits
  import opened Wrappers

  /** None stands for NULL. */
  datatype Row = Row(
    queue: string, name: string, payload: string, attempts: nat, maxAttempts: nat, priority: int,
    uniqueKey: Option<string>, availableAt: int, reservedUntil: Option<int>, reservedBy: Option<string>,
    lastError: string, createdAt: int)

  datatype FailedRow = FailedRow(queue: string, name: string, payload: string, attempts: nat, error: string,
                                 failedAt: int)

  datatype Db = Db(rows: map<nat, Row>, failed: map<nat, FailedRow>, nextId: nat, nextFailed: nat)

  const EMPTY := Db(map[], map[], 1, 1)

  predicate Unheld(row: Row, moment: int) {
    row.reservedUntil.None? || row.reservedUntil.value <= moment
  }

  predicate Spent(row: Row) {
    row.maxAttempts <= row.attempts
  }

  /** `reserved_by = worker AND attempts = n`: names one claim rather than one worker. */
  predicate Owned(row: Row, worker: string, attempts: nat) {
    row.reservedBy == Some(worker) && row.attempts == attempts
  }

  function Insert(db: Db, row: Row): Db {
    db.(rows := db.rows[db.nextId := row], nextId := db.nextId + 1)
  }

  function NewRow(queue: string, name: string, payload: string, maxAttempts: nat, priority: int,
                  key: Option<string>, availableAt: int, createdAt: int): Row {
    Row(queue, name, payload, 0, maxAttempts, priority, key, availableAt, None, None, "", createdAt)
  }

  predicate KeyFree(db: Db, key: Option<string>) {
    key.Some? ==> forall id | id in db.rows :: db.rows[id].uniqueKey != key
  }

  /** The guarded UPDATE that claims. */
  function Claim(db: Db, id: nat, until: int, worker: string, moment: int): Db {
    if id in db.rows && Unheld(db.rows[id], moment) then
      var row := db.rows[id];
      db.(rows := db.rows[id := row.(reservedUntil := Some(until), reservedBy := Some(worker),
        attempts := row.attempts + 1)])
    else db
  }

  /** DELETE ... RETURNING and INSERT, in one transaction. */
  function Bury(db: Db, id: nat, error: string, failedAt: int): Db
    requires id in db.rows
  {
    var row := db.rows[id];
    db.(rows := db.rows - {id}, nextFailed := db.nextFailed + 1,
        failed := db.failed[db.nextFailed := FailedRow(row.queue, row.name, row.payload, row.attempts, error,
          failedAt)])
  }

  function Exhaust(db: Db, id: nat, moment: int, failedAt: int): Db {
    if id in db.rows && Spent(db.rows[id]) && Unheld(db.rows[id], moment) then Bury(db, id, EXHAUSTED_ERROR, failedAt)
      else db
  }

  predicate Holds(db: Db, id: nat, worker: string, attempts: nat) {
    id in db.rows && Owned(db.rows[id], worker, attempts)
  }

  function Delete(db: Db, id: nat, worker: string, attempts: nat): Db {
    if Holds(db, id, worker, attempts) then db.(rows := db.rows - {id}) else db
  }

  function Release(db: Db, id: nat, worker: string, attempts: nat, availableAt: int, error: string): Db {
    if Holds(db, id, worker, attempts) then
      db.(rows := db.rows[id := db.rows[id].(reservedUntil := None, reservedBy := None, availableAt := availableAt,
        lastError := error)])
    else db
  }

  function Fail(db: Db, id: nat, worker: string, attempts: nat, error: string, failedAt: int): Db {
    if Holds(db, id, worker, attempts) then Bury(db, id, error, failedAt) else db
  }

  /** One row of `retry_failed`: the row was read before this transaction, so the insert does not
      depend on it still being there. */
  function RetryRow(db: Db, failedId: nat, f: FailedRow, maxAttempts: nat, moment: int): Db {
    var t := Insert(db, NewRow(f.queue, f.name, f.payload, maxAttempts, 0, None, moment, moment));
    t.(failed := t.failed - {failedId})
  }

  function Forget(db: Db, failedId: nat): Db {
    db.(failed := db.failed - {failedId})
  }
}
