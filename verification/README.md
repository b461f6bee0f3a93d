# A model of py_app_runner

py_app_runner is a toolkit for Python services. This project models the parts of it that many
processes share, and proves what each promises.

- **The job queue.** `QueueSpec` is the queue its callers see: waiting, held and failed jobs, claims
  that are deadlines, and runs of any number of workers. The Redis driver (`RedisStore` and the
  modules after it) is a state machine over its keyspace with one step per Lua script, `_RESERVE` cut
  into its loop bodies; `RedisQueue` has the scripts themselves, command by command, proved against
  those steps. The Postgres driver (`PgStore` and after) is a state machine over its two tables with
  the candidate SELECT and the claiming UPDATE as separate steps, with and without the row lock. Both
  are proved to refine `QueueSpec`, and their methods to be stretches of those runs
  (`RedisQueue.CallIsPartOfARun`, `PgCalls`). `Worker` is the worker loop; `WorkerQueue` composes it
  with the queue, and `RedisWorker` and `PgWorker` with the two drivers.
- **The throttle.** A fixed window over traces of hits at real times, and a store that expires keys.
- **Error texts.** `FitError` cuts a text to a byte budget on a character boundary; the encoding is
  section 3 of RFC 3629, which Python's strict UTF-8 codec follows.
- **Migrations.** Splitting a script into statements, the order of file names, the states of files
  and rows, runs of appliers taking turns on the lock, and the apply, baseline and repair commands.
- **Key rotation.** The stored form of an encrypted field, and the paging loop that rewrites a column
  while the application goes on writing to it.
- **Socket indexes.** The two maps that say which sockets belong to which user or device, and the
  fan-out over them that removes dead sockets as it runs.

Time is a number. A worker reads its clock before its statement runs, so the moment it brings is at
most the present one. Worker ids are not empty. A worker remembers only its newest claim, because it
finishes one job before it reserves the next.

## Where the code does less than its documentation suggests

- **Redis placement.** One shared timeout does not by itself keep the driver from parking a held job: a
  worker whose moment lags the server's clock can do it too
  (`RedisLimits.LaggingMomentLeavesTombstone`), and with mixed timeouts a job can even be handed out
  before it is due (`RedisLimits.MixedTimeoutsClaimBeforeDue`). Parking is not itself the fault
  (`RedisLimits.ParkedJobsMayStayPlaced`); the exact conditions, over whole runs, are in what ends the
  claim afterwards. Jobs stay in one place as long as no script ends a claim on an entry the hash's
  `entry` does not name, save a release that finds its job parked
  (`RedisPlacement.OnePlaceIffEndsOnEntry`), and are handed out when due as long as no release puts a
  job off while another entry still names it (`RedisDue.StreamedWhenDueIff`). Neither happens while nothing is parked
  (`RedisPlacement.UnparkedRunsEndOnEntry`), and claims never overlap in any case.
- **Postgres stats.** The columns count a job twice when the report's moment was read before a job
  that is held by then became due (`PgStats.LateReportCountsTwice`, and the exact condition in
  `PgStats.StatsSplitUnlessLookingBack`).
- **Postgres retries.** `retry_failed` inserts a job whether or not the failed row it read is still there,
  so two operators retrying at once duplicate it (`PgRefinement.TwoRetriesAddAJob`, and the exact
  condition in `PgRefinement.RetryingAddsNoJobIff`).
- **The throttle.** The documented worst case of twice the limit is exact; it needs hits within a
  second, and on whole seconds one less is the bound. Callers whose clocks lag by ever less can exceed
  it (`Throttle.LaggingHitsPassThrice`), and a second is exactly how much less they may
  (`Throttle.BoundKeptIff`). The key's expiry runs on the server's clock and the
  window on the caller's, so a hit that lags can find its key expired with the window still open and be
  let through (`Throttle.LateHitSlipsThrough`, and the exact condition in
  `Throttle.ExpiryNeverShowsIff`).
- **The worker.** It promises one completion for each job it reserves. A handler that ends in
  `SystemExit`, or in anything else that is neither a cancellation nor an ordinary exception, leaves its
  job without a delete, release or fail; every other ending makes exactly one call
  (`Worker.OneCallUnlessTheHandlerExits`). A job whose last attempt is cancelled, or releases the job
  itself, is put back with its budget spent and buried by the next reserve without running again
  (`WorkerQueue.HowAJobLeaves`).
- **Key ids.** A key id may end in one line feed, because the pattern that checks it ends in `$`
  (`FieldCrypto.KeyIdMayEndInALineFeed`).

## Model

| member | source | states |
|---|---|---|
| QueueSpec.ClaimsNeverOverlap | src/py_app_runner/queue/interface.py:31-35 | In every run, when a job is claimed a second time the first deadline has passed or the first holder has ended its own claim. |
| QueueSpec.HeldUntilDeadlineOrEnd | src/py_app_runner/queue/interface.py:31-35 | A claim not yet ended by its holder, and not expired, still belongs to the worker that made it. |
| QueueSpec.CompletionEndsOwnClaim | src/py_app_runner/queue/interface.py:37-49 | A delete, release or fail that takes effect ends the newest claim of the job, and that claim was made by the very worker presenting it. |
| QueueSpec.CompletionTakesEffectOnce | src/py_app_runner/queue/interface.py:37-49 | However often a remembered claim is presented, at most one completion takes effect for it. |
| QueueSpec.AttemptsCountClaims | src/py_app_runner/queue/job.py:13-50 | `attempts` is the number of claims since the job was last put on the queue. |
| QueueSpec.ClaimsStayInBudget | src/py_app_runner/queue/job.py:47-50 | If every claim is made with attempts left, a job is handed out at most `max_attempts` times each time it is queued. |
| QueueSpec.JobsAreConserved | src/py_app_runner/queue/interface.py:57-63 | Failed jobs are those moved there minus those retried or forgotten; every pushed job is live, failed, completed or forgotten. |
| QueueSpec.UniqueKeysAreUnique | src/py_app_runner/queue/interface.py:18-29 | At most one live job carries a given unique key. |
| QueueSpec.KeyStaysWhileLive | src/py_app_runner/queue/interface.py:18-29 | A job keeps its unique key as long as it is live. |
| RedisInvariant.PushReturnsHolderOfKey | src/py_app_runner/queue/driver_redis.py:77-99 | `push` returns an existing id exactly when a live job carries the key, and otherwise an id no job has had. |
| RedisInvariant.PlacedMeansOnePlaceEach | src/py_app_runner/queue/driver_redis.py:74-325 | Every job hash is named from exactly one place: the failed set, its own queue's delayed set, or one entry of the stream of its queue and priority; and nothing names a missing job. |
| RedisInvariant.VisitKeepsTidyIff | src/py_app_runner/queue/driver_redis.py:140-211 | Whatever timeouts the workers bring and however far their clocks lag, one round of the claim loop keeps the placement and timing invariant if and only if the job of the entry it was handed is not still under an unexpired claim (the guard of the parking branch). |
| RedisInvariant.VisitedJobsAreDue | src/py_app_runner/queue/driver_redis.py:172-208 | While the invariant holds a round finds no tombstone, and the job it is handed is due by the server's clock, though the branch never reads `available_at`. |
| RedisInvariant.ParkingNeedsALaggingOrShorterCaller | src/py_app_runner/queue/driver_redis.py:181-188 | While the invariant holds a round parks only a job handed out before, and only for a caller whose timeout is not the longest or whose clock is a second or more behind. |
| RedisInvariant.VisitKeepsPlaced | src/py_app_runner/queue/driver_redis.py:166-211 | A round of the claim loop leaves every job in the one place its hash names on each of its branches, parking included. |
| RedisInvariant.ParkedJobLosesItsPlace | src/py_app_runner/queue/driver_redis.py:181-188 | After parking, the holder's `complete` leaves the delayed set naming a missing job and its `fail` leaves the job in two places. |
| RedisInvariant.PushKeepsTidy | src/py_app_runner/queue/driver_redis.py:74-116 | `_PUSH` keeps the placement and timing invariant. |
| RedisInvariant.PromoteKeepsTidy | src/py_app_runner/queue/driver_redis.py:128-142 | Promoting a due job keeps it. |
| RedisInvariant.CompleteKeepsTidy | src/py_app_runner/queue/driver_redis.py:231-245 | `_COMPLETE` keeps it, for a claim that is stale or on the entry the hash names (which `WorldTidy` keeps of every remembered claim). |
| RedisInvariant.ReleaseKeepsTidy | src/py_app_runner/queue/driver_redis.py:248-261 | `_RELEASE` keeps it, for such a claim. |
| RedisInvariant.FailKeepsTidy | src/py_app_runner/queue/driver_redis.py:264-284 | `_FAIL` keeps it, for such a claim, on the last attempt. |
| RedisInvariant.RequeueKeepsTidy | src/py_app_runner/queue/driver_redis.py:287-314 | `_REQUEUE` keeps it. |
| RedisInvariant.ForgetKeepsTidy | src/py_app_runner/queue/driver_redis.py:317-325 | `_FORGET` keeps it. |
| RedisRuns.RunsStaySound | src/py_app_runner/queue/driver_redis.py:74-325 | Whatever the timeouts and clocks, every reachable keyspace satisfies the basic invariant, and every remembered claim that still holds has the job's own budget and queue. |
| RedisRuns.KeysAndFailuresAreExact | src/py_app_runner/queue/driver_redis.py:77-99 | In every reachable keyspace the unique-key map and the `unique_key` fields are exact inverses over live jobs, and failed jobs are unheld, keyless and out of attempts. |
| RedisRuns.TidyIffNothingIsParked | src/py_app_runner/queue/driver_redis.py:120-213 | For every run, with any timeouts and any lag: the keyspaces satisfy the stronger invariant (in place, held jobs in their streams, delivered exactly while held) up to step k if and only if no round before it took the parking branch. |
| RedisRuns.PromptRunsNeverPark | src/py_app_runner/queue/driver_redis.py:172-208 | With one shared timeout and moments read as the script runs nothing is ever parked, and what is handed out is due by the worker's own clock. |
| RedisPlacement.OnePlaceIffEndsOnEntry | src/py_app_runner/queue/driver_redis.py:217-284 | For every run, with any timeouts, lags and parked jobs: each job is in exactly one place, the one its hash names, and nothing names a missing job, in all keyspaces up to step k, if and only if no `complete`, `fail` or `release` before it took effect while the hash's `entry` was not the one presented (for a `release`: while it was another entry; a parked job's empty one does no harm). |
| RedisPlacement.EveryJobHasOnePlace | src/py_app_runner/queue/driver_redis.py:74-325 | Under that condition each job is in one place and no round finds a tombstone. |
| RedisPlacement.UnparkedRunsEndOnEntry | src/py_app_runner/queue/driver_redis.py:181-188 | As long as nothing is parked every claim is ended on the entry its job's hash names. |
| RedisDue.StreamedWhenDueIff | src/py_app_runner/queue/driver_redis.py:172-208 | For every run and job: whatever a stream offers of the job is due by the server's clock, though the claim branch never reads `available_at`, in all keyspaces up to step k, if and only if no `release` before it put the job off to a later moment while an entry other than the one presented still named it. |
| RedisDue.EndingOnEntryPutsOffNothingStreamed | src/py_app_runner/queue/driver_redis.py:248-261 | Claims ended on their entries never do that. |
| RedisDue.ClaimsAreDue | src/py_app_runner/queue/driver_redis.py:172-208 | So as long as claims are ended on their entries, parked jobs or not, no round finds a tombstone, and no job is handed out before its `available_at` by the server's clock, delayed releases included. |
| RedisOrder.FirstComeFirstServed | src/py_app_runner/queue/driver_redis.py:160-164 | First come, first served: in every run, whatever happens in between, the entries of one queue's priority level are handed out for the first time in the order they were added. |
| RedisOrder.AbandonedClaimsAreTakenUp | src/py_app_runner/queue/driver_redis.py:153-208 | A claim nobody ended comes round again: while nothing has been parked, a prompt worker with the longest timeout may be handed an entry once it has been idle for that long, finds its claim expired, and claims the job, or buries it if its budget is spent. |
| RedisRefinement.StepRefines | src/py_app_runner/queue/interface.py:17-63 | Every Redis script is one step of the abstract queue, or none. |
| RedisRefinement.RunRefines | src/py_app_runner/queue/interface.py:17-63 | Every run of the Redis driver, mixed timeouts and lagging clocks included, is a run of the abstract queue that never overspends an attempt budget. |
| RedisRefinement.NoTwoWorkersHoldOneJob | src/py_app_runner/queue/driver_redis.py:172-208 | Even when parking and duplicate entries occur, no job is claimed while another claim's `reserved_until` lies ahead, unless that claim's own holder ended it. |
| RedisRefinement.HolderMadeTheNewestClaim | src/py_app_runner/queue/driver_redis.py:217-225 | A worker whose complete, release or fail takes effect made the newest claim of the job, even after a retry has reset `attempts`. |
| RedisRefinement.HashesAreConserved | src/py_app_runner/queue/driver_redis.py:264-325 | The failed set holds the jobs moved there and not yet retried or forgotten; every pushed job keeps its hash until it completes or is forgotten. |
| RedisRefinement.HandedOutWithinBudget | src/py_app_runner/queue/driver_redis.py:189-211 | Each time a job is queued it is handed out at most `max_attempts` times. |
| RedisLimits.LaggingMomentLeavesTombstone | src/py_app_runner/queue/driver_redis.py:181-188 | A run with one shared timeout and a worker a second behind the server parks a held job and ends with a delayed entry naming a missing one. |
| RedisLimits.MixedTimeoutsClaimBeforeDue | src/py_app_runner/queue/driver_redis.py:181-208 | A run with prompt clocks and two timeouts in which a job may be claimed before its `available_at`. |
| RedisLimits.ParkedJobsMayStayPlaced | src/py_app_runner/queue/driver_redis.py:181-188 | A run that parks a held job and still has every job in one place, so parking alone is not what misplaces jobs. |
| RedisQueue.CallIsPartOfARun | src/py_app_runner/queue/driver_redis.py:120-213 | A whole `_RESERVE` call is a sequence of enabled steps of the runs above, and leaves the worker remembering the claim it answers. |
| RedisPush.PushWritesItsArguments | src/py_app_runner/queue/driver_redis.py:86-98 | A push with an unused key gets a new id; its hash has the queue, name, payload, priority, budget, key and date it was given, no attempts, no holder and no errors; the key leads to it, and every other hash is as it was. |
| RedisPush.PushQueuesByDate | src/py_app_runner/queue/driver_redis.py:100-116 | It waits in the delayed set scored by its date until then, or if due at once at the end of its own level's stream, not handed out. |
| RedisPush.LeftoverKeyIsTakenOver | src/py_app_runner/queue/driver_redis.py:77-99 | On any keyspace, reachable or not: a key that leads to a job that is there makes push answer it and change nothing; a key left over from a job that is gone goes to the new one. |
| RedisPush.PushAgainChangesNothing | src/py_app_runner/queue/driver_redis.py:77-99 | In every run, as long as the job a push answered is live, any further push with the same key answers that job and changes nothing. |
| RedisQueue.Scripts.Push | src/py_app_runner/queue/driver_redis.py:74-116 | The script, command by command, gives the keyspace and id of the push step, whose fields and laws `RedisPush` states. |
| RedisQueue.Scripts.PushJob | src/py_app_runner/queue/driver_redis.py:376-405 | An empty queue is the default one, a budget is at least one, a delay never negative; with that the push is a step every run may take. |
| RedisQueue.Scripts.ReleaseJob | src/py_app_runner/queue/driver_redis.py:501-519 | A release is put off by its delay from now, never backwards. |
| RedisQueue.Scripts.PromoteDue | src/py_app_runner/queue/driver_redis.py:128-142 | The promote loop promotes due jobs only, and leaves none unless it reached its limit. |
| RedisQueue.Scripts.DueFirst | src/py_app_runner/queue/driver_redis.py:128-131 | The limited range query: due ids, earliest first, and all of them if there are fewer than the limit. |
| RedisQueue.Scripts.TryLevel | src/py_app_runner/queue/driver_redis.py:144-211 | On one level, up to CLAIM_ROUNDS entries are visited until one is claimed; without a claim nothing undelivered is left on it or its rounds are spent. |
| RedisQueue.Scripts.Judge | src/py_app_runner/queue/driver_redis.py:166-211 | One round on the entry handed out: tombstone, parked, exhausted or claimed, with the whole new keyspace of that branch. |
| RedisQueue.Scripts.Reserve | src/py_app_runner/queue/driver_redis.py:120-213 | The whole script: due jobs promoted first, levels tried highest first, the answer is the claim its last round made, and a claim leaves every higher level with nothing undelivered or its rounds spent. |
| RedisQueue.Scripts.Complete | src/py_app_runner/queue/driver_redis.py:231-245 | Deletes entry, hash and key exactly when the presented claim is still held. |
| RedisQueue.Scripts.Release | src/py_app_runner/queue/driver_redis.py:248-261 | Puts the job into the delayed set exactly when the presented claim is still held. |
| RedisQueue.Scripts.Fail | src/py_app_runner/queue/driver_redis.py:264-284 | Moves the job to the failed set exactly when the presented claim is still held. |
| RedisQueue.Scripts.Requeue | src/py_app_runner/queue/driver_redis.py:287-314 | Moves one failed job back to its queue with a fresh budget, and says whether it did. |
| RedisQueue.Scripts.Forget | src/py_app_runner/queue/driver_redis.py:317-325 | Removes one failed job, and says whether it did. |
| RedisCounts.Count | src/py_app_runner/queue/driver_redis.py:556-590 | On one keyspace, the loop over the levels sums stream lengths and pending entries of the whole queue, and combines them with the two counts of the delayed set. |
| RedisCounts.TotalIsTheLiveJobs | src/py_app_runner/queue/driver_redis.py:581-590 | For a report on one keyspace at any moment the total is the queue's live, unfailed jobs as long as every job is in one place, parked ones included. |
| RedisCounts.CountsSplitTheQueue | src/py_app_runner/queue/driver_redis.py:556-590 | While nothing was parked, for a report on one keyspace at any moment: reserved are the held jobs, pending the unheld ones in a stream or due, delayed the rest, and the total all live, unfailed jobs. |
| RedisCounts.PendingMeansDueIff | src/py_app_runner/queue/driver_redis.py:581-582 | Pending are exactly the due jobs if and only if no job waiting in a stream is due after the moment of the report; so whenever that is not behind the server's second. |
| RedisReasons.FailedJobsSayWhy | src/py_app_runner/queue/driver_redis.py:189-206 | In every run a failed job's hash names the error and stamp, and the failed set the second, of the newest step that failed it: a worker's `fail` or a reserve that found it out of attempts. |
| RedisReasons.LastErrorIsTheNewestReleases | src/py_app_runner/queue/driver_redis.py:248-261 | In every run `last_error` is the error of the newest release since the job was last queued; a retry clears it. |
| PgRuns.RunsStaySound | src/py_app_runner/queue/driver_pg.py:218-279 | With or without row locks, every reachable pair of tables satisfies the basic invariant. |
| PgRuns.AttemptNamesOneClaim | src/py_app_runner/queue/driver_pg.py:36-38 | Over all interleavings an (id, attempts) pair names at most one claim. |
| PgRuns.EveryIdIsAccountedFor | src/py_app_runner/queue/driver_pg.py:334-381 | Every issued id is in exactly one of the table, completed, moved to failed. |
| PgRuns.AttemptsStayInBudget | src/py_app_runner/queue/driver_pg.py:218-265 | With the candidate's row lock held until the claim, `attempts <= max_attempts` in every reachable state. |
| PgRuns.CandidateIsNeverLost | src/py_app_runner/queue/driver_pg.py:239-265 | With the lock held the row a transaction chose is still there and unheld when it acts on it, due at the moment the transaction read, with its attempts as judged. |
| PgRuns.HeldRowsAreDue | src/py_app_runner/queue/driver_pg.py:267-297 | With the lock held no row is both held and not yet due at the present moment. |
| PgRuns.WithoutTheLockBudgetsOverspend | src/py_app_runner/queue/driver_pg.py:272-279 | A concrete run without the row lock in which a job's attempts exceed its budget. |
| PgRefinement.StepRefines | src/py_app_runner/queue/driver_pg.py:126-495 | Every guarded statement is one step of the abstract queue, or none. |
| PgRefinement.RunRefines | src/py_app_runner/queue/driver_pg.py:126-495 | Every run of the Postgres driver is a run of the abstract queue; with the lock held it never overspends a budget. |
| PgRefinement.GuardAloneKeepsClaimsApart | src/py_app_runner/queue/driver_pg.py:281-297 | The guarded UPDATE alone, without row locks, keeps claim periods of one job from overlapping unless the holder ended its claim early. |
| PgRefinement.HolderMadeTheNewestClaim | src/py_app_runner/queue/driver_pg.py:334-361 | A delete, release or fail that takes effect presents the newest claim of the row, and no second one takes effect for it. |
| PgRefinement.FailedRowsAreConserved | src/py_app_runner/queue/driver_pg.py:363-381 | The failed count equals moved minus retried minus forgotten; rows, failed rows, completed and forgotten jobs together are those pushed plus those added by retrying a failed row that was gone. |
| PgRefinement.RetryingAddsNoJobIff | src/py_app_runner/queue/driver_pg.py:452-475 | Over every run, with the read of `retry_failed` a step of its own: retrying adds no job if and only if each row retried was still in the failed table. |
| PgRefinement.SeparateRetriesAddNoJob | src/py_app_runner/queue/driver_pg.py:452-475 | Operators who leave alone what another has read and not yet retried add none, in any interleaving. |
| PgRefinement.TwoRetriesAddAJob | src/py_app_runner/queue/driver_pg.py:452-475 | A run in which two operators retry at once and the one job pushed is there twice. |
| PgQueue.Tables.Push | src/py_app_runner/queue/driver_pg.py:126-201 | Inserts under a new id the row with the queue (or the default), name, payload, budget of at least one, priority, key and the date the delay gives, unheld and with no attempts; or, when some row carries the key, changes nothing and returns the id of one that does. |
| PgQueue.FirstMeans | src/py_app_runner/queue/driver_pg.py:267-279 | By columns: the first row is of that queue, due and unheld at the moment, and every other such row has a lower priority, or the same and a later date, or both the same and a larger id. |
| PgQueue.ClaimHandsOutTheFirstDueRow | src/py_app_runner/queue/driver_pg.py:281-297 | A claim hands out that row, with attempts left before, counts one attempt, and holds it for the worker for the timeout, at least a second; every other column and row stays. |
| PgQueue.Tables.Candidate | src/py_app_runner/queue/driver_pg.py:267-279 | The first due, unheld row of the queue by priority descending, available_at, id, and whether it is out of attempts; None means there is none. |
| PgQueue.Tables.ClaimRow | src/py_app_runner/queue/driver_pg.py:281-297 | Claims exactly when the row is there and unheld at the moment, and says so. |
| PgQueue.Tables.Round | src/py_app_runner/queue/driver_pg.py:219-265 | One round buries the first due row if it is out of attempts and claims it otherwise, with the whole new tables. |
| PgQueue.Tables.ReserveFrom | src/py_app_runner/queue/driver_pg.py:218-265 | Claims the first row in order; a None means there was no candidate, or CLAIM_ROUNDS rounds each moved one exhausted row to failed; both with the whole new tables. |
| PgQueue.Tables.MoveToFailed | src/py_app_runner/queue/driver_pg.py:363-381 | Moves the row, whole, exactly when it is there and the guard holds. |
| PgQueue.Tables.Delete | src/py_app_runner/queue/driver_pg.py:334-342 | Removes the row exactly when the claim is still owned. |
| PgQueue.Tables.Release | src/py_app_runner/queue/driver_pg.py:344-357 | Puts the row back exactly when the claim is still owned. |
| PgQueue.Tables.Fail | src/py_app_runner/queue/driver_pg.py:359-361 | Moves the row to failed exactly when the claim is still owned. |
| PgQueue.Tables.RetryFailed | src/py_app_runner/queue/driver_pg.py:443-477 | Reads the failed rows, then retries each in turn; the count and tables are those of the specification. |
| PgQueue.RetryAllMovesEveryRow | src/py_app_runner/queue/driver_pg.py:443-477 | Run alone, a retry moves every picked row and nothing else, each under a new id with its queue, name and payload and a fresh budget. |
| PgQueue.Tables.ForgetFailed | src/py_app_runner/queue/driver_pg.py:479-495 | Removes one id, everything failed before a date, or everything, and counts what it removed. |
| PgCalls.RoundIsPartOfARun | src/py_app_runner/queue/driver_pg.py:227-251 | A round that finds a row is an enabled look and take of the runs, with or without the lock: the same tables and remembered claim, and the look judges the row spent exactly when the round buries it. |
| PgCalls.NothingDueMeansNoLook | src/py_app_runner/queue/driver_pg.py:228-230 | A round that finds nothing leaves no row of the queue a look would be enabled on. |
| PgCalls.ReserveIsPartOfARun | src/py_app_runner/queue/driver_pg.py:218-265 | A whole `reserve` of one queue is a stretch of a run, ending in the same tables and leaving the worker remembering the claim it answers. |
| PgCalls.RetryIsPartOfARun | src/py_app_runner/queue/driver_pg.py:443-477 | So is a whole `retry_failed`: one pick, then each picked row retried as it was read. |
| PgCalls.PushIsPartOfARun | src/py_app_runner/queue/driver_pg.py:126-182 | So is a push that inserts a row. |
| PgCalls.OneRowPerKey | src/py_app_runner/queue/driver_pg.py:182-201 | In every run at most one row carries a key, so the id answered for a taken key is its one holder. |
| PgReasons.FailedRowsSayWhy | src/py_app_runner/queue/driver_pg.py:363-381 | In every run a failed row names the error and moment of the very step that moved it, a worker's `fail` or a reserve that found it out of attempts, and the moved row's queue, name, payload and attempts. |
| PgReasons.LastErrorIsTheNewestReleases | src/py_app_runner/queue/driver_pg.py:344-357 | In every run whose rows are pushed without one, `last_error` is the error of the newest release. |
| PgStats.ColumnsCountTheirJobs | src/py_app_runner/queue/driver_pg.py:408-423 | In every run each column counts its own jobs of the abstract queue: pending those claimable at the moment, delayed those not yet due, reserved those held past it, total all of the queue. |
| PgStats.StatsSplitIff | src/py_app_runner/queue/driver_pg.py:408-423 | pending + delayed + reserved equals total if and only if no row is held and not yet due at once. |
| PgStats.StatsSplitUnlessLookingBack | src/py_app_runner/queue/driver_pg.py:408-423 | With the lock held, for every moment up to the present: they add up if and only if every row still held at that moment was due by it, and a row counted twice has become due since. |
| PgStats.StatsSplitTheQueue | src/py_app_runner/queue/driver_pg.py:408-423 | With the lock held a report whose moment is the present one adds up in every reachable state. |
| PgStats.LateReportCountsTwice | src/py_app_runner/queue/driver_pg.py:408-423 | A run with the lock held in which a report whose moment was read a second earlier counts one job as delayed and as reserved. |
| Worker.BackoffFollowsTheSteps | src/py_app_runner/queue/worker.py:31-47 | The nth attempt waits for the nth step, every later one for the last, a single number every time, never less than 0; no steps mean no wait, and the default steps are 10, 60, 300. |
| Worker.Job.Release | src/py_app_runner/queue/job.py:32-40 | Records the delay, never negative; the last call decides. |
| Worker.WorkerLoop.RunJob | src/py_app_runner/queue/worker.py:147-176 | A handler that returns has its job deleted, or released after the last delay it asked for; one that raises has it failed on the last attempt and released after its backoff before; one that is cancelled has it released at once; one that exits (with `SystemExit` or anything else that is neither a cancellation nor an ordinary exception) gets no call. An exit and a cancellation go on up, and so does any other call that raises. |
| Worker.OneCallUnlessTheHandlerExits | src/py_app_runner/queue/worker.py:147-176 | Over any number of turns a job gets exactly as many calls as it was reserved and seen through by a handler that did not exit. |
| Worker.OnlyTheLastJobGoesUncalled | src/py_app_runner/queue/worker.py:71-130 | Of the jobs a run reserves each gets exactly one call, save the last when its handler exits, which gets none. |
| Worker.WorkerLoop.JobFailed | src/py_app_runner/queue/worker.py:178-191 | Fails on the last attempt, otherwise releases with that attempt's backoff. |
| Worker.WhatEndsARun | src/py_app_runner/queue/worker.py:71-130 | By what happened in a turn: the loop gives up exactly on five failed reserves in a row, passes on exactly what the job in hand let through, and stops exactly when it found nothing and was told to, or has done `max_jobs` jobs or gone on for `max_time`, never on a failed reserve. |
| Worker.WorkerLoop.Run | src/py_app_runner/queue/worker.py:71-130 | Every turn taken but the last leaves the loop running, the jobs reserved got their calls in order, never more jobs than `max_jobs` are done, and the exit is the one its last turn, or a stop asked for before the next or before the run, calls for. |
| WorkerQueue.EndingDecidesWhatBecomesOfTheJob | src/py_app_runner/queue/worker.py:147-191 | In every run, by how the handler ended: returned, the job leaves by an effective completion and the failed jobs are as before; released or cancelled, it is live and unheld with its attempts unchanged, due after the last delay or at once; raised, due after its backoff, or failed with its name, payload and attempts on the last attempt. |
| WorkerQueue.StaysOnCourse | src/py_app_runner/queue/worker.py:147-191 | For a job whose claims do not expire, however its handler ends each time: between attempts it is as its last conclusion put it back, and left alone since. |
| WorkerQueue.HowAJobLeaves | src/py_app_runner/queue/worker.py:147-191 | Such a job leaves only completed because its handler returned, failed because it raised on the last attempt, or buried by a reserve because the last attempt was cancelled or released the job itself. |
| WorkerQueue.FailsAfterExactlyItsBudget | src/py_app_runner/queue/worker.py:178-191 | A job whose handler always raises leaves by its worker's own `fail`, after exactly `max_attempts` runs since it was last queued. |
| WorkerQueue.AttemptsWaitForTheirDate | src/py_app_runner/queue/worker.py:147-191 | When attempt n + 1 is claimed the job has been left alone since it was put back after attempt n, due when that ending said. |
| WorkerQueue.AttemptsWaitOutTheirBackoff | src/py_app_runner/queue/worker.py:31-47 | For a handler that always raises that is backoff(n) after the moment the worker read then. |
| RedisWorker.EndingDecidesWhatBecomesOfTheJob | src/py_app_runner/queue/worker.py:147-191 | How each ending decides what becomes of the job, on Redis: a handler that returns has its hash deleted, a released or cancelled job is live and unheld with its attempts and the date, and only one that raises on the last attempt gets it into the failed set. |
| RedisWorker.ReturnedJobsNeverFail | src/py_app_runner/queue/worker.py:170-176 | From then on a job whose handler returned is in no keyspace of the run, failed or not. |
| RedisWorker.HowAJobLeaves | src/py_app_runner/queue/worker.py:147-191 | On every Redis run a job whose claims do not expire leaves completed, failed on its last attempt, or buried after a last attempt that was cancelled or released it. |
| RedisWorker.FailsAfterExactlyItsBudget | src/py_app_runner/queue/worker.py:178-191 | On every Redis run a job whose handler always raises leaves by its worker's own `fail`, into the failed set, after exactly `max_attempts` claims. |
| RedisWorker.AttemptsWaitOutTheirBackoff | src/py_app_runner/queue/worker.py:178-191 | As long as no release puts the job off while a second entry names it (so whenever claims are ended on their entries), attempt n + 1 is handed out no sooner, by the server's clock, than backoff(n) after attempt n was put back. |
| PgWorker.EndingDecidesWhatBecomesOfTheJob | src/py_app_runner/queue/worker.py:147-191 | How each ending decides what becomes of the job, on Postgres: a handler that returns has its row deleted, a released or cancelled row is unheld with its attempts and the date, and only one that raises on the last attempt gets it into the failed table, with its error and date. |
| PgWorker.ReturnedJobsNeverFail | src/py_app_runner/queue/worker.py:170-176 | From then on a job whose handler returned is in no table of the run and was never moved to the failed one. |
| PgWorker.HowAJobLeaves | src/py_app_runner/queue/worker.py:147-191 | On every Postgres run with the row lock held a job whose claims do not expire leaves completed, failed on its last attempt, or buried after a last attempt that was cancelled or released it. |
| PgWorker.FailsAfterExactlyItsBudget | src/py_app_runner/queue/worker.py:178-191 | On every Postgres run with the row lock held a job whose handler always raises leaves by its worker's own `fail` after exactly `max_attempts` claims. |
| PgWorker.AttemptsWaitOutTheirBackoff | src/py_app_runner/queue/worker.py:178-191 | There attempt n + 1 is claimed at a moment no sooner than backoff(n) after attempt n was put back. |
| Throttle.WindowOf | src/py_app_runner/throttle/throttle.py:38-55 | Each hit's counter is its place in the window of the hit that opened it. |
| Throttle.NextWindow | src/py_app_runner/throttle/throttle.py:38-55 | Windows are runs of consecutive hits; a new one opens only after the last has closed. |
| Throttle.EachWindowAllowsTheLimit | src/py_app_runner/throttle/throttle.py:175-187 | No window lets more than the limit through. |
| Throttle.AllowedIffAmongTheFirst | src/py_app_runner/throttle/throttle.py:175-187 | A hit is allowed if and only if it is among the first `limit` of its window. |
| Throttle.RemainingHitsPass | src/py_app_runner/throttle/throttle.py:175-187 | `remaining` is exactly how many more hits of the same window pass. |
| Throttle.RefusedUntilRetryAfter | src/py_app_runner/throttle/throttle.py:175-187 | After a refusal the next attempt passes if and only if its caller's second is `retry_after` or more later. |
| Throttle.AtMostTwiceTheLimit | src/py_app_runner/throttle/throttle.py:3-8 | For every limit, window and trace of real times, every half-open interval as long as the window holds at most 2·limit allowed hits, as long as no hit lags by over a second more than a later one. |
| Throttle.PromptLagsAreWithinASecond | src/py_app_runner/throttle/throttle.py:122-127 | That is so whenever every caller's second is the server's. |
| Throttle.BoundKeptIff | src/py_app_runner/throttle/throttle.py:122-134 | A second is the exact tolerance: that bound holds for every limit, window, interval and trace whose hits lag by no more than d over a later one if and only if d is at most one second. |
| Throttle.LaggingHitsPassThrice | src/py_app_runner/throttle/throttle.py:122-127 | For any tolerance above a second there is such a trace, of callers who read their seconds before, in which three hits pass where the limit is one. |
| Throttle.TwiceTheLimitHappens | src/py_app_runner/throttle/throttle.py:3-8 | That bound is reached for every limit and window. |
| Throttle.OneLessOnWholeSeconds | src/py_app_runner/throttle/throttle.py:3-8 | When hits come on whole seconds the bound is 2·limit - 1. |
| Throttle.ExpiryNeverShowsIff | src/py_app_runner/throttle/throttle.py:38-55 | For all hits, checks and clears of a key, whatever moments their callers read: a store that expires the key answers as one that never does if and only if no hit or check meets a key expired at the server while its caller's second is inside the window. |
| Throttle.ExpiryNeverShows | src/py_app_runner/throttle/throttle.py:38-55 | So they agree when no operation lags an earlier one by a second more than that one lagged; in particular when each caller's second is the server's. |
| Throttle.LateHitSlipsThrough | src/py_app_runner/throttle/throttle.py:122-134 | A hit read in the last second of the window and run just after the key expired is let through, where the counter would refuse it. |
| Throttle.HitIsAnsweredByItsPlace | src/py_app_runner/throttle/throttle.py:119-134 | Each hit of a trace is answered by its place in its window: allowed exactly when among the first `limit`, with the hits so far, what is left, when the window closes, and how long until then for a refused one. |
| Throttle.AnswersKeepTheBound | src/py_app_runner/throttle/throttle.py:3-8 | Over the answers of a store that expires its keys: in each window exactly the first `limit` hits are answered as allowed, and in any interval as long as the window at most 2·limit, as long as no hit meets an expired key inside its window and lags stay within a second. |
| Throttle.CheckTellsOfTheOpenWindow | src/py_app_runner/throttle/throttle.py:136-154 | A peek counts nothing; in an open window it answers allowed exactly when at most `limit` hits have been counted, with what is left; otherwise a full allowance. |
| Throttle.Store.HitKey | src/py_app_runner/throttle/throttle.py:119-134 | Counts the attempt whether or not it is allowed, answers by the stored window, touches no other key, and refuses a limit or window below 1. |
| Throttle.Store.CheckKey | src/py_app_runner/throttle/throttle.py:136-154 | Answers without counting. |
| Throttle.Store.ClearKey | src/py_app_runner/throttle/throttle.py:156-169 | Forgets the key and no other. |
| FitError.FitKeepsTheLongestPrefix | src/py_app_runner/queue/driver_pg.py:56-64 | A text that fits is unchanged; an over-long one keeps exactly its longest prefix of whole characters whose UTF-8 encoding fits, and is marked as cut. |
| FitError.CutKeepsWholeChars | src/py_app_runner/queue/driver_pg.py:61-64 | For every cut, decoding what is left gives the most whole characters that fit, and nothing else. |
| FitError.EncodeRoundTrips | src/py_app_runner/queue/driver_pg.py:56-64 | Decoding the whole encoding of a text gives the text back. |
| SplitStatements.Split | src/py_app_runner/migrations/discovery.py:115-134 | The script plus one `;` is cut into pieces, each at the earliest complete statement, and a remainder; what is returned is the stripped pieces with code and then the remainder without that `;`, if it has any. |
| SplitStatements.StatementsAreTheScript | src/py_app_runner/migrations/discovery.py:121-132 | The pieces and the remainder one after the other are the script itself, with a `;` more if it needed one. |
| SplitStatements.WhatHoldsCodeIsHandedOn | src/py_app_runner/migrations/discovery.py:130-134 | Exactly the pieces that hold code are returned, stripped and in order, and an incomplete remainder last rather than dropped. |
| SplitStatements.CutIsUnique | src/py_app_runner/migrations/discovery.py:121-128 | For any completeness test, cutting at the earliest complete `;` each time gives one sequence of pieces only. |
| SplitStatements.CutUp | src/py_app_runner/migrations/discovery.py:121-128 | The loop's pieces concatenate back to the text, each ends at the earliest complete `;`, and nothing more can be cut from the rest. |
| SplitStatements.KeptInOrder | src/py_app_runner/migrations/discovery.py:130-134 | The pieces kept keep their order, and exactly the pieces of only comments, white space and bare `;` are dropped. |
| SplitStatements.NoCodeMeansQuiet | src/py_app_runner/migrations/discovery.py:137-139 | The line-by-line test fails exactly when every character is white space, inside a comment, or a `;` alone on its line. |
| SplitStatements.StripKeepsCode | src/py_app_runner/migrations/discovery.py:126-132 | Stripping a piece does not change whether it has code. |
| Discovery.FindDuplicate | src/py_app_runner/migrations/discovery.py:71-80 | A directory is refused exactly when two files share a prefix, and the two named are the first such pair in name order. |
| Discovery.PrefixesOrderAsNames | src/py_app_runner/migrations/discovery.py:62-64 | Names with distinct fixed-width prefixes come in the order of their prefixes. |
| Discovery.ToSelectsAnInitialSegment | src/py_app_runner/migrations/commands.py:208-220 | `--to P` selects exactly the initial segment of the pending files up to the file with prefix P, itself pending or not. |
| MigrationNames.SelectedIsThrough | src/py_app_runner/migrations/commands.py:211-220 | The files the commands select up to the target's number are the names `--to` selects by its prefix, in the same order. |
| MigrationRuns.SelectedMeans | src/py_app_runner/migrations/commands.py:208-220 | Selected are exactly the files without a row that are not past the target, the target among them, in name order. |
| MigrationStates.ComputeStates | src/py_app_runner/migrations/states.py:30-53 | One state for every file and every row, in name order, each the one its file and row call for. |
| MigrationStates.StateMeans | src/py_app_runner/migrations/states.py:30-53 | Each state by file and row: missing is a row without a file, pending a file without a row, applied and drift both, with the same checksum or not. |
| MigrationStates.BlockingMeans | src/py_app_runner/migrations/states.py:60-63 | Nothing blocks if and only if every row has its file with the recorded checksum. |
| MigrationStates.PendingMeans | src/py_app_runner/migrations/states.py:56-57 | Pending are exactly the files without a row, in name order. |
| MigrationRuns.RunsStaySound | src/py_app_runner/migrations/commands.py:199-301 | For any number of appliers and baselines interleaving on the lock, with failures and crashes anywhere and repairs at any time, the invariant holds and nothing committed is undone. |
| MigrationRuns.CommittedOnceExactlyWhenRecorded | src/py_app_runner/migrations/commands.py:272-281 | A transactional migration commits (or is marked) at most once over all sessions, and once exactly when its row is in the table. |
| MigrationRuns.SessionsWriteInOrder | src/py_app_runner/migrations/commands.py:254-301 | Each session writes in name order, and sessions never interleave. |
| MigrationRuns.InsertsNeverConflict | src/py_app_runner/migrations/tracker.py:99-105 | Under the lock the tracking insert never meets an existing row, whatever the history. |
| MigrationRuns.OneSessionAtATime | src/py_app_runner/migrations/tracker.py:117-145 | No two sessions are between lock and unlock together. |
| MigrationApply.Database.CmdApply | src/py_app_runner/migrations/commands.py:174-312 | By names: no row is lost or rewritten, a new row is that of a file up to the target with its checksum, and none before an applied one is skipped; success (unless dry) means the target is a file and it and every file before it are in the table. It succeeds exactly when nothing blocks, the target exists and every file goes through; stops at the first that fails; a dry run changes nothing; and the whole turn is a run of the steps above. |
| MigrationApply.Database.ApplyQueue | src/py_app_runner/migrations/commands.py:254-301 | Every file before the first failing one is applied and recorded, nothing after. |
| MigrationApply.Database.CmdBaseline | src/py_app_runner/migrations/commands.py:315-401 | Offers exactly the files without a row up to and with the target, in name order, and marks exactly those answered for, in one transaction; nothing when an answer is to quit, the target is unknown or the write fails. |
| MigrationApply.ChosenMeans | src/py_app_runner/migrations/commands.py:363-381 | A file is marked exactly if its own answer is yes, all was answered to it or before it, or nobody is asked. |
| MigrationApply.BaselineGoesMeans | src/py_app_runner/migrations/commands.py:340-401 | It succeeds exactly if the target is a file, and either nothing is offered or the write goes through and nobody quits before saying all. |
| MigrationApply.Choose | src/py_app_runner/migrations/commands.py:363-381 | The loop over the answers: a file is chosen if answered yes or at or after the first `a`; quitting counts only before it. |
| MigrationApply.Database.CmdRepair | src/py_app_runner/migrations/commands.py:426-475 | Re-stamps the checksum exactly when the row is there, adds none, and leaves the lock alone. |
| FieldCrypto.SplitInvertsStored | src/py_app_runner/crypto/fields.py:267-281 | A value splits into a key id and payload if and only if it is those two in the stored form, with a valid key id and a payload. |
| FieldCrypto.KeyIdMayEndInALineFeed | src/py_app_runner/crypto/fields.py:47 | A well-formed key id with a line feed behind it still splits out of a stored value. |
| FieldCrypto.DecryptMeans | src/py_app_runner/crypto/fields.py:191-238 | Reading gives a text exactly when the value claims neither format and is that text, or is a payload a configured key opens to it; all else is refused. |
| FieldCrypto.KeyIdOfMeans | src/py_app_runner/crypto/fields.py:290-301 | By the text: no key for what is empty or does not claim the format, the key of a well-formed one, and bad for whatever else claims it. |
| FieldCrypto.DecryptUndoesEncrypt | src/py_app_runner/crypto/fields.py:176-238 | What is encrypted under a usable key reads back as it was and is labelled with that key. |
| RewriteColumn.PageIsTheNextRows | src/py_app_runner/crypto/commands.py:96-102 | A page is ascending rows past the cursor: all of them, or a full batch that no row left out precedes. |
| RewriteColumn.Column.RewriteRow | src/py_app_runner/crypto/commands.py:129-170 | One row: left, counted, rewritten only if it still holds the value read and counted as rotated only then, counted as changed only if it does not, or stopped at, with every other row as it was when nobody else writes. |
| RewriteColumn.Column.Rewrite | src/py_app_runner/crypto/commands.py:114-173 | The paging loop terminates, visits every row exactly once in id order on success, and every row goes on meaning what others last wrote to it; the rows it wrote itself are as many as it counts as rotated, and every other row is exactly as the others left it. |
| Rotate.CmdRotate | src/py_app_runner/crypto/commands.py:50-182 | No application write is lost and every text is kept, whatever lands meanwhile; without other writers every stale value ends under the current key and nothing else changes, and the run fails only on a malformed value, one that cannot be opened, or an unusable current key. |
| Rotate.JudgeMeans | src/py_app_runner/crypto/commands.py:129-147 | Plaintext is exactly what is not empty and does not claim the format; stale exactly what is under another key; a run stops exactly at what claims the format and is malformed. |
| Rotate.TalliesMean | src/py_app_runner/crypto/commands.py:108-150 | The figures count the plaintext and the stale values among those read. |
| Rotate.SecondRunChangesNothing | src/py_app_runner/crypto/commands.py:60-65 | After a finished run without other writers nothing is stale, nothing blocks a second run, and that run changes nothing. |
| Rotate.RenewedIsCurrent | src/py_app_runner/crypto/commands.py:147-151 | Re-encrypting keeps the text and puts the value under the current key. |
| Connections.Index.Assign | src/py_app_runner/wbcm/factory.py:76-93 | The socket becomes this owner's alone, once, last in its list if new there; the same index serves devices. |
| Connections.Index.Unassign | src/py_app_runner/wbcm/factory.py:55-69 | The socket leaves every list but the kept owner's; lists that empty go; the simple socket-to-owner map loses exactly that socket. |
| Connections.Index.RemoveConnection | src/py_app_runner/wbcm/factory.py:47-53 | The socket leaves both maps, and nothing else does. |
| Connections.Index.AddConnection | src/py_app_runner/wbcm/factory.py:40-45 | The socket is connected under its uid, replacing any other. |
| Connections.Index.RemoveOwner | src/py_app_runner/wbcm/device_connections.py:73-75 | The owner's list goes, and the simple map loses exactly its sockets. |
| Connections.Index.Get | src/py_app_runner/wbcm/factory.py:100-113 | Exactly the connected sockets the simple map gives to the owner, each once, in assignment order. |
| Connections.ConnectedInOrder | src/py_app_runner/wbcm/factory.py:106-113 | They come in the order of the list, all of those that are connected. |
| Connections.Index.FanOut | src/py_app_runner/wbcm/wb_connection_manager.py:142-157 | Schedules on each live socket but the source, in order, and removes exactly those that refuse. |
| Connections.Index.SendMessage | src/py_app_runner/wbcm/wb_connection_manager.py:129-157 | One delivery per live connected socket of the owner except the source and to nobody else; closed ones are gone from both maps afterwards and nothing else is; the invariant holds. |
| Connections.Index.SendMessageToAll | src/py_app_runner/wbcm/wb_connection_manager.py:211-234 | The same over all connected sockets, through a snapshot. |
| Connections.AssignAgrees | src/py_app_runner/wbcm/factory.py:76-88 | Adding a socket to one list keeps the lists in agreement with the simple map, each socket once. |
| Connections.DropAgrees | src/py_app_runner/wbcm/device_connections.py:41-53 | Dropping it from the others does too. |
| Connections.DeliveredExactlyOnce | src/py_app_runner/wbcm/wb_connection_manager.py:142-157 | In a fan-out every live socket but the source is reached as often as it is listed, and no other socket is. |
| Connections.DeliveriesInOrder | src/py_app_runner/wbcm/wb_connection_manager.py:141-157 | Deliveries go to exactly the live sockets but the source, in the order of the list. |

## Left out

- `reserve` over several queues tries them in order; only one queue's pass is modelled.
- Payloads are texts. A hash or row whose payload does not decode is not modelled, because jobs enter through `push`, which encodes them.
- A `push` on Postgres is one step; losing the race for a unique key and looking the winner up is not modelled.
- XAUTOCLAIM's bounded scan is a free choice between any idle entry and none, so nothing is said about how soon an expired entry is reclaimed, nor any other progress claim.
- Stream ids are numbers counted per stream; consumer groups are a delivered time on each entry, and creating them is not modelled.
- The hash fields are modelled as typed values, not as the strings Redis stores.
- Worker ids are not cut to the width of their column.
- `failed_rows` and the pending count are listings and are not modelled.
- RedisCounts.Count: reads one keyspace, where the driver makes several round trips; between those `ready - held` can come out negative, which is why the code floors it at 0.
- PgRuns.EveryIdIsAccountedFor: every statement here commits; an id spent by an INSERT whose surrounding transaction, a caller's or a `push` that lost the race for its unique key, rolls back is not considered.
- The worker's naps between polls, its logging, its handlers' lookup and its timeout mechanism are not modelled; overrunning the timeout is one way a handler raises.
- A driver call that raises leaves the worker, and whether it took effect is not modelled.
- Throttle.AtMostTwiceTheLimit: is about the counter as a store that never expires keeps it; `Throttle.ExpiryNeverShowsIff` says when an expiring store gives the same answers.
- The throttle's `fail_open` answers for an unreachable store are not modelled, nor is the text form of the stored counter beyond "unreadable counts as nothing stored".
- FitError.FitKeepsTheLongestPrefix: texts are sequences of Unicode scalar values, so a lone surrogate, which the encoder refuses, cannot occur.
- Whether a text is a complete SQL statement is an arbitrary predicate.
- Migration names in the state machine are numbers in the order of the names; `Discovery` proves what the order of the texts gives.
- MigrationRuns.CommittedOnceExactlyWhenRecorded: is about files that run in a transaction; a no-transaction file may partly apply, and deleting tracking rows by hand is not modelled.
- Creating and verifying the tracking table, the SQLite tracker, the foreign-key switch and `cmd_new` are not modelled; a refused file is an arbitrary predicate.
- The cipher, base64 and key material are abstract functions of which only "opening undoes sealing" is assumed; the cache of decoded keys and the blind index are not modelled.
- Rotate.CmdRotate: the set of row ids is fixed while it runs, a failed UPDATE has no effect, and the checks of the table and column names are left out.
- Connections: each operation runs whole; threads are not interleaved within one. Closing revoked sessions, the stream position and message parsing are not modelled.
- HTTP, WebSocket framing, configuration, the command line, scheduling and logging are not modelled.
