/** What the Redis driver takes over from the Postgres one. */
module QueueLimits {
  const CLAIM_ROUNDS: nat := 5
  const EXHAUSTED_ERROR :=
    "Exceeded max attempts: the last attempt released the job, or its worker died before finishing it."
}
