/** The worker loop: what it does with each job it reserves, and when it stops. */
module Worker {
  import opened Wrappers

  datatype Steps = Default | Constant(delay: int) | Listed(delays: seq<int>)

  function NonNegative(n: int): nat {
    if n < 0 then 0 else n
  }

  /** Delay before the next attempt, given how many have been made. */
  function Backoff(attempt: int, steps: Steps): nat {
    match steps
    case Constant(delay) => NonNegative(delay)
    case Default => NonNegative(Nth([10, 60, 300], attempt))
    case Listed(delays) => if delays == [] then 0 else NonNegative(Nth(delays, attempt))
  }

  function Nth(delays: seq<int>, attempt: int): int
    requires delays != []
  {
    var wanted := if attempt - 1 < 0 then 0 else attempt - 1;
    delays[if wanted < |delays| - 1 then wanted else |delays| - 1]
  }

  /** The nth attempt waits for the nth step and every later one for the last, never less than 0. */
  lemma BackoffFollowsTheSteps(delays: seq<int>, attempt: int)
    ensures delays == [] ==> Backoff(attempt, Listed(delays)) == 0
    ensures 1 <= attempt <= |delays| ==> Backoff(attempt, Listed(delays)) == Max(0, delays[attempt - 1])
    ensures delays != [] && |delays| < attempt ==> Backoff(attempt, Listed(delays)) == Backoff(|delays|, Listed(delays))
    ensures delays != [] && attempt < 1 ==> Backoff(attempt, Listed(delays)) == Backoff(1, Listed(delays))
    ensures forall delay :: Backoff(attempt, Constant(delay)) == Max(0, delay)
    ensures Backoff(attempt, Default) == Backoff(attempt, Listed([10, 60, 300]))
  {
  }

  /** What the handler does with its job: releases it any number of times, and then returns,
      raises, is cancelled from outside, or exits: with a `SystemExit`, or anything else that is
      neither a cancellation nor an ordinary exception. Overrunning the timeout is one way of raising.
      The call to the driver that follows may itself raise. */
  datatype Ending = Returned | Raised | Cancelled | Exited
  datatype Outcome = Outcome(releases: seq<int>, ending: Ending, callRaises: bool)

  /** How a job leaves the worker: done with, or with an exception that goes on up. */
  datatype Leaving = Settled | Cancellation | HandlerExit | DriverError

  /** A cancellation goes on up whether or not the release before it succeeds; an exit is not caught,
      and neither is any other call that raises. */
  function LeavingOf(outcome: Outcome): Leaving {
    if outcome.ending.Cancelled? then Cancellation
    else if outcome.ending.Exited? then HandlerExit
    else if outcome.callRaises then DriverError
    else Settled
  }

  datatype Ticket = Ticket(id: nat, attempts: nat, maxAttempts: nat)

  /** What the worker asks of the driver. */
  datatype Call = Delete(job: Ticket) | Release(job: Ticket, delay: nat) | Fail(job: Ticket)

  class Job {
    const ticket: Ticket
    var releaseDelay: Option<nat>

    constructor (ticket: Ticket)
      ensures this.ticket == ticket && releaseDelay.None?
    {
      this.ticket := ticket;
      releaseDelay := None;
    }

    method Release(delay: int)
      modifies this
      ensures releaseDelay == Some(NonNegative(delay))
    {
      releaseDelay := Some(NonNegative(delay));
    }

    predicate WasReleased()
      reads this
    {
      releaseDelay.Some?
    }

    predicate IsLastAttempt() {
      ticket.maxAttempts <= ticket.attempts
    }
  }

  /** The call on the driver a reserved job ends in; a handler that exits leaves its job to its claim. */
  function CallFor(job: Ticket, outcome: Outcome, steps: Steps): Option<Call> {
    match outcome.ending
    case Exited => None
    case Cancelled => Some(Release(job, 0))
    case Raised =>
      Some(if job.maxAttempts <= job.attempts then Fail(job) else Release(job, Backoff(job.attempts, steps)))
    case Returned =>
      Some(if outcome.releases == [] then Delete(job)
           else Release(job, NonNegative(outcome.releases[|outcome.releases| - 1])))
  }

  function CallsFor(job: Ticket, outcome: Outcome, steps: Steps): seq<Call> {
    var call := CallFor(job, outcome, steps);
    if call.Some? then [call.value] else []
  }

  /** One pass of the loop: whether it was asked to stop before, what reserve answered, how the
      handler ended and how long the worker has then been going. */
  datatype Reserved = Nothing | Unreadable | Got(job: Ticket, outcome: Outcome)
  datatype Turn = Turn(quit: bool, reserved: Reserved, elapsed: nat)

  datatype Limits = Limits(maxJobs: nat, maxTime: nat, stopWhenEmpty: bool)

  const MAX_CONSECUTIVE_FAILURES: nat := 5

  function Jobs(feed: seq<Turn>): nat {
    if feed == [] then 0
    else Jobs(feed[..|feed| - 1]) + if feed[|feed| - 1].reserved.Got? then 1 else 0
  }

  /** How many reserves in a row have just failed. */
  function FailuresInARow(feed: seq<Turn>): nat {
    if feed == [] || !feed[|feed| - 1].reserved.Unreadable? then 0
    else FailuresInARow(feed[..|feed| - 1]) + 1
  }

  function CallsAt(turn: Turn, steps: Steps): seq<Call> {
    match turn.reserved
    case Got(job, outcome) => CallsFor(job, outcome, steps)
    case _ => []
  }

  /** The calls for the jobs reserved, in order. */
  function Calls(feed: seq<Turn>, steps: Steps): seq<Call> {
    if feed == [] then []
    else Calls(feed[..|feed| - 1], steps) + CallsAt(feed[|feed| - 1], steps)
  }

  function CallsOn(calls: seq<Call>, job: Ticket): seq<Call> {
    Filter(calls, (call: Call) => call.job == job)
  }

  /** The turns that reserved the job and whose handler did not exit. */
  function TurnsSeenThrough(feed: seq<Turn>, job: Ticket): seq<Turn> {
    Filter(feed, (turn: Turn) =>
      turn.reserved.Got? && turn.reserved.job == job && !turn.reserved.outcome.ending.Exited?)
  }

  lemma CallsOnOneMore(calls: seq<Call>, call: Call, job: Ticket)
    ensures CallsOn(calls + [call], job) == CallsOn(calls, job) + if call.job == job then [call] else []
  {
    assert (calls + [call])[..|calls|] == calls;
  }

  /** A job gets one call each time it is reserved if its handler does not exit, and none if it does. */
  lemma {:induction false} OneCallUnlessTheHandlerExits(feed: seq<Turn>, job: Ticket, steps: Steps)
    ensures |CallsOn(Calls(feed, steps), job)| == |TurnsSeenThrough(feed, job)|
  {
    if feed != [] {
      var rest, last := feed[..|feed| - 1], feed[|feed| - 1];
      OneCallUnlessTheHandlerExits(rest, job, steps);
      if last.reserved.Got? && !last.reserved.outcome.ending.Exited? {
        CallsOnOneMore(Calls(rest, steps), CallFor(last.reserved.job, last.reserved.outcome, steps).value, job);
      } else {
        assert Calls(feed, steps) == Calls(rest, steps);
      }
    }
  }

  predicate OverLimit(limits: Limits, done: nat, elapsed: nat) {
    (0 < limits.maxJobs <= done) || (0 < limits.maxTime <= elapsed)
  }

  datatype Exit = StillRunning | Stopped | GaveUp | PassedOn(leaving: Leaving)

  /** What the last turn of `feed` comes to, when none before it ended the loop. */
  function ExitAfter(feed: seq<Turn>, limits: Limits): Exit
    requires feed != []
  {
    var turn := feed[|feed| - 1];
    match turn.reserved
    case Unreadable => if FailuresInARow(feed) >= MAX_CONSECUTIVE_FAILURES then GaveUp else StillRunning
    case Nothing => if limits.stopWhenEmpty || OverLimit(limits, Jobs(feed), turn.elapsed) then Stopped
      else StillRunning
    case Got(_, outcome) =>
      if LeavingOf(outcome) != Settled then PassedOn(LeavingOf(outcome))
      else if OverLimit(limits, Jobs(feed), turn.elapsed) then Stopped
      else StillRunning
  }

  /** None of the first n turns ends the loop. */
  predicate StillRunningThrough(feed: seq<Turn>, limits: Limits, n: nat)
    requires n <= |feed|
  {
    forall i | 0 < i <= n :: ExitAfter(feed[..i], limits).StillRunning?
  }

  /** The last turn's handler exited. */
  predicate EndsInExit(feed: seq<Turn>) {
    feed != [] && feed[|feed| - 1].reserved.Got? && feed[|feed| - 1].reserved.outcome.ending.Exited?
  }

  /** Of the turns a run takes, all but the last left it running, so every job it reserved got its one
      call, save the last when that job's handler exited. */
  lemma {:induction false} OnlyTheLastJobGoesUncalled(feed: seq<Turn>, limits: Limits, steps: Steps)
    requires forall i | 0 < i < |feed| :: ExitAfter(feed[..i], limits).StillRunning?
    ensures |Calls(feed, steps)| == Jobs(feed) - if EndsInExit(feed) then 1 else 0
  {
    if feed != [] {
      var rest := feed[..|feed| - 1];
      forall i | 0 < i < |rest|
        ensures ExitAfter(rest[..i], limits).StillRunning?
      {
        assert rest[..i] == feed[..i];
      }
      OnlyTheLastJobGoesUncalled(rest, limits, steps);
      if rest != [] {
        assert ExitAfter(feed[..|feed| - 1], limits).StillRunning?;
      }
    }
  }

  /** The last n turns were reserves that failed. */
  predicate LastUnreadable(feed: seq<Turn>, n: nat) {
    n <= |feed| && forall i | |feed| - n <= i < |feed| :: feed[i].reserved.Unreadable?
  }

  lemma {:induction false} FailuresInARowAre(feed: seq<Turn>, n: nat)
    ensures n <= FailuresInARow(feed) <==> LastUnreadable(feed, n)
  {
    if feed != [] && feed[|feed| - 1].reserved.Unreadable? {
      var rest := feed[..|feed| - 1];
      if 0 < n {
        FailuresInARowAre(rest, n - 1);
        assert LastUnreadable(feed, n) <==> LastUnreadable(rest, n - 1) by {
          if LastUnreadable(feed, n) {
            assert forall i | |rest| - (n - 1) <= i < |rest| :: rest[i] == feed[i];
          }
        }
      }
    }
  }

  /** What a turn comes to, by what happened in it. The loop gives up on five failed reserves in a row,
      passes on what the job in hand let through, and stops when it has found nothing and was told to,
      or has done as many jobs or gone on as long as it may; a failed reserve never counts as either. */
  lemma WhatEndsARun(feed: seq<Turn>, limits: Limits)
    requires feed != []
    ensures var turn, exit := feed[|feed| - 1], ExitAfter(feed, limits);
            && (exit.GaveUp? <==> LastUnreadable(feed, 5))
            && (exit.PassedOn? <==>
                  && turn.reserved.Got?
                  && (turn.reserved.outcome.ending in {Cancelled, Exited} || turn.reserved.outcome.callRaises))
            && (exit.PassedOn? ==>
                  match turn.reserved.outcome.ending
                  case Cancelled => exit.leaving == Cancellation
                  case Exited => exit.leaving == HandlerExit
                  case _ => exit.leaving == DriverError)
            && (exit.Stopped? <==>
                  && !turn.reserved.Unreadable? && !exit.PassedOn?
                  && ((turn.reserved.Nothing? && limits.stopWhenEmpty)
                      || (limits.maxJobs != 0 && limits.maxJobs <= Jobs(feed))
                      || (limits.maxTime != 0 && limits.maxTime <= turn.elapsed)))
  {
    FailuresInARowAre(feed, 5);
    assert !feed[|feed| - 1].reserved.Unreadable? ==> !LastUnreadable(feed, 5);
  }

  class WorkerLoop {
    const steps: Steps
    var shouldQuit: bool
    var calls: seq<Call>

    constructor (steps: Steps)
      ensures this.steps == steps && !shouldQuit && calls == []
    {
      this.steps := steps;
      shouldQuit := false;
      calls := [];
    }

    method Stop()
      modifies this`shouldQuit
      ensures shouldQuit
    {
      shouldQuit := true;
    }

    method JobFailed(job: Job)
      modifies this`calls
      ensures calls == old(calls) + CallsFor(job.ticket, Outcome([], Raised, false), steps)
    {
      if job.IsLastAttempt() {
        calls := calls + [Fail(job.ticket)];
        return;
      }
      calls := calls + [Release(job.ticket, Backoff(job.ticket.attempts, steps))];
    }

    method RunJob(ticket: Ticket, outcome: Outcome) returns (leaving: Leaving)
      modifies this`calls
      ensures calls == old(calls) + CallsFor(ticket, outcome, steps)
      ensures leaving == LeavingOf(outcome)
      ensures outcome.ending.Returned? && outcome.releases == [] ==> calls == old(calls) + [Delete(ticket)]
      ensures outcome.ending.Returned? && outcome.releases != [] ==>
                calls == old(calls) + [Release(ticket, Max(0, outcome.releases[|outcome.releases| - 1]))]
      ensures outcome.ending.Raised? && ticket.maxAttempts <= ticket.attempts ==> calls == old(calls) + [Fail(ticket)]
      ensures outcome.ending.Raised? && ticket.attempts < ticket.maxAttempts ==>
                calls == old(calls) + [Release(ticket, Backoff(ticket.attempts, steps))]
      ensures outcome.ending.Cancelled? ==> calls == old(calls) + [Release(ticket, 0)] && leaving.Cancellation?
      ensures outcome.ending.Exited? ==> calls == old(calls) && leaving.HandlerExit?
      ensures outcome.ending.Returned? || outcome.ending.Raised? ==> (leaving.Settled? <==> !outcome.callRaises)
    {
      var job := new Job(ticket);
      for i := 0 to |outcome.releases|
        modifies job
        invariant i == 0 ==> job.releaseDelay.None?
        invariant 0 < i ==> job.releaseDelay == Some(NonNegative(outcome.releases[i - 1]))
      {
        job.Release(outcome.releases[i]);
      }
      if outcome.ending.Cancelled? {
        calls := calls + [Release(ticket, 0)];
        return Cancellation;
      }
      if outcome.ending.Exited? {
        return HandlerExit;
      }
      if outcome.ending.Raised? {
        JobFailed(job);
      } else if job.WasReleased() {
        calls := calls + [Release(ticket, job.releaseDelay.value)];
      } else {
        calls := calls + [Delete(ticket)];
      }
      leaving := if outcome.callRaises then DriverError else Settled;
    }

    /** One pass of the loop after the reserve, with what it has counted so far. */
    method TakeTurn(feed: seq<Turn>, n: nat, limits: Limits, failures: nat, done: nat)
      returns (exit: Exit, failuresNow: nat, doneNow: nat)
      requires n < |feed| && failures == FailuresInARow(feed[..n]) && done == Jobs(feed[..n])
      requires failures < MAX_CONSECUTIVE_FAILURES && (0 < limits.maxJobs ==> done < limits.maxJobs)
      modifies this`calls
      ensures exit == ExitAfter(feed[..n + 1], limits)
      ensures forall before :: old(calls) == before + Calls(feed[..n], steps) ==>
                calls == before + Calls(feed[..n + 1], steps)
      ensures failuresNow == FailuresInARow(feed[..n + 1]) && doneNow == Jobs(feed[..n + 1])
      ensures exit.StillRunning? ==>
                failuresNow < MAX_CONSECUTIVE_FAILURES && (0 < limits.maxJobs ==> doneNow < limits.maxJobs)
      ensures 0 < limits.maxJobs ==> doneNow <= limits.maxJobs
    {
      var turn := feed[n];
      assert feed[..n + 1][..n] == feed[..n];
      failuresNow, doneNow := 0, done;
      match turn.reserved
      case Unreadable =>
        failuresNow := failures + 1;
        exit := if failuresNow >= MAX_CONSECUTIVE_FAILURES then GaveUp else StillRunning;
      case Nothing =>
        exit := if limits.stopWhenEmpty || OverLimit(limits, done, turn.elapsed) then Stopped else StillRunning;
      case Got(job, outcome) =>
        var leaving := RunJob(job, outcome);
        doneNow := done + 1;
        if leaving != Settled {
          return PassedOn(leaving), failuresNow, doneNow;
        }
        exit := if OverLimit(limits, doneNow, turn.elapsed) then Stopped else StillRunning;
    }

    /** Runs until something ends it, or for as long as the feed lasts. Of the turns it took, exactly
        the last ends it, and the jobs they reserved got their calls in order. A stop asked for earlier,
        even before the run, ends it before its next turn. */
    method Run(feed: seq<Turn>, limits: Limits) returns (exit: Exit, done: nat, turns: nat)
      modifies this
      ensures turns <= |feed| && done == Jobs(feed[..turns])
      ensures calls == old(calls) + Calls(feed[..turns], steps)
      ensures 0 < turns ==> StillRunningThrough(feed, limits, turns - 1)
      ensures exit == if turns == 0 || ExitAfter(feed[..turns], limits).StillRunning? then
                        (if shouldQuit then Stopped else StillRunning)
                      else ExitAfter(feed[..turns], limits)
      ensures exit.StillRunning? ==> turns == |feed|
      ensures shouldQuit ==> exit.Stopped? && (old(shouldQuit) || (turns < |feed| && feed[turns].quit))
      ensures old(shouldQuit) ==> shouldQuit && turns == 0
      ensures 0 < limits.maxJobs ==> done <= limits.maxJobs
      ensures 0 < turns ==> !old(shouldQuit) && forall i | 0 <= i < turns :: !feed[i].quit
    {
      done, turns := 0, 0;
      var failures := 0;
      exit := StillRunning;
      while true
        invariant turns <= |feed| && done == Jobs(feed[..turns]) && failures == FailuresInARow(feed[..turns])
        invariant failures < MAX_CONSECUTIVE_FAILURES && shouldQuit == old(shouldQuit)
        invariant 0 < limits.maxJobs ==> done < limits.maxJobs
        invariant calls == old(calls) + Calls(feed[..turns], steps)
        invariant StillRunningThrough(feed, limits, turns)
        invariant 0 < turns ==> !shouldQuit && forall i | 0 <= i < turns :: !feed[i].quit
        decreases |feed| - turns
      {
        if turns < |feed| && feed[turns].quit {
          Stop();
        }
        if shouldQuit {
          return Stopped, done, turns;
        }
        if turns == |feed| {
          return StillRunning, done, turns;
        }
        exit, failures, done := TakeTurn(feed, turns, limits, failures, done);
        turns := turns + 1;
        if !exit.StillRunning? {
          return;
        }
      }
    }
  }
}
