/** The fixed-window throttle: what one key lets through over time, and why the expiry of the
    stored counter never shows. */
module Throttle {
  import opened Wrappers

  /** What is stored under a key. Anything unreadable counts as nothing stored. */
  datatype Counter = Counter(hits: int, reset: int)

  datatype Attempt = Attempt(allowed: bool, limit: int, hits: int, remaining: int, retryAfter: int, resetAt: int)

  /** `_HIT_SCRIPT`. */
  function Bump(stored: Option<Counter>, now: int, window: int): Counter {
    if stored.None? || stored.value.reset <= now then Counter(1, now + window)
    else Counter(stored.value.hits + 1, stored.value.reset)
  }

  function Judge(c: Counter, limit: int, now: int): Attempt {
    var allowed := c.hits <= limit;
    Attempt(allowed, limit, c.hits, Max(0, limit - c.hits), if allowed then 0 else Max(0, c.reset - now), c.reset)
  }

  function Peek(stored: Option<Counter>, limit: int, now: int): Attempt {
    if stored.None? || stored.value.reset <= now then Attempt(true, limit, 0, limit, 0, now)
    else Judge(stored.value, limit, now)
  }

  /////////////////////////////////
  /// How much one key lets through
  /////////////////////////////////

  /** When a script runs, on the server's clock, and the whole second its caller read before. */
  datatype Moment = Moment(now: int, at: real)

  function Lag(m: Moment): real {
    m.at - m.now as real
  }

  /** Hits on one key, in the order their scripts run. */
  predicate InOrder(times: seq<Moment>) {
    forall i, j | 0 <= i < j < |times| :: times[i].at <= times[j].at
  }

  /** No hit lags by more than the tolerance over a later one. */
  predicate LagsWithin(times: seq<Moment>, tolerance: real) {
    forall i, j | 0 <= i < j < |times| :: Lag(times[i]) <= Lag(times[j]) + tolerance
  }

  /** Every caller read its second before its script ran. */
  predicate ReadBefore(times: seq<Moment>) {
    forall i | 0 <= i < |times| :: times[i].now <= times[i].at.Floor
  }

  /** The counter after hit i. */
  function CounterAt(times: seq<Moment>, window: int, i: nat): Counter
    requires i < |times|
  {
    Bump(if i == 0 then None else Some(CounterAt(times, window, i - 1)), times[i].now, window)
  }

  predicate Allowed(times: seq<Moment>, limit: int, window: int, i: nat)
    requires i < |times|
  {
    CounterAt(times, window, i).hits <= limit
  }

  /** The hit that opened the window hit i falls in. */
  function Opener(times: seq<Moment>, window: int, i: nat): (o: nat)
    requires i < |times|
    ensures o <= i
  {
    if i == 0 || CounterAt(times, window, i - 1).reset <= times[i].now then i else Opener(times, window, i - 1)
  }

  lemma {:induction false} WindowOf(times: seq<Moment>, window: int, i: nat)
    requires i < |times| && 1 <= window
    ensures var o := Opener(times, window, i);
            o <= i && CounterAt(times, window, i) == Counter(i - o + 1, times[o].now + window)
            && times[i].now < times[o].now + window
  {
    if i != 0 && times[i].now < CounterAt(times, window, i - 1).reset {
      WindowOf(times, window, i - 1);
    }
  }

  /** Windows are runs of consecutive hits, and the next one opens only when the last has closed. */
  lemma {:induction false} NextWindow(times: seq<Moment>, window: int, i: nat, j: nat)
    requires i < j < |times| && 1 <= window && InOrder(times)
    ensures var o, p := Opener(times, window, i), Opener(times, window, j);
            o == p || (i < p <= j && times[o].now + window <= times[p].now)
    decreases j
  {
    WindowOf(times, window, i);
    WindowOf(times, window, j - 1);
    if i < j - 1 {
      NextWindow(times, window, i, j - 1);
    }
  }

  function AllowedIn(times: seq<Moment>, limit: int, window: int, start: real): set<nat> {
    set i: nat | i < |times| && Allowed(times, limit, window, i) && start <= times[i].at < start + window as real
  }

  /** The `length` hits from one on. */
  function Span(from: nat, length: nat): set<nat> {
    if length == 0 then {} else Span(from, length - 1) + {from + length - 1}
  }

  lemma {:induction false} SpanSize(from: nat, length: nat)
    ensures |Span(from, length)| == length
    ensures forall i: nat :: i in Span(from, length) <==> from <= i < from + length
  {
    if length != 0 {
      SpanSize(from, length - 1);
    }
  }

  lemma {:induction false} SubsetSize(a: set<nat>, b: set<nat>)
    requires a <= b
    ensures |a| <= |b|
    decreases a
  {
    if a != {} {
      var pick :| pick in a;
      SubsetSize(a - {pick}, b - {pick});
    }
  }

  /** What the window opened by hit o lets through. */
  function AllowedByWindow(times: seq<Moment>, limit: int, window: int, o: nat): set<nat> {
    set i: nat | i < |times| && Opener(times, window, i) == o && Allowed(times, limit, window, i)
  }

  /** No window lets more than `limit` through: the first ones. */
  lemma EachWindowAllowsTheLimit(times: seq<Moment>, limit: nat, window: int, o: nat)
    requires 1 <= window
    ensures AllowedByWindow(times, limit, window, o) <= Span(o, limit)
    ensures |AllowedByWindow(times, limit, window, o)| <= limit
  {
    SpanSize(o, limit);
    forall i | i in AllowedByWindow(times, limit, window, o)
      ensures i in Span(o, limit)
    {
      WindowOf(times, window, i);
    }
    SubsetSize(AllowedByWindow(times, limit, window, o), Span(o, limit));
  }

  /** And lets exactly those through: a hit passes if and only if it is among its window's first. */
  lemma AllowedIffAmongTheFirst(times: seq<Moment>, limit: nat, window: int, i: nat)
    requires 1 <= window && i < |times|
    ensures Allowed(times, limit, window, i) <==> i < Opener(times, window, i) + limit
  {
    WindowOf(times, window, i);
  }

  /** `remaining` is how many more hits of the same window will pass. */
  lemma RemainingHitsPass(times: seq<Moment>, limit: nat, window: int, i: nat, j: nat)
    requires 1 <= window && i < j < |times| && Opener(times, window, i) == Opener(times, window, j)
    ensures Allowed(times, limit, window, j) <==>
            j - i <= Judge(CounterAt(times, window, i), limit, times[i].now).remaining
  {
    WindowOf(times, window, i);
    WindowOf(times, window, j);
  }

  lemma {:induction false} LaterHitsChangeNothing(times: seq<Moment>, more: seq<Moment>, window: int, i: nat)
    requires i < |times|
    ensures CounterAt(times + more, window, i) == CounterAt(times, window, i)
  {
    if 0 < i {
      LaterHitsChangeNothing(times, more, window, i - 1);
    }
  }

  /** `retry_after` tells a refused caller exactly when to come back: the next attempt passes if and
      only if it waits that long, in whole seconds. */
  lemma RefusedUntilRetryAfter(times: seq<Moment>, limit: nat, window: int, next: Moment)
    requires 1 <= window && 1 <= limit && times != [] && !Allowed(times, limit, window, |times| - 1)
    ensures var last := |times| - 1;
            Allowed(times + [next], limit, window, |times|) <==>
            times[last].now + Judge(CounterAt(times, window, last), limit, times[last].now).retryAfter <= next.now
  {
    LaterHitsChangeNothing(times, [next], window, |times| - 1);
  }

  /** Three windows never share an interval as long as one of them. */
  lemma OnlyTwoWindows(times: seq<Moment>, window: int, start: real, i: nat, j: nat, k: nat)
    requires i < j < k < |times| && 1 <= window && InOrder(times) && LagsWithin(times, 1.0)
    requires start <= times[i].at && times[k].at < start + window as real
    ensures Opener(times, window, j) == Opener(times, window, i) || Opener(times, window, j) == Opener(times, window, k)
  {
    NextWindow(times, window, i, j);
    NextWindow(times, window, j, k);
    WindowOf(times, window, i);
  }

  lemma InEitherWindow(times: seq<Moment>, limit: nat, window: int, start: real, first: nat, i: nat, last: nat)
    requires 1 <= window && InOrder(times) && LagsWithin(times, 1.0) && first <= i <= last < |times|
    requires start <= times[first].at && times[last].at < start + window as real && Allowed(times, limit, window, i)
    ensures i in Span(Opener(times, window, first), limit) + Span(Opener(times, window, last), limit)
  {
    SpanSize(Opener(times, window, first), limit);
    SpanSize(Opener(times, window, last), limit);
    WindowOf(times, window, i);
    if first < i < last {
      OnlyTwoWindows(times, window, start, first, i, last);
    }
  }

  lemma TwoWindowsCover(times: seq<Moment>, limit: nat, window: int, start: real) returns (first: nat, last: nat)
    requires 1 <= window && InOrder(times) && LagsWithin(times, 1.0) && AllowedIn(times, limit, window, start) != {}
    ensures var let := AllowedIn(times, limit, window, start);
            && first in let && last in let && first <= last
            && let <= Span(Opener(times, window, first), limit) + Span(Opener(times, window, last), limit)
  {
    var let := AllowedIn(times, limit, window, start);
    first, last := Ends(let);
    forall i | i in let
      ensures i in Span(Opener(times, window, first), limit) + Span(Opener(times, window, last), limit)
    {
      InEitherWindow(times, limit, window, start, first, i, last);
    }
  }

  /** The true worst case: at most twice the limit in any interval as long as the window. */
  lemma AtMostTwiceTheLimit(times: seq<Moment>, limit: nat, window: int, start: real)
    requires 1 <= window && InOrder(times) && LagsWithin(times, 1.0)
    ensures |AllowedIn(times, limit, window, start)| <= 2 * limit
  {
    if AllowedIn(times, limit, window, start) != {} {
      var first, last := TwoWindowsCover(times, limit, window, start);
      var o, p := Span(Opener(times, window, first), limit), Span(Opener(times, window, last), limit);
      SpanSize(Opener(times, window, first), limit);
      SpanSize(Opener(times, window, last), limit);
      SubsetSize(AllowedIn(times, limit, window, start), o + p);
    }
  }

  /** On whole seconds the worst case is one less: the hit that opened the earlier window is too
      old to share the interval with the later one. */
  lemma OneLessOnWholeSeconds(times: seq<Moment>, limit: nat, window: int, start: real)
    requires 1 <= window && 1 <= limit && InOrder(times)
    requires forall i | 0 <= i < |times| :: times[i].at == times[i].now as real
    ensures |AllowedIn(times, limit, window, start)| <= 2 * limit - 1
  {
    var let := AllowedIn(times, limit, window, start);
    if let != {} {
      var first, last := TwoWindowsCover(times, limit, window, start);
      var o, p := Opener(times, window, first), Opener(times, window, last);
      SpanSize(o, limit);
      SpanSize(p, limit);
      if o == p {
        SubsetSize(let, Span(o, limit));
      } else {
        NextWindow(times, window, first, last);
        assert times[p].at <= times[last].at;
        assert o !in let;
        SubsetSize(let, (Span(o, limit) - {o}) + Span(p, limit));
        assert |Span(o, limit) - {o}| == limit - 1;
      }
    }
  }

  /** Hits that reach the bound: a full allowance late in one second, and another as soon as the
      window it opened has closed. */
  function Burst(limit: nat, window: nat): seq<Moment> {
    seq(limit, _ => Moment(0, 0.5)) + seq(limit, _ => Moment(window, window as real))
  }

  lemma {:induction false} BurstIsAllowed(limit: nat, window: nat, i: nat)
    requires 1 <= window && i < 2 * limit
    ensures CounterAt(Burst(limit, window), window, i)
            == if i < limit then Counter(i + 1, window) else Counter(i - limit + 1, 2 * window)
  {
    if i != 0 {
      BurstIsAllowed(limit, window, i - 1);
    }
  }

  lemma BurstIsInOrder(limit: nat, window: nat)
    requires 1 <= window
    ensures InOrder(Burst(limit, window)) && forall m | m in Burst(limit, window) :: m.now == m.at.Floor
  {
  }

  lemma BurstPasses(limit: nat, window: nat, i: nat)
    requires 1 <= window && i < 2 * limit
    ensures i in AllowedIn(Burst(limit, window), limit, window, 0.5)
  {
    BurstIsAllowed(limit, window, i);
    var when := Burst(limit, window)[i];
    assert when == if i < limit then Moment(0, 0.5) else Moment(window, window as real);
  }

  /** So the documented worst case is exact: twice the limit can pass within one window's length. */
  lemma TwiceTheLimitHappens(limit: nat, window: nat)
    requires 1 <= window
    ensures InOrder(Burst(limit, window)) && forall m | m in Burst(limit, window) :: m.now == m.at.Floor
    ensures |AllowedIn(Burst(limit, window), limit, window, 0.5)| == 2 * limit
  {
    BurstIsInOrder(limit, window);
    var let := AllowedIn(Burst(limit, window), limit, window, 0.5);
    SpanSize(0, 2 * limit);
    forall i | i in Span(0, 2 * limit)
      ensures i in let
    {
      BurstPasses(limit, window, i);
    }
    assert let == Span(0, 2 * limit);
  }

  /** Every caller's second being the server's is enough for the bound. */
  lemma PromptLagsAreWithinASecond(times: seq<Moment>)
    requires forall i | 0 <= i < |times| :: times[i].now == times[i].at.Floor
    ensures LagsWithin(times, 1.0)
  {
  }

  /** With a limit of one in a window of one second, three hits of callers that lag by ever less. */
  function CatchingUp(excess: real): seq<Moment> {
    [Moment(0, 1.0 + excess), Moment(1, 1.0 + excess), Moment(2, 2.0)]
  }

  lemma CatchingUpLags(excess: real, tolerance: real)
    requires 0.0 < excess <= 1.0 && 1.0 + excess <= tolerance
    ensures InOrder(CatchingUp(excess)) && LagsWithin(CatchingUp(excess), tolerance)
  {
    var times := CatchingUp(excess);
    assert Lag(times[0]) == 1.0 + excess && Lag(times[1]) == excess && Lag(times[2]) == 0.0;
  }

  lemma CatchingUpReadsBefore(excess: real)
    requires 0.0 < excess <= 1.0
    ensures ReadBefore(CatchingUp(excess))
  {
    assert 1 <= (1.0 + excess).Floor;
  }

  lemma CatchingUpPasses(excess: real, i: nat)
    requires i < 3 && 0.0 < excess <= 1.0
    ensures i in AllowedIn(CatchingUp(excess), 1, 1, 1.0 + excess)
  {
    var times := CatchingUp(excess);
    assert CounterAt(times, 1, 0) == Counter(1, 1);
    assert CounterAt(times, 1, 1) == Counter(1, 2);
    assert CounterAt(times, 1, i) == Counter(1, i + 1);
    assert 1.0 + excess <= times[i].at < 2.0 + excess;
  }

  /** Any tolerance above a second lets three hits through where the limit is one. */
  lemma LaggingHitsPassThrice(tolerance: real) returns (excess: real)
    requires 1.0 < tolerance
    ensures var times := CatchingUp(excess);
            && InOrder(times) && ReadBefore(times) && LagsWithin(times, tolerance)
            && Span(0, 3) <= AllowedIn(times, 1, 1, 1.0 + excess)
  {
    excess := if tolerance < 2.0 then tolerance - 1.0 else 1.0;
    CatchingUpLags(excess, tolerance);
    CatchingUpReadsBefore(excess);
    SpanSize(0, 3);
    forall i | i in Span(0, 3)
      ensures i in AllowedIn(CatchingUp(excess), 1, 1, 1.0 + excess)
    {
      CatchingUpPasses(excess, i);
    }
  }

  predicate WithinBound(times: seq<Moment>, limit: nat, window: int, start: real) {
    |AllowedIn(times, limit, window, start)| <= 2 * limit
  }

  ghost predicate BoundKept(tolerance: real) {
    forall times, limit, window, start {:trigger WithinBound(times, limit, window, start)} ::
      1 <= window && InOrder(times) && ReadBefore(times) && LagsWithin(times, tolerance) ==>
        WithinBound(times, limit, window, start)
  }

  /** A second is the exact tolerance: every trace whose lags fall by no more than that between hits
      keeps the bound, for every limit and window, if and only if it is at most a second. */
  lemma BoundKeptIff(tolerance: real)
    ensures BoundKept(tolerance) <==> tolerance <= 1.0
  {
    if tolerance <= 1.0 {
      forall times, limit: nat, window: int, start: real
          | 1 <= window && InOrder(times) && LagsWithin(times, tolerance)
        ensures WithinBound(times, limit, window, start)
      {
        AtMostTwiceTheLimit(times, limit, window, start);
      }
    } else {
      var excess := LaggingHitsPassThrice(tolerance);
      SpanSize(0, 3);
      SubsetSize(Span(0, 3), AllowedIn(CatchingUp(excess), 1, 1, 1.0 + excess));
      assert !WithinBound(CatchingUp(excess), 1, 1, 1.0 + excess);
    }
  }

  lemma Ends(s: set<nat>) returns (least: nat, greatest: nat)
    requires s != {}
    ensures least in s && greatest in s && forall i | i in s :: least <= i <= greatest
    decreases s
  {
    var pick :| pick in s;
    least, greatest := pick, pick;
    if s != {pick} {
      var a, b := Ends(s - {pick});
      least, greatest := if a < pick then a else pick, if b < pick then pick else b;
      forall i | i in s
        ensures least <= i <= greatest
      {
        assert i == pick || i in s - {pick};
      }
    }
  }

  /////////////////////////////////
  /// Expiry
  /////////////////////////////////

  /** The stored counter with the server time its key expires. */
  datatype Keyed = Keyed(counter: Counter, expires: real)

  datatype Op = Hit(limit: int, window: int) | Check(limit: int) | Clear

  /** An operation and its moment. */
  datatype Timed = Timed(op: Op, when: Moment)

  function Alive(stored: Option<Keyed>, at: real): Option<Counter> {
    if stored.None? || stored.value.expires <= at then None else Some(stored.value.counter)
  }

  /** One operation on the store that expires its keys. */
  function WithExpiry(stored: Option<Keyed>, t: Timed): (Option<Keyed>, Option<Attempt>) {
    match t.op
    case Hit(limit, window) =>
      var c := Bump(Alive(stored, t.when.at), t.when.now, window);
      (Some(Keyed(c, t.when.at + Max(1, c.reset - t.when.now) as real)), Some(Judge(c, limit, t.when.now)))
    case Check(limit) => (stored, Some(Peek(Alive(stored, t.when.at), limit, t.when.now)))
    case Clear => (None, None)
  }

  /** The same on a store that keeps them for good. */
  function WithoutExpiry(stored: Option<Counter>, t: Timed): (Option<Counter>, Option<Attempt>) {
    match t.op
    case Hit(limit, window) =>
      var c := Bump(stored, t.when.now, window);
      (Some(c), Some(Judge(c, limit, t.when.now)))
    case Check(limit) => (stored, Some(Peek(stored, limit, t.when.now)))
    case Clear => (None, None)
  }

  function Answers(stored: Option<Keyed>, ops: seq<Timed>): seq<Option<Attempt>>
    decreases |ops|
  {
    if ops == [] then []
    else
      var (next, answer) := WithExpiry(stored, ops[0]);
      [answer] + Answers(next, ops[1..])
  }

  function PlainAnswers(stored: Option<Counter>, ops: seq<Timed>): seq<Option<Attempt>>
    decreases |ops|
  {
    if ops == [] then []
    else
      var (next, answer) := WithoutExpiry(stored, ops[0]);
      [answer] + PlainAnswers(next, ops[1..])
  }

  /** The server has expired the key, but by the caller's clock its window is still open. */
  predicate MissesItsWindow(stored: Option<Keyed>, t: Timed) {
    && !t.op.Clear? && stored.Some?
    && stored.value.expires <= t.when.at && t.when.now < stored.value.counter.reset
  }

  predicate SomeMissesItsWindow(stored: Option<Keyed>, ops: seq<Timed>)
    decreases |ops|
  {
    ops != [] && (MissesItsWindow(stored, ops[0]) || SomeMissesItsWindow(WithExpiry(stored, ops[0]).0, ops[1..]))
  }

  function CounterOf(stored: Option<Keyed>): Option<Counter> {
    if stored.None? then None else Some(stored.value.counter)
  }

  lemma OneAnswerAgreesIff(stored: Option<Keyed>, t: Timed)
    requires stored.Some? ==> 1 <= stored.value.counter.hits
    ensures WithExpiry(stored, t).1 == WithoutExpiry(CounterOf(stored), t).1 <==> !MissesItsWindow(stored, t)
    ensures !MissesItsWindow(stored, t) ==>
              var next := WithExpiry(stored, t).0;
              CounterOf(next) == WithoutExpiry(CounterOf(stored), t).0 && (next.Some? ==> 1 <= next.value.counter.hits)
  {
  }

  lemma {:induction false} AnswersAgreeIff(stored: Option<Keyed>, ops: seq<Timed>)
    requires stored.Some? ==> 1 <= stored.value.counter.hits
    ensures Answers(stored, ops) == PlainAnswers(CounterOf(stored), ops) <==> !SomeMissesItsWindow(stored, ops)
    decreases |ops|
  {
    if ops != [] {
      var next, plainNext := WithExpiry(stored, ops[0]).0, WithoutExpiry(CounterOf(stored), ops[0]).0;
      OneAnswerAgreesIff(stored, ops[0]);
      assert Answers(stored, ops)[0] == WithExpiry(stored, ops[0]).1;
      assert PlainAnswers(CounterOf(stored), ops)[0] == WithoutExpiry(CounterOf(stored), ops[0]).1;
      assert Answers(stored, ops)[1..] == Answers(next, ops[1..]);
      assert PlainAnswers(CounterOf(stored), ops)[1..] == PlainAnswers(plainNext, ops[1..]);
      if !MissesItsWindow(stored, ops[0]) {
        AnswersAgreeIff(next, ops[1..]);
        assert Answers(stored, ops) == [WithExpiry(stored, ops[0]).1] + Answers(next, ops[1..]);
      }
    }
  }

  /** For all hits, checks and clears of a key, whatever clocks their callers read: a store that
      expires the key answers as one that keeps it for good if and only if no hit or check comes after
      the server expired the key while its caller's second is still inside the window. */
  lemma ExpiryNeverShowsIff(ops: seq<Timed>)
    ensures Answers(None, ops) == PlainAnswers(None, ops) <==> !SomeMissesItsWindow(None, ops)
  {
    AnswersAgreeIff(None, ops);
  }

  /** No operation lags an earlier one by a whole second more than that one lagged. */
  predicate SteadyLags(ops: seq<Timed>) {
    forall i, j | 0 <= i < j < |ops| :: Lag(ops[j].when) < Lag(ops[i].when) + 1.0
  }

  /** The key outlives its window by the lag of the hit that last set its expiry. */
  lemma {:induction false} SteadyLagsMissNothing(stored: Option<Keyed>, ops: seq<Timed>)
    requires SteadyLags(ops)
    requires stored.Some? ==>
             forall i | 0 <= i < |ops| ::
                 stored.value.counter.reset as real + Lag(ops[i].when) < stored.value.expires + 1.0
    ensures !SomeMissesItsWindow(stored, ops)
    decreases |ops|
  {
    if ops != [] {
      var t, rest := ops[0], ops[1..];
      var next := WithExpiry(stored, t).0;
      if stored.Some? && t.when.now < stored.value.counter.reset {
        assert t.when.now as real + 1.0 <= stored.value.counter.reset as real;
      }
      assert forall i | 0 <= i < |rest| :: rest[i] == ops[i + 1];
      SteadyLagsMissNothing(next, rest);
    }
  }

  /** So expiry never shows while lags stay steady to the second; in particular when every caller's
      clock agrees with the server's as its operation runs. */
  lemma ExpiryNeverShows(ops: seq<Timed>)
    requires SteadyLags(ops) || forall i | 0 <= i < |ops| :: ops[i].when.now == ops[i].when.at.Floor
    ensures Answers(None, ops) == PlainAnswers(None, ops)
  {
    SteadyLagsMissNothing(None, ops);
    ExpiryNeverShowsIff(ops);
  }

  /** It can show: a second hit, read in the last second of the window and run just after the server
      expired the key, is let through where the stored counter would refuse it. */
  lemma LateHitSlipsThrough()
    ensures var ops := [Timed(Hit(1, 60), Moment(0, 0.0)), Timed(Hit(1, 60), Moment(59, 60.1))];
            && (forall i | 0 <= i < |ops| :: ops[i].when.now <= ops[i].when.at.Floor)
            && Answers(None, ops)[1] == Some(Attempt(true, 1, 1, 0, 0, 119))
            && PlainAnswers(None, ops)[1] == Some(Attempt(false, 1, 2, 0, 1, 60))
  {
    var first, second := Timed(Hit(1, 60), Moment(0, 0.0)), Timed(Hit(1, 60), Moment(59, 60.1));
    assert [first, second][1..] == [second];
    assert WithExpiry(None, first).0 == Some(Keyed(Counter(1, 60), 60.0));
    var keyed := Some(Keyed(Counter(1, 60), 60.0));
    assert Answers(keyed, [second]) == [WithExpiry(keyed, second).1]
        + Answers(WithExpiry(keyed, second).0, [second][1..]);
    assert Answers(None, [first, second]) == [WithExpiry(None, first).1] + Answers(keyed, [second]);
    var plain := Some(Counter(1, 60));
    assert PlainAnswers(plain, [second])
        == [WithoutExpiry(plain, second).1] + PlainAnswers(WithoutExpiry(plain, second).0, [second][1..]);
    assert PlainAnswers(None, [first, second]) == [WithoutExpiry(None, first).1] + PlainAnswers(plain, [second]);
  }

  /////////////////////////////////
  /// What callers are answered
  /////////////////////////////////

  /** The hits as operations on one key. */
  function HitTrace(times: seq<Moment>, limit: int, window: int): seq<Timed> {
    seq(|times|, i requires 0 <= i < |times| => Timed(Hit(limit, window), times[i]))
  }

  lemma {:induction false} AnswersFrom(times: seq<Moment>, limit: int, window: int, n: nat, i: nat)
    requires n <= i < |times|
    ensures var stored := if n == 0 then None else Some(CounterAt(times, window, n - 1));
            var rest := PlainAnswers(stored, HitTrace(times, limit, window)[n..]);
            && |rest| == |times| - n
            && rest[i - n] == Some(Judge(CounterAt(times, window, i), limit, times[i].now))
    decreases |times| - n
  {
    var stored := if n == 0 then None else Some(CounterAt(times, window, n - 1));
    var rest := HitTrace(times, limit, window)[n..];
    assert rest[0] == Timed(Hit(limit, window), times[n]);
    assert rest[1..] == HitTrace(times, limit, window)[n + 1..];
    assert WithoutExpiry(stored, rest[0]).0 == Some(CounterAt(times, window, n));
    assert PlainAnswers(stored, rest)
        == [WithoutExpiry(stored, rest[0]).1] + PlainAnswers(Some(CounterAt(times, window, n)), rest[1..]);
    if n + 1 < |times| {
      AnswersFrom(times, limit, window, n + 1, if n < i then i else n + 1);
    } else {
      assert rest[1..] == [];
    }
  }

  /** A hit is answered by its place in its window: allowed when among the first `limit`, with the hits
      so far, what is left, when the window closes, and how long that is for a refused one. */
  lemma HitIsAnsweredByItsPlace(times: seq<Moment>, limit: nat, window: int, i: nat)
    requires 1 <= window && i < |times|
    ensures var answers, o := PlainAnswers(None, HitTrace(times, limit, window)), Opener(times, window, i);
            && |answers| == |times| && answers[i].Some?
            && var a := answers[i].value;
               && (a.allowed <==> i < o + limit)
               && a.limit == limit && a.hits == i - o + 1 && a.resetAt == times[o].now + window
               && (a.allowed ==> a.remaining == o + limit - i - 1 && a.retryAfter == 0)
               && (!a.allowed ==> a.remaining == 0 && a.retryAfter == a.resetAt - times[i].now && 0 < a.retryAfter)
  {
    AnswersFrom(times, limit, window, 0, i);
    WindowOf(times, window, i);
    assert HitTrace(times, limit, window)[0..] == HitTrace(times, limit, window);
  }

  /** The hits within the interval that were answered as allowed. */
  function AnsweredIn(answers: seq<Option<Attempt>>, times: seq<Moment>, window: int, start: real): set<nat> {
    set i: nat | i < |times| && i < |answers| && answers[i].Some? && answers[i].value.allowed
      && start <= times[i].at < start + window as real
  }

  /** The same of one window. */
  function AnsweredByWindow(answers: seq<Option<Attempt>>, times: seq<Moment>, window: int, o: nat): set<nat> {
    set i: nat | i < |times| && i < |answers| && answers[i].Some? && answers[i].value.allowed
      && Opener(times, window, i) == o
  }

  /** What the callers of one key are told, on a store that does expire: as long as no hit comes after
      the key expired with its window still open, the attempts answered as allowed are in every window
      exactly its first `limit`, and in any interval as long as the window at most twice that many, if
      lags stay within a second. */
  lemma AnswersKeepTheBound(times: seq<Moment>, limit: nat, window: int, start: real, o: nat)
    requires 1 <= window && InOrder(times) && LagsWithin(times, 1.0)
    requires !SomeMissesItsWindow(None, HitTrace(times, limit, window))
    ensures var answers := Answers(None, HitTrace(times, limit, window));
            && |AnsweredIn(answers, times, window, start)| <= 2 * limit
            && AnsweredByWindow(answers, times, window, o)
               == set i: nat | i < |times| && Opener(times, window, i) == o && i < o + limit
  {
    var trace := HitTrace(times, limit, window);
    ExpiryNeverShowsIff(trace);
    var answers := PlainAnswers(None, trace);
    forall i: nat | i < |times|
      ensures |answers| == |times| && answers[i].Some?
      ensures answers[i].value.allowed <==> Allowed(times, limit, window, i)
      ensures answers[i].value.allowed <==> i < Opener(times, window, i) + limit
    {
      HitIsAnsweredByItsPlace(times, limit, window, i);
      AllowedIffAmongTheFirst(times, limit, window, i);
    }
    assert AnsweredIn(answers, times, window, start) == AllowedIn(times, limit, window, start);
    AtMostTwiceTheLimit(times, limit, window, start);
  }

  /** A peek counts nothing and tells of the open window: how many hits it has had, allowed as long as
      these are at most `limit`; once it has closed, and before the first hit, of a full allowance. */
  lemma CheckTellsOfTheOpenWindow(times: seq<Moment>, limit: nat, window: int, when: Moment)
    requires 1 <= window && times != []
    ensures var last := |times| - 1;
            var o, stored := Opener(times, window, last), Some(CounterAt(times, window, last));
            var (after, answer) := WithoutExpiry(stored, Timed(Check(limit), when));
            && after == stored && answer.Some?
            && var a := answer.value;
               if when.now < times[o].now + window then
                 && a.hits == last - o + 1 && (a.allowed <==> last - o + 1 <= limit)
                 && a.resetAt == times[o].now + window
                 && (a.allowed ==> a.remaining == limit - a.hits && a.retryAfter == 0)
                 && (!a.allowed ==> a.remaining == 0 && a.retryAfter == a.resetAt - when.now)
               else
                 a.allowed && a.hits == 0 && a.remaining == limit && a.retryAfter == 0 && a.resetAt == when.now
    ensures WithoutExpiry(None, Timed(Check(limit), when)) == (None, Some(Attempt(true, limit, 0, limit, 0, when.now)))
  {
    WindowOf(times, window, |times| - 1);
  }

  /////////////////////////////////
  /// The throttle
  /////////////////////////////////

  datatype Answer = Refused | Answered(attempt: Attempt)

  class Store {
    var keys: map<string, Keyed>

    constructor ()
      ensures keys == map[]
    {
      keys := map[];
    }

    function Stored(key: string): Option<Keyed>
      reads this
    {
      if key in keys then Some(keys[key]) else None
    }

    /** Counts the attempt whether or not it is allowed. A limit or window below 1 is refused. */
    method HitKey(key: string, limit: int, window: int, now: int, at: real) returns (answer: Answer)
      modifies this
      ensures limit < 1 || window < 1 ==> answer.Refused? && keys == old(keys)
      ensures 1 <= limit && 1 <= window ==>
                && answer.Answered?
                && (Stored(key), Some(answer.attempt))
                     == WithExpiry(old(Stored(key)), Timed(Hit(limit, window), Moment(now, at)))
      ensures forall other | other != key :: Stored(other) == old(Stored(other))
    {
      if limit < 1 || window < 1 {
        return Refused;
      }
      var hits, reset := 0, now + window;
      if key in keys && at < keys[key].expires && now < keys[key].counter.reset {
        hits, reset := keys[key].counter.hits, keys[key].counter.reset;
      }
      hits := hits + 1;
      keys := keys[key := Keyed(Counter(hits, reset), at + Max(1, reset - now) as real)];
      answer := Answered(Judge(Counter(hits, reset), limit, now));
    }

    method CheckKey(key: string, limit: int, now: int, at: real) returns (answer: Answer)
      ensures answer == if limit < 1 then Refused else Answered(Peek(Alive(Stored(key), at), limit, now))
    {
      if limit < 1 {
        return Refused;
      }
      if key in keys && at < keys[key].expires && now < keys[key].counter.reset {
        return Answered(Judge(keys[key].counter, limit, now));
      }
      answer := Answered(Attempt(true, limit, 0, limit, 0, now));
    }

    method ClearKey(key: string)
      modifies this
      ensures Stored(key).None? && forall other | other != key :: Stored(other) == old(Stored(other))
    {
      keys := keys - {key};
    }
  }
}
