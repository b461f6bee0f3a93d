/** The loop behind key rotation: every row of a column is read once, a page at a time in id order,
    and rewritten if a rule says so, while others go on writing to the column. */
module RewriteColumn {
  import opened Wrappers

  /** What the rule says of a value: leave it (counting it as plain or not), renew it, or stop. */
  datatype Verdict = Leave | LeavePlain | Renew | Stop

  /** Renewing may be impossible for a value. `same` says that two values mean the same. */
  datatype Rule<!V> = Rule(
    judge: V -> Verdict, renewable: V -> bool, renewed: (V, nat) -> V, same: (V, V) -> bool)

  ghost predicate Lawful<V(!new)>(rule: Rule<V>) {
    && (forall v: V :: rule.same(v, v))
    && (forall v: V, n: nat {:trigger rule.renewed(v, n)} :: rule.judge(v) == Renew && rule.renewable(v) ==>
          rule.judge(rule.renewed(v, n)) == Leave && forall w: V :: rule.same(v, w) ==>
            rule.same(rule.renewed(v, n), w))
  }

  type Rows<V> = map<int, V>

  /** What the program cannot choose: the writes of others that land before its n-th statement,
      whether that statement fails, and the nonce used with it. */
  datatype Env<!V> = Env(writes: nat -> Rows<V>, fails: nat -> bool, nonce: nat -> nat)

  /** The rows after some writes; the set of rows is fixed. */
  function Overlaid<V>(rows: Rows<V>, writes: Rows<V>): Rows<V> {
    map id | id in rows :: if id in writes then writes[id] else rows[id]
  }

  /** The rows as the writes of others alone leave them, from one statement up to another. */
  function Alone<V>(rows: Rows<V>, env: Env<V>, from: nat, to: nat): Rows<V>
    requires from <= to
  {
    if from == to then rows else Overlaid(Alone(rows, env, from, to - 1), env.writes(to - 1))
  }

  lemma {:induction false} AloneChains<V>(rows: Rows<V>, env: Env<V>, from: nat, mid: nat, to: nat)
    requires from <= mid <= to
    ensures Alone(Alone(rows, env, from, mid), env, mid, to) == Alone(rows, env, from, to)
  {
    if mid < to {
      AloneChains(rows, env, from, mid, to - 1);
    }
  }

  lemma {:induction false} AloneAt<V>(a: Rows<V>, b: Rows<V>, env: Env<V>, from: nat, to: nat, id: int)
    requires from <= to && id in a && id in b && a[id] == b[id]
    ensures id in Alone(a, env, from, to) && id in Alone(b, env, from, to)
    ensures Alone(a, env, from, to)[id] == Alone(b, env, from, to)[id]
  {
    if from < to {
      AloneAt(a, b, env, from, to - 1, id);
    }
  }

  lemma {:induction false} AloneKeepsIds<V>(rows: Rows<V>, env: Env<V>, from: nat, to: nat)
    requires from <= to
    ensures Alone(rows, env, from, to).Keys == rows.Keys
  {
    if from < to {
      AloneKeepsIds(rows, env, from, to - 1);
    }
  }

  /** But for the rows the program itself has written, all are as the others alone would have left them. */
  ghost predicate LeftToOthers<V>(was: Rows<V>, now: Rows<V>, env: Env<V>, from: nat, to: nat, wrote: seq<int>) {
    && from <= to && now.Keys == was.Keys
    && forall id {:trigger now[id]} | id in now && id !in wrote ::
         id in Alone(was, env, from, to) && now[id] == Alone(was, env, from, to)[id]
  }

  lemma LeftToOthersChains<V>(was: Rows<V>, meanwhile: Rows<V>, now: Rows<V>, env: Env<V>, from: nat, mid: nat, to: nat,
                              first: seq<int>, second: seq<int>)
    requires LeftToOthers(was, meanwhile, env, from, mid, first) && LeftToOthers(meanwhile, now, env, mid, to, second)
    ensures LeftToOthers(was, now, env, from, to, first + second)
  {
    forall id | id in now && id !in first + second
      ensures id in Alone(was, env, from, to) && now[id] == Alone(was, env, from, to)[id]
    {
      assert meanwhile[id] == Alone(was, env, from, mid)[id];
      AloneAt(meanwhile, Alone(was, env, from, mid), env, mid, to, id);
      AloneChains(was, env, from, mid, to);
    }
  }

  ghost predicate Quiet<V>(env: Env<V>) {
    forall n: nat :: env.writes(n) == map[]
  }

  ghost predicate NeverFails<V>(env: Env<V>) {
    forall n: nat :: !env.fails(n)
  }

  // ---------------------------------------------------------------- Pages

  predicate Ascending(ids: seq<int>) {
    forall i, j | 0 <= i < j < |ids| :: ids[i] < ids[j]
  }

  /** How many ids are not past the cursor. */
  function Start(ids: seq<int>, cursor: Option<int>): (k: nat)
    ensures k <= |ids|
  {
    if ids == [] || cursor.None? || ids[0] > cursor.value then 0 else 1 + Start(ids[1..], cursor)
  }

  lemma {:induction false} StartSplits(ids: seq<int>, cursor: Option<int>)
    requires Ascending(ids)
    ensures forall i | 0 <= i < |ids| :: i < Start(ids, cursor) <==> cursor.Some? && ids[i] <= cursor.value
  {
    if ids != [] && cursor.Some? && ids[0] <= cursor.value {
      StartSplits(ids[1..], cursor);
      forall i | 0 <= i < |ids| ensures i < Start(ids, cursor) <==> ids[i] <= cursor.value {
        if 0 < i {
          assert ids[i] == ids[1..][i - 1];
        }
      }
    } else {
      assert Start(ids, cursor) == 0;
      assert forall i | 0 <= i < |ids| :: ids[0] <= ids[i];
    }
  }

  lemma StartAfter(ids: seq<int>, k: nat)
    requires Ascending(ids) && k < |ids|
    ensures Start(ids, Some(ids[k])) == k + 1
  {
    StartSplits(ids, Some(ids[k]));
  }

  function PageEnd(ids: seq<int>, cursor: Option<int>, batch: nat): (e: nat)
    ensures Start(ids, cursor) <= e <= |ids|
  {
    var k := Start(ids, cursor);
    if k + batch < |ids| then k + batch else |ids|
  }

  ghost predicate HasRows<V>(ids: seq<int>, rows: Rows<V>) {
    forall i | 0 <= i < |ids| :: ids[i] in rows
  }

  /** The first rows past the cursor, in id order, at most a batch of them. */
  function Page<V>(ids: seq<int>, rows: Rows<V>, cursor: Option<int>, batch: nat): seq<(int, V)>
    requires HasRows(ids, rows)
  {
    var k := Start(ids, cursor);
    seq(PageEnd(ids, cursor, batch) - k,
      i requires 0 <= i < PageEnd(ids, cursor, batch) - k => (ids[k + i], rows[ids[k + i]]))
  }

  /** A page is what the query asks for: ascending rows past the cursor, and either all of them or a
      full batch that none left out would precede. */
  lemma PageIsTheNextRows<V>(ids: seq<int>, rows: Rows<V>, cursor: Option<int>, batch: nat)
    requires Ascending(ids) && HasRows(ids, rows)
    ensures var page := Page(ids, rows, cursor, batch);
            && |page| <= batch
            && (forall i | 0 <= i < |page| ::
                 page[i].0 in ids && page[i].1 == rows[page[i].0] && (cursor.Some? ==> cursor.value < page[i].0))
            && (forall i, j | 0 <= i < j < |page| :: page[i].0 < page[j].0)
            && (forall id | id in ids && (cursor.Some? ==> cursor.value < id) ::
                  (exists i :: 0 <= i < |page| && page[i].0 == id)
                  || (|page| == batch && forall i | 0 <= i < |page| :: page[i].0 < id))
  {
    StartSplits(ids, cursor);
    var page, k := Page(ids, rows, cursor, batch), Start(ids, cursor);
    forall id | id in ids && (cursor.Some? ==> cursor.value < id)
      ensures (exists i :: 0 <= i < |page| && page[i].0 == id)
           || (|page| == batch && forall i | 0 <= i < |page| :: page[i].0 < id)
    {
      var at :| 0 <= at < |ids| && ids[at] == id;
      if at < PageEnd(ids, cursor, batch) {
        assert page[at - k].0 == id;
      }
    }
  }

  // ---------------------------------------------------------------- One row

  /** The rule lets the run go past this value. */
  predicate Passable<V>(rule: Rule<V>, value: V, dry: bool) {
    rule.judge(value) != Stop && (rule.judge(value) == Renew && !dry ==> rule.renewable(value))
  }

  /** One row before and after a run with no other writer. */
  predicate Moved<V(==)>(rule: Rule<V>, before: V, after: V, dry: bool) {
    if rule.judge(before) == Renew && !dry then rule.judge(after) == Leave && rule.same(after, before)
      else after == before
  }

  datatype Outcome = Passed | Plaintext | Rotated | Changed | Stopped

  /** The figures the command reports. */
  datatype Counts = Counts(seen: nat, rotated: nat, changed: nat, plaintext: nat)

  function Counted(counts: Counts, outcome: Outcome): Counts {
    var read := counts.(seen := counts.seen + 1);
    match outcome
    case Plaintext => read.(plaintext := counts.plaintext + 1)
    case Rotated => read.(rotated := counts.rotated + 1)
    case Changed => read.(changed := counts.changed + 1)
    case _ => read
  }

  /** What a row's outcome says of the value its page read. */
  predicate Explains<V>(rule: Rule<V>, outcome: Outcome, value: V, dry: bool) {
    match outcome
    case Stopped => true
    case Passed => rule.judge(value) == Leave
    case Plaintext => rule.judge(value) == LeavePlain
    case Rotated => rule.judge(value) == Renew && Passable(rule, value, dry)
    case Changed => rule.judge(value) == Renew && Passable(rule, value, dry)
  }

  function CountOf<V>(rule: Rule<V>, visited: seq<(int, V)>, verdict: Verdict): nat {
    if visited == [] then 0
    else
      var n := |visited| - 1;
      CountOf(rule, visited[..n], verdict) + if rule.judge(visited[n].1) == verdict then 1 else 0
  }

  ghost predicate Tallied<V>(rule: Rule<V>, counts: Counts, visited: seq<(int, V)>) {
    && counts.seen == |visited|
    && counts.plaintext == CountOf(rule, visited, LeavePlain)
    && counts.rotated + counts.changed == CountOf(rule, visited, Renew)
  }

  // ---------------------------------------------------------------- Where a run stands

  /** With no other writer: a row that the run has passed moved, one it has not is as it was. */
  ghost predicate RowAt<V>(rule: Rule<V>, was: Rows<V>, rows: Rows<V>, id: int, passed: bool, dry: bool) {
    id in was && id in rows && if passed then Moved(rule, was[id], rows[id], dry) else rows[id] == was[id]
  }

  ghost predicate Progress<V>(rule: Rule<V>, ids: seq<int>, was: Rows<V>, rows: Rows<V>, done: nat, dry: bool) {
    forall i {:trigger ids[i]} | 0 <= i < |ids| :: RowAt(rule, was, rows, ids[i], i < done, dry)
  }

  /** A row read, and nothing in it to stop the run. */
  ghost predicate ReadAt<V>(rule: Rule<V>, env: Env<V>, was: Rows<V>, read: (int, V), id: int, dry: bool) {
    read.0 == id && Passable(rule, read.1, dry) && (Quiet(env) ==> id in was && read.1 == was[id])
  }

  /** Nothing has stopped the run, and the rows read so far are the first ones, in order. */
  ghost predicate Reading<V>(rule: Rule<V>, env: Env<V>, ids: seq<int>, was: Rows<V>, rows: Rows<V>, dry: bool,
                             counts: Counts, visited: seq<(int, V)>) {
    && Tallied(rule, counts, visited) && |visited| <= |ids|
    && (forall i {:trigger visited[i]} | 0 <= i < |visited| :: ReadAt(rule, env, was, visited[i], ids[i], dry))
    && (Quiet(env) ==> counts.changed == 0 && Progress(rule, ids, was, rows, |visited|, dry))
  }

  /** A page of the rows after the first k. */
  ghost predicate Fits<V>(env: Env<V>, ids: seq<int>, was: Rows<V>, page: seq<(int, V)>, k: nat) {
    k + |page| <= |ids| && forall j {:trigger page[j]} | 0 <= j < |page| :: FitsAt(env, was, page[j], ids[k + j])
  }

  ghost predicate FitsAt<V>(env: Env<V>, was: Rows<V>, read: (int, V), id: int) {
    read.0 == id && id in was && (Quiet(env) ==> read.1 == was[id])
  }

  lemma OneMoreRead<V>(earlier: seq<V>, page: seq<V>, j: nat)
    requires j < |page|
    ensures earlier + page[..j] + [page[j]] == earlier + page[..j + 1]
  {
  }

  lemma PageFits<V>(rule: Rule<V>, env: Env<V>, ids: seq<int>, was: Rows<V>, rows: Rows<V>, cursor: Option<int>,
                    batch: nat, dry: bool)
    requires HasRows(ids, rows) && HasRows(ids, was)
    requires Quiet(env) ==> Progress(rule, ids, was, rows, Start(ids, cursor), dry)
    ensures Fits(env, ids, was, Page(ids, rows, cursor, batch), Start(ids, cursor))
  {
    var page, k := Page(ids, rows, cursor, batch), Start(ids, cursor);
    forall j | 0 <= j < |page| ensures FitsAt(env, was, page[j], ids[k + j]) {
      assert page[j] == (ids[k + j], rows[ids[k + j]]);
    }
  }

  lemma PageEnds<V>(ids: seq<int>, rows: Rows<V>, cursor: Option<int>, batch: nat)
    requires Ascending(ids) && HasRows(ids, rows) && 1 <= batch
    ensures var page, k := Page(ids, rows, cursor, batch), Start(ids, cursor);
            && (|page| < batch ==> k + |page| == |ids|)
            && (page != [] ==> Start(ids, Some(page[|page| - 1].0)) == k + |page|)
  {
    var page, k := Page(ids, rows, cursor, batch), Start(ids, cursor);
    if page != [] {
      StartAfter(ids, k + |page| - 1);
    }
  }

  ghost predicate SomeImpassable<V>(rule: Rule<V>, ids: seq<int>, was: Rows<V>, dry: bool) {
    exists i | 0 <= i < |ids| :: ids[i] in was && !Passable(rule, was[ids[i]], dry)
  }

  lemma AllWerePassable<V>(rule: Rule<V>, env: Env<V>, ids: seq<int>, was: Rows<V>, rows: Rows<V>, dry: bool,
                           counts: Counts, visited: seq<(int, V)>)
    requires Reading(rule, env, ids, was, rows, dry, counts, visited) && |visited| == |ids| && Quiet(env)
    ensures !SomeImpassable(rule, ids, was, dry)
  {
    forall i | 0 <= i < |ids| ensures Passable(rule, was[ids[i]], dry) {
      assert ReadAt(rule, env, was, visited[i], ids[i], dry);
    }
  }

  /** Every row still means what others last wrote to it. */
  ghost predicate Faithful<V>(rule: Rule<V>, rows: Rows<V>, applied: Rows<V>) {
    rows.Keys == applied.Keys && forall id {:trigger rows[id]} | id in rows :: rule.same(rows[id], applied[id])
  }

  /** The rows written are some of those from one place to another, in their order and so each once. */
  ghost predicate WroteBetween(ids: seq<int>, from: nat, to: nat, wrote: seq<int>) {
    && from <= to <= |ids| && Ascending(wrote)
    && forall id | id in wrote :: exists i :: from <= i < to && ids[i] == id
  }

  lemma WroteOn(ids: seq<int>, from: nat, mid: nat, to: nat, wrote: seq<int>, more: seq<int>)
    requires Ascending(ids) && WroteBetween(ids, from, mid, wrote) && WroteBetween(ids, mid, to, more)
    ensures WroteBetween(ids, from, to, wrote + more)
  {
    forall i, j | 0 <= i < j < |wrote + more|
      ensures (wrote + more)[i] < (wrote + more)[j]
    {
      if i < |wrote| <= j {
        assert wrote[i] in wrote && more[j - |wrote|] in more;
      }
    }
    forall id | id in wrote + more
      ensures exists i :: from <= i < to && ids[i] == id
    {
      if id in wrote {
        var i :| from <= i < mid && ids[i] == id;
      } else {
        var i :| mid <= i < to && ids[i] == id;
      }
    }
  }

  /** What the run itself has written from one statement and one row up to another: the rows it says, as
      many as it counts as rotated, and no other. A dry run writes none. */
  ghost predicate Wrote<V>(ids: seq<int>, was: Rows<V>, now: Rows<V>, env: Env<V>, from: nat, to: nat, first: nat,
                           next: nat, dry: bool, rotated: int, wrote: seq<int>) {
    && LeftToOthers(was, now, env, from, to, wrote) && WroteBetween(ids, first, next, wrote)
    && if dry then wrote == [] else |wrote| == rotated
  }

  lemma WroteChains<V>(ids: seq<int>, was: Rows<V>, meanwhile: Rows<V>, now: Rows<V>, env: Env<V>, from: nat, mid: nat,
                       to: nat, first: nat, between: nat, next: nat, dry: bool, rotated: int, more: int,
                       wrote: seq<int>, wroteMore: seq<int>)
    requires Ascending(ids) && Wrote(ids, was, meanwhile, env, from, mid, first, between, dry, rotated, wrote)
    requires Wrote(ids, meanwhile, now, env, mid, to, between, next, dry, more, wroteMore)
    ensures Wrote(ids, was, now, env, from, to, first, next, dry, rotated + more, wrote + wroteMore)
  {
    LeftToOthersChains(was, meanwhile, now, env, from, mid, to, wrote, wroteMore);
    WroteOn(ids, first, between, next, wrote, wroteMore);
  }

  lemma WroteNothing<V>(ids: seq<int>, was: Rows<V>, now: Rows<V>, env: Env<V>, from: nat, to: nat, k: nat, dry: bool)
    requires from <= to && k <= |ids| && now == Alone(was, env, from, to)
    ensures Wrote(ids, was, now, env, from, to, k, k, dry, 0, [])
  {
    AloneKeepsIds(was, env, from, to);
  }

  lemma WroteOneRow<V>(ids: seq<int>, was: Rows<V>, now: Rows<V>, env: Env<V>, step: nat, k: nat, renewed: V)
    requires k < |ids| && ids[k] in was && now == Overlaid(was, env.writes(step))[ids[k] := renewed]
    ensures Wrote(ids, was, now, env, step, step + 1, k, k + 1, false, 1, [ids[k]])
  {
    assert Alone(was, env, step, step) == was;
    assert Alone(was, env, step, step + 1) == Overlaid(was, env.writes(step));
  }

  lemma WroteUpToTheNext<V>(ids: seq<int>, was: Rows<V>, now: Rows<V>, env: Env<V>, from: nat, to: nat, k: nat,
                            dry: bool, rotated: int)
    requires k < |ids| && Wrote(ids, was, now, env, from, to, k, k, dry, 0, []) && (rotated == 0 || dry)
    ensures Wrote(ids, was, now, env, from, to, k, k + 1, dry, rotated, [])
  {
  }

  /** A stretch of the run: what others wrote landed on both the rows and what the others alone would
      have left, and the run wrote the rows it says. */
  ghost predicate Went<V>(ids: seq<int>, was: Rows<V>, now: Rows<V>, wasApplied: Rows<V>, applied: Rows<V>,
                          env: Env<V>, from: nat, to: nat, first: nat, next: nat, dry: bool, rotated: int,
                          wrote: seq<int>) {
    Wrote(ids, was, now, env, from, to, first, next, dry, rotated, wrote) && applied == Alone(wasApplied, env, from, to)
  }

  lemma WentOn<V>(ids: seq<int>, was: Rows<V>, meanwhile: Rows<V>, now: Rows<V>, wasApplied: Rows<V>,
                  meanwhileApplied: Rows<V>, applied: Rows<V>, env: Env<V>, from: nat, mid: nat, to: nat, first: nat,
                  between: nat, next: nat, dry: bool, rotated: int, more: int, wrote: seq<int>, wroteMore: seq<int>)
    requires Ascending(ids)
    requires Went(ids, was, meanwhile, wasApplied, meanwhileApplied, env, from, mid, first, between, dry, rotated,
             wrote)
    requires Went(ids, meanwhile, now, meanwhileApplied, applied, env, mid, to, between, next, dry, more, wroteMore)
    ensures Went(ids, was, now, wasApplied, applied, env, from, to, first, next, dry, rotated + more, wrote + wroteMore)
  {
    WroteChains(ids, was, meanwhile, now, env, from, mid, to, first, between, next, dry, rotated, more, wrote,
      wroteMore);
    AloneChains(wasApplied, env, from, mid, to);
  }

  lemma OthersOnly<V>(ids: seq<int>, was: Rows<V>, meanwhile: Rows<V>, now: Rows<V>, wasApplied: Rows<V>,
                      meanwhileApplied: Rows<V>, applied: Rows<V>, env: Env<V>, step: nat, k: nat, dry: bool,
                      rotated: int, wrote: seq<int>)
    requires Ascending(ids)
    requires Went(ids, was, meanwhile, wasApplied, meanwhileApplied, env, 0, step, 0, k, dry, rotated, wrote)
    requires now == Overlaid(meanwhile, env.writes(step)) && applied == Overlaid(meanwhileApplied, env.writes(step))
    ensures Went(ids, was, now, wasApplied, applied, env, 0, step + 1, 0, k, dry, rotated, wrote)
  {
    assert Alone(meanwhile, env, step, step) == meanwhile;
    assert applied == Alone(wasApplied, env, 0, step + 1);
    WroteNothing(ids, meanwhile, now, env, step, step + 1, k, dry);
    WroteChains(ids, was, meanwhile, now, env, 0, step, step + 1, 0, k, k, dry, rotated, 0, wrote, []);
    assert wrote + [] == wrote;
  }

  lemma WroteNoneMeansOthersOnly<V>(was: Rows<V>, now: Rows<V>, env: Env<V>, from: nat, to: nat)
    requires LeftToOthers(was, now, env, from, to, [])
    ensures now == Alone(was, env, from, to)
  {
    AloneKeepsIds(was, env, from, to);
    forall id | id in now
      ensures now[id] == Alone(was, env, from, to)[id]
    {
      assert id !in [];
    }
  }

  /** The next row, once dealt with, is one more read. */
  lemma ReadingOneMore<V>(rule: Rule<V>, env: Env<V>, ids: seq<int>, was: Rows<V>, so: Rows<V>, now: Rows<V>, dry: bool,
                              before: Counts, visited: seq<(int, V)>, read: (int, V), outcome: Outcome)
    requires Reading(rule, env, ids, was, so, dry, before, visited) && outcome != Stopped
    requires |visited| < |ids| && FitsAt(env, was, read, ids[|visited|]) && Ascending(ids)
    requires now.Keys == so.Keys && Explains(rule, outcome, read.1, dry)
    requires Quiet(env) ==> forall other | other in now && other != read.0 :: now[other] == so[other]
    requires Quiet(env) && so[read.0] == read.1 ==> Moved(rule, read.1, now[read.0], dry) && outcome != Changed
    requires read.0 in so
    ensures Reading(rule, env, ids, was, now, dry, Counted(before, outcome), visited + [read])
  {
    var longer := visited + [read];
    assert longer[..|visited|] == visited;
    if Quiet(env) {
      assert RowAt(rule, was, so, ids[|visited|], false, dry);
      forall i | 0 <= i < |ids|
        ensures RowAt(rule, was, now, ids[i], i < |longer|, dry)
      {
        assert RowAt(rule, was, so, ids[i], i < |visited|, dry);
        assert i != |visited| ==> ids[i] != read.0;
      }
    }
  }

  lemma RunEnds<V>(ids: seq<int>, was: Rows<V>, now: Rows<V>, wasApplied: Rows<V>, applied: Rows<V>, env: Env<V>,
                   to: nat, next: nat, dry: bool, rotated: int, wrote: seq<int>)
    requires Went(ids, was, now, wasApplied, applied, env, 0, to, 0, next, dry, rotated, wrote)
    ensures dry ==> now == Alone(was, env, 0, to)
  {
    if dry {
      WroteNoneMeansOthersOnly(was, now, env, 0, to);
    }
  }

  lemma RowWent<V>(ids: seq<int>, was: Rows<V>, meanwhile: Rows<V>, now: Rows<V>, wasApplied: Rows<V>,
                   meanwhileApplied: Rows<V>, applied: Rows<V>, env: Env<V>, step: nat, to: nat, k: nat, dry: bool,
                   outcome: Outcome, renewed: V, rotated: nat, wrote: seq<int>)
    requires Ascending(ids) && k < |ids| && ids[k] in meanwhile && step <= to
    requires Went(ids, was, meanwhile, wasApplied, meanwhileApplied, env, 0, step, 0, k, dry, rotated, wrote)
    requires applied == Alone(meanwhileApplied, env, step, to)
    requires if outcome == Rotated && !dry then
               to == step + 1 && now == Overlaid(meanwhile, env.writes(step))[ids[k] := renewed]
             else now == Alone(meanwhile, env, step, to)
    ensures Went(ids, was, now, wasApplied, applied, env, 0, to, 0, k + if outcome == Stopped then 0 else 1, dry,
              if outcome == Rotated then rotated + 1 else rotated,
              wrote + if outcome == Rotated && !dry then [ids[k]] else [])
  {
    var next, more := k + (if outcome == Stopped then 0 else 1), if outcome == Rotated then 1 else 0;
    if outcome == Rotated && !dry {
      WroteOneRow(ids, meanwhile, now, env, step, k, renewed);
    } else {
      WroteNothing(ids, meanwhile, now, env, step, to, k, dry);
      if outcome != Stopped {
        WroteUpToTheNext(ids, meanwhile, now, env, step, to, k, dry, more);
      }
    }
    WentOn(ids, was, meanwhile, now, wasApplied, meanwhileApplied, applied, env, 0, step, to, 0, k, next, dry, rotated,
      more, wrote, if outcome == Rotated && !dry then [ids[k]] else []);
  }

  // ---------------------------------------------------------------- The run

  class Column<V(==,!new)> {
    const ids: seq<int>
    var rows: Rows<V>
    /** The rows as the others alone would have left them. */
    ghost var applied: Rows<V>

    ghost predicate Valid(rule: Rule<V>)
      reads this
    {
      Ascending(ids) && HasRows(ids, rows) && Faithful(rule, rows, applied)
    }

    /** The writes of others land. */
    method Await(rule: Rule<V>, env: Env<V>, step: nat)
      requires Lawful(rule) && Valid(rule)
      modifies this`rows, this`applied
      ensures Valid(rule) && rows.Keys == old(rows).Keys
      ensures rows == Overlaid(old(rows), env.writes(step)) && applied == Overlaid(old(applied), env.writes(step))
      ensures Quiet(env) ==> rows == old(rows)
    {
      rows := Overlaid(rows, env.writes(step));
      applied := Overlaid(applied, env.writes(step));
      assert Quiet(env) ==> env.writes(step) == map[];
    }

    /** One row of a page. The write is conditional on the value the page read. */
    method RewriteRow(rule: Rule<V>, env: Env<V>, dry: bool, id: int, value: V, step: nat)
      returns (outcome: Outcome, next: nat)
      requires Lawful(rule) && Valid(rule) && id in rows
      modifies this`rows, this`applied
      ensures Valid(rule) && rows.Keys == old(rows).Keys
      ensures step <= next && applied == Alone(old(applied), env, step, next)
      ensures dry ==> next == step && rows == old(rows)
      ensures Explains(rule, outcome, value, dry)
      ensures outcome == Rotated && !dry ==>
                && next == step + 1 && Overlaid(old(rows), env.writes(step))[id] == value
                && rows == Overlaid(old(rows), env.writes(step))[id := rule.renewed(value, env.nonce(step))]
      ensures outcome == Changed ==> !dry && next == step + 1 && Overlaid(old(rows), env.writes(step))[id] != value
      ensures dry || outcome != Rotated ==> rows == Alone(old(rows), env, step, next)
      ensures outcome == Stopped && NeverFails(env) ==> !Passable(rule, value, dry)
      ensures Quiet(env) ==> forall other | other in rows && other != id :: rows[other] == old(rows)[other]
      ensures Quiet(env) && old(rows)[id] == value && outcome != Stopped ==>
              Moved(rule, value, rows[id], dry) && outcome != Changed
    {
      next := step;
      match rule.judge(value) {
        case Leave => outcome := Passed;
        case LeavePlain => outcome := Plaintext;
        case Stop => outcome := Stopped;
        case Renew =>
          if dry {
            outcome := Rotated;
          } else if !rule.renewable(value) {
            outcome := Stopped;
          } else {
            var renewed := rule.renewed(value, env.nonce(step));
            Await(rule, env, step);
            next := step + 1;
            assert Alone(old(applied), env, step, step) == old(applied);
            assert Alone(old(rows), env, step, step) == old(rows);
            if env.fails(step) {
              outcome := Stopped;
            } else if rows[id] == value {
              rows := rows[id := renewed];
              outcome := Rotated;
            } else {
              outcome := Changed;
            }
          }
      }
    }

    /** The next row in order, counted. What the run has written is told from its start. */
    method RewriteNext(rule: Rule<V>, env: Env<V>, dry: bool, read: (int, V), before: Counts, step: nat,
                       ghost visited: seq<(int, V)>, ghost was: Rows<V>, ghost wasApplied: Rows<V>,
                       ghost wroteBefore: seq<int>)
      returns (stopped: bool, counts: Counts, next: nat, ghost wrote: seq<int>)
      requires Lawful(rule) && Valid(rule) && Reading(rule, env, ids, was, rows, dry, before, visited)
      requires |visited| < |ids| && FitsAt(env, was, read, ids[|visited|])
      requires Went(ids, was, rows, wasApplied, applied, env, 0, step, 0, |visited|, dry, before.rotated, wroteBefore)
      modifies this`rows, this`applied
      ensures Valid(rule) && rows.Keys == old(rows).Keys
      ensures !stopped ==> Reading(rule, env, ids, was, rows, dry, counts, visited + [read])
      ensures stopped && Quiet(env) && NeverFails(env) ==> SomeImpassable(rule, ids, was, dry)
      ensures Went(ids, was, rows, wasApplied, applied, env, 0, next, 0, |visited| + if stopped then 0 else 1, dry,
                counts.rotated, wrote)
    {
      assert Quiet(env) ==> RowAt(rule, was, rows, ids[|visited|], false, dry);
      var outcome;
      outcome, next := RewriteRow(rule, env, dry, read.0, read.1, step);
      counts := Counted(before, outcome);
      stopped := outcome == Stopped;
      ghost var more := if outcome == Rotated && !dry then [read.0] else [];
      wrote := wroteBefore + more;
      if !stopped {
        ReadingOneMore(rule, env, ids, was, old(rows), rows, dry, before, visited, read, outcome);
      }
      RowWent(ids, was, old(rows), rows, wasApplied, old(applied), applied, env, step, next, |visited|, dry, outcome,
        rule.renewed(read.1, env.nonce(step)), before.rotated, wroteBefore);
    }

    /** The rows of one page in turn, up to the first that stops the run. */
    method RewritePage(rule: Rule<V>, env: Env<V>, dry: bool, page: seq<(int, V)>, before: Counts, step: nat,
                       ghost earlier: seq<(int, V)>, ghost was: Rows<V>, ghost wasApplied: Rows<V>,
                       ghost wroteBefore: seq<int>)
      returns (stopped: bool, counts: Counts, next: nat, ghost visited: seq<(int, V)>, ghost wrote: seq<int>)
      requires Lawful(rule) && Valid(rule) && Reading(rule, env, ids, was, rows, dry, before, earlier)
      requires Fits(env, ids, was, page, |earlier|)
      requires Went(ids, was, rows, wasApplied, applied, env, 0, step, 0, |earlier|, dry, before.rotated, wroteBefore)
      modifies this`rows, this`applied
      ensures Valid(rule) && rows.Keys == old(rows).Keys
      ensures !stopped ==> Reading(rule, env, ids, was, rows, dry, counts, visited) && visited == earlier + page
      ensures stopped && Quiet(env) && NeverFails(env) ==> SomeImpassable(rule, ids, was, dry)
      ensures Went(ids, was, rows, wasApplied, applied, env, 0, next, 0, |visited|, dry, counts.rotated, wrote)
    {
      stopped, counts, next, visited, wrote := false, before, step, earlier, wroteBefore;
      var j := 0;
      while j < |page|
        invariant 0 <= j <= |page| && !stopped && Valid(rule) && rows.Keys == old(rows).Keys
        invariant |visited| == |earlier| + j && visited == earlier + page[..j]
        invariant Reading(rule, env, ids, was, rows, dry, counts, visited)
        invariant Went(ids, was, rows, wasApplied, applied, env, 0, next, 0, |visited|, dry, counts.rotated, wrote)
      {
        assert FitsAt(env, was, page[j], ids[|earlier| + j]);
        stopped, counts, next, wrote :=
          RewriteNext(rule, env, dry, page[j], counts, next, visited, was, wasApplied, wrote);
        if stopped {
          return;
        }
        visited := visited + [page[j]];
        OneMoreRead(earlier, page, j);
        j := j + 1;
      }
      assert page[..j] == page;
    }

    /** One query, past the cursor: what it returns fits, and a page that is not full is the last. */
    method ReadPage(rule: Rule<V>, env: Env<V>, dry: bool, cursor: Option<int>, batch: nat, step: nat,
                    ghost counts: Counts, ghost visited: seq<(int, V)>, ghost was: Rows<V>, ghost wasApplied: Rows<V>,
                    ghost wrote: seq<int>)
      returns (failed: bool, page: seq<(int, V)>)
      requires Lawful(rule) && Valid(rule) && HasRows(ids, was) && 1 <= batch
      requires Reading(rule, env, ids, was, rows, dry, counts, visited) && |visited| == Start(ids, cursor)
      requires Went(ids, was, rows, wasApplied, applied, env, 0, step, 0, |visited|, dry, counts.rotated, wrote)
      modifies this`rows, this`applied
      ensures Valid(rule) && rows.Keys == old(rows).Keys
      ensures Went(ids, was, rows, wasApplied, applied, env, 0, step + 1, 0, |visited|, dry, counts.rotated, wrote)
      ensures Reading(rule, env, ids, was, rows, dry, counts, visited)
      ensures failed <==> env.fails(step)
      ensures Fits(env, ids, was, page, |visited|)
      ensures |page| < batch ==> |visited| + |page| == |ids|
      ensures page != [] ==> Start(ids, Some(page[|page| - 1].0)) == |visited| + |page|
    {
      Await(rule, env, step);
      OthersOnly(ids, was, old(rows), rows, wasApplied, old(applied), applied, env, step, |visited|, dry,
        counts.rotated,
        wrote);
      failed := env.fails(step);
      page := Page(ids, rows, cursor, batch);
      PageFits(rule, env, ids, was, rows, cursor, batch, dry);
      PageEnds(ids, rows, cursor, batch);
    }

    /** The whole loop. Whatever others write meanwhile, no write of theirs is lost and no meaning
        changes (Valid); success means every row was read exactly once, in id order. The rows the run
        wrote are as many as it counts as rotated; all others are as the others left them. With no other
        writer, success leaves every row moved and it fails only on a value that cannot be passed. */
    method Rewrite(rule: Rule<V>, env: Env<V>, batch: nat, dry: bool)
      returns (done: bool, counts: Counts, ghost visited: seq<(int, V)>, ghost statements: nat,
               ghost wrote: seq<int>)
      requires Lawful(rule) && Valid(rule) && 1 <= batch
      modifies this`rows, this`applied
      ensures Valid(rule) && applied == Alone(old(applied), env, 0, statements)
      ensures dry ==> rows == Alone(old(rows), env, 0, statements)
      ensures done ==> Reading(rule, env, ids, old(rows), rows, dry, counts, visited) && |visited| == |ids|
      ensures Quiet(env) && NeverFails(env) ==> (done <==> !SomeImpassable(rule, ids, old(rows), dry))
      ensures LeftToOthers(old(rows), rows, env, 0, statements, wrote)
      ensures WroteBetween(ids, 0, |visited|, wrote) && if dry then wrote == [] else counts.rotated == |wrote|
    {
      counts, visited, statements, wrote := Counts(0, 0, 0, 0), [], 0, [];
      WroteNothing(ids, rows, rows, env, 0, 0, 0, dry);
      ghost var was, wasApplied := rows, applied;
      var cursor: Option<int> := None;
      var step := 0;
      while true
        invariant Valid(rule) && HasRows(ids, was) && statements == step
        invariant Reading(rule, env, ids, was, rows, dry, counts, visited) && |visited| == Start(ids, cursor)
        invariant Went(ids, was, rows, wasApplied, applied, env, 0, step, 0, |visited|, dry, counts.rotated, wrote)
        decreases |ids| - |visited|
      {
        var failed, page := ReadPage(rule, env, dry, cursor, batch, step, counts, visited, was, wasApplied, wrote);
        step := step + 1;
        statements := step;
        if failed {
          RunEnds(ids, was, rows, wasApplied, applied, env, step, |visited|, dry, counts.rotated, wrote);
          return false, counts, visited, statements, wrote;
        }
        if page == [] {
          break;
        }
        var stopped;
        stopped, counts, step, visited, wrote :=
          RewritePage(rule, env, dry, page, counts, step, visited, was, wasApplied, wrote);
        statements := step;
        if stopped {
          RunEnds(ids, was, rows, wasApplied, applied, env, step, |visited|, dry, counts.rotated, wrote);
          return false, counts, visited, statements, wrote;
        }
        cursor := Some(page[|page| - 1].0);
        if |page| < batch {
          break;
        }
      }
      done := true;
      RunEnds(ids, was, rows, wasApplied, applied, env, step, |visited|, dry, counts.rotated, wrote);
      if Quiet(env) {
        AllWerePassable(rule, env, ids, was, rows, dry, counts, visited);
      }
    }
  }
}
