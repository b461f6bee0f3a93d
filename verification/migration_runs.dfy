/** Any number of appliers and baselines taking turns on the lock, with failures anywhere. A session
    is one turn; sessions are numbered as they get the lock. */
module MigrationRuns {
  import opened Wrappers
  import opened MigrationStates

  /** One row of the tracking table being written: by which session, and whether the file ran with it
      or was only marked. */
  datatype Entry = Entry(session: nat, name: Name, executed: bool)

  datatype Phase = Opened | Working(queue: seq<File>, baseline: bool)

  /** The table, the history of its rows, the lock, and the sessions between lock and unlock. */
  datatype World = World(
    tracked: Rows, log: seq<Entry>, lock: Option<nat>, inside: map<nat, Phase>, sessions: nat)

  datatype Event =
    | Open
    | Plan(session: nat, files: seq<File>, to: Option<Name>, baseline: bool, refused: bool)
    | Commit(session: nat)
    | Stamp(session: nat, marked: set<Name>)
    | Leave(session: nat)
    | Repair(name: Name, checksum: nat)

  // ---------------------------------------------------------------- What a session sets out to do

  function PendingOf(files: seq<File>, rows: Rows): seq<File> {
    Filter(files, (f: File) => f.name !in rows)
  }

  predicate Blocked(files: seq<File>, rows: Rows) {
    exists name :: name in rows && !(name in ByName(files) && rows[name] == ByName(files)[name].checksum)
  }

  /** Up to and with the named file. */
  function Selected(queue: seq<File>, to: Option<Name>): seq<File> {
    if to.None? then queue else Filter(queue, (f: File) => f.name <= to.value)
  }

  /** The queue a session works through; empty if it leaves without doing anything. */
  function Planned(files: seq<File>, rows: Rows, to: Option<Name>, baseline: bool, refused: bool): seq<File> {
    if refused || (!baseline && Blocked(files, rows)) || (to.Some? && to.value !in ByName(files)) then []
    else Selected(PendingOf(files, rows), to)
  }

  lemma {:induction false} KeptStaysAscending(files: seq<File>, keep: File -> bool)
    requires Ascending(files)
    ensures Ascending(Filter(files, keep))
    ensures forall f :: f in Filter(files, keep) <==> f in files && keep(f)
  {
    if files != [] {
      var rest, last := files[..|files| - 1], files[|files| - 1];
      KeptStaysAscending(rest, keep);
      assert files == rest + [last];
      var kept := Filter(rest, keep);
      forall i | 0 <= i < |kept| ensures kept[i].name < last.name {
        assert kept[i] in rest;
      }
    }
  }

  /** What is selected is exactly the files that have no row and do not come after the named one, which
      is itself among them if it has none; in name order. */
  lemma SelectedMeans(files: seq<File>, rows: Rows, to: Option<Name>)
    requires Ascending(files)
    ensures var queue := Selected(PendingOf(files, rows), to);
            && Ascending(queue)
            && forall f :: f in queue <==> f in files && f.name !in rows && (to.Some? ==> f.name <= to.value)
  {
    KeptStaysAscending(files, (f: File) => f.name !in rows);
    if to.Some? {
      KeptStaysAscending(PendingOf(files, rows), (f: File) => f.name <= to.value);
    }
  }

  lemma PlannedIsPending(files: seq<File>, rows: Rows, to: Option<Name>, baseline: bool, refused: bool)
    requires Ascending(files)
    ensures var queue := Planned(files, rows, to, baseline, refused);
            && Ascending(queue)
            && forall f | f in queue :: f in files && f.name !in rows && (to.Some? ==> f.name <= to.value)
  {
    SelectedMeans(files, rows, to);
  }

  // ---------------------------------------------------------------- Steps

  function Recorded(rows: Rows, files: seq<File>): Rows {
    if files == [] then rows
    else Recorded(rows, files[..|files| - 1])[files[|files| - 1].name := files[|files| - 1].checksum]
  }

  function Entries(session: nat, files: seq<File>, executed: bool): seq<Entry> {
    seq(|files|, i requires 0 <= i < |files| => Entry(session, files[i].name, executed))
  }

  function Chosen(w: World, session: nat, marked: set<Name>): seq<File> {
    if session in w.inside && w.inside[session].Working?
    then Filter(w.inside[session].queue, (f: File) => f.name in marked) else []
  }

  predicate CanInsert(rows: Rows, files: seq<File>) {
    forall i | 0 <= i < |files| :: files[i].name !in rows
  }

  predicate Enabled(w: World, e: Event) {
    match e
    case Open => w.lock.None?
    case Plan(session, files, _, _, _) => session in w.inside && w.inside[session] == Opened && Ascending(files)
    case Commit(session) =>
      && session in w.inside && w.inside[session].Working? && !w.inside[session].baseline
      && w.inside[session].queue != [] && CanInsert(w.tracked, w.inside[session].queue[..1])
    case Stamp(session, marked) =>
      && session in w.inside && w.inside[session].Working? && w.inside[session].baseline
      && CanInsert(w.tracked, Chosen(w, session, marked))
    case Leave(session) => session in w.inside
    case Repair(name, _) => name in w.tracked
  }

  /** Some files and their rows in one transaction, and what the session has left to do. */
  function Written(w: World, session: nat, files: seq<File>, executed: bool, left: seq<File>, baseline: bool): World {
    w.(tracked := Recorded(w.tracked, files),
       log := w.log + Entries(session, files, executed),
       inside := w.inside[session := Working(left, baseline)])
  }

  /** A session leaves when it is done, when it failed, or when its process died: whatever transaction
      was open is gone, and the lock with the connection. */
  function Apply(w: World, e: Event): World
    requires Enabled(w, e)
  {
    match e
    case Open => w.(lock := Some(w.sessions), inside := w.inside[w.sessions := Opened], sessions := w.sessions + 1)
    case Plan(session, files, to, baseline, refused) =>
      w.(inside := w.inside[session := Working(Planned(files, w.tracked, to, baseline, refused), baseline)])
    case Commit(session) => Written(w, session, w.inside[session].queue[..1], true, w.inside[session].queue[1..], false)
    case Stamp(session, marked) => Written(w, session, Chosen(w, session, marked), false, [], true)
    case Leave(session) =>
      w.(inside := w.inside - {session}, lock := if w.lock == Some(session) then None else w.lock)
    case Repair(name, checksum) => w.(tracked := w.tracked[name := checksum])
  }

  predicate IsRun(w: World, events: seq<Event>)
    decreases |events|
  {
    events == [] || (Enabled(w, events[0]) && IsRun(Apply(w, events[0]), events[1..]))
  }

  function Run(w: World, events: seq<Event>): World
    requires IsRun(w, events)
    decreases |events|
  {
    if events == [] then w else Run(Apply(w, events[0]), events[1..])
  }

  const START := World(map[], [], None, map[], 0)

  // ---------------------------------------------------------------- What every run keeps

  predicate Logged(log: seq<Entry>, name: Name) {
    exists i :: 0 <= i < |log| && log[i].name == name
  }

  /** Two rows written one after the other: different names, by the same session in name order or by
      a later one. */
  predicate InOrder(earlier: Entry, later: Entry) {
    && earlier.name != later.name
    && earlier.session <= later.session
    && (earlier.session == later.session ==> earlier.name < later.name)
  }

  ghost predicate LogSound(w: World) {
    && (forall i, j {:trigger w.log[i], w.log[j]} | 0 <= i < j < |w.log| :: InOrder(w.log[i], w.log[j]))
    && (forall i | 0 <= i < |w.log| :: w.log[i].session < w.sessions)
    && (forall name: Name :: name in w.tracked <==> Logged(w.log, name))
  }

  ghost predicate FileWaits(w: World, session: nat, f: File) {
    f.name !in w.tracked && forall i | 0 <= i < |w.log| && w.log[i].session == session :: w.log[i].name < f.name
  }

  ghost predicate PhaseSound(w: World, session: nat, phase: Phase) {
    match phase
    case Opened => forall i | 0 <= i < |w.log| :: w.log[i].session < session
    case Working(queue, _) => Ascending(queue) && forall f {:trigger FileWaits(w, session, f)} | f in queue ::
      FileWaits(w, session, f)
  }

  /** Only the newest session is ever between lock and unlock. */
  ghost predicate Sound(w: World) {
    && LogSound(w)
    && (w.lock.Some? ==> w.lock.value in w.inside)
    && forall session {:trigger w.inside[session]} | session in w.inside ::
         w.lock == Some(session) && session + 1 == w.sessions && PhaseSound(w, session, w.inside[session])
  }

  lemma RecordedKeys(rows: Rows, files: seq<File>)
    ensures forall name: Name :: name in Recorded(rows, files) <==>
            name in rows || exists i :: 0 <= i < |files| && files[i].name == name
  {
    if files != [] {
      RecordedKeys(rows, files[..|files| - 1]);
      assert files == files[..|files| - 1] + [files[|files| - 1]];
    }
  }

  lemma LoggedGrows(log: seq<Entry>, session: nat, files: seq<File>, executed: bool, name: Name)
    ensures Logged(log + Entries(session, files, executed), name) <==>
            Logged(log, name) || exists i :: 0 <= i < |files| && files[i].name == name
  {
    var all := log + Entries(session, files, executed);
    if i :| 0 <= i < |all| && all[i].name == name {
      assert i < |log| ==> log[i].name == name;
      assert |log| <= i ==> files[i - |log|].name == name;
    }
    if i :| 0 <= i < |log| && log[i].name == name {
      assert all[i].name == name;
    }
    if i :| 0 <= i < |files| && files[i].name == name {
      assert all[|log| + i].name == name;
    }
  }

  /** The files come from the session's queue, and what is left comes after them in it. */
  predicate Splits(queue: seq<File>, files: seq<File>, left: seq<File>) {
    && Ascending(files) && Ascending(left)
    && (forall i | 0 <= i < |files| :: files[i] in queue)
    && (forall i | 0 <= i < |left| :: left[i] in queue)
    && (forall i, j | 0 <= i < |files| && 0 <= j < |left| :: files[i].name < left[j].name)
  }

  lemma WritingKeepsLogSound(w: World, session: nat, files: seq<File>, executed: bool, left: seq<File>, baseline: bool)
    requires Sound(w) && session in w.inside && w.inside[session].Working?
    requires Splits(w.inside[session].queue, files, left)
    ensures LogSound(Written(w, session, files, executed, left, baseline))
  {
    var t := Written(w, session, files, executed, left, baseline);
    assert PhaseSound(w, session, w.inside[session]);
    forall i | 0 <= i < |files| ensures FileWaits(w, session, files[i]) {
    }
    forall i, j | 0 <= i < j < |t.log| ensures InOrder(t.log[i], t.log[j]) {
      if j < |w.log| {
        assert InOrder(w.log[i], w.log[j]);
      } else if i < |w.log| {
        assert FileWaits(w, session, files[j - |w.log|]);
        assert Logged(w.log, w.log[i].name);
      }
    }
    forall name: Name ensures name in t.tracked <==> Logged(t.log, name) {
      RecordedKeys(w.tracked, files);
      LoggedGrows(w.log, session, files, executed, name);
    }
  }

  lemma WritingKeepsPhaseSound(w: World, session: nat, files: seq<File>, executed: bool, left: seq<File>,
                               baseline: bool)
    requires Sound(w) && session in w.inside && w.inside[session].Working?
    requires Splits(w.inside[session].queue, files, left)
    ensures PhaseSound(Written(w, session, files, executed, left, baseline), session, Working(left, baseline))
  {
    var t := Written(w, session, files, executed, left, baseline);
    assert PhaseSound(w, session, w.inside[session]);
    forall f | f in left ensures FileWaits(t, session, f) {
      assert FileWaits(w, session, f);
      RecordedKeys(w.tracked, files);
      forall i | 0 <= i < |t.log| && t.log[i].session == session ensures t.log[i].name < f.name {
        assert i < |w.log| ==> t.log[i] == w.log[i];
      }
    }
  }

  lemma WritingKeepsSound(w: World, session: nat, files: seq<File>, executed: bool, left: seq<File>, baseline: bool)
    requires Sound(w) && session in w.inside && w.inside[session].Working?
    requires Splits(w.inside[session].queue, files, left)
    ensures Sound(Written(w, session, files, executed, left, baseline))
  {
    WritingKeepsLogSound(w, session, files, executed, left, baseline);
    WritingKeepsPhaseSound(w, session, files, executed, left, baseline);
  }

  lemma PlanKeepsSound(w: World, session: nat, files: seq<File>, to: Option<Name>, baseline: bool, refused: bool)
    requires Sound(w) && Enabled(w, Plan(session, files, to, baseline, refused))
    ensures Sound(Apply(w, Plan(session, files, to, baseline, refused)))
  {
    PlannedIsPending(files, w.tracked, to, baseline, refused);
    var t := Apply(w, Plan(session, files, to, baseline, refused));
    assert PhaseSound(w, session, w.inside[session]);
    forall f | f in t.inside[session].queue ensures FileWaits(t, session, f) {
    }
  }

  lemma RepairKeepsSound(w: World, name: Name, checksum: nat)
    requires Sound(w) && name in w.tracked
    ensures Sound(Apply(w, Repair(name, checksum)))
  {
    var t := Apply(w, Repair(name, checksum));
    forall session | session in t.inside ensures PhaseSound(t, session, t.inside[session]) {
      assert PhaseSound(w, session, w.inside[session]);
      if t.inside[session].Working? {
        forall f | f in t.inside[session].queue ensures FileWaits(t, session, f) {
          assert FileWaits(w, session, f);
        }
      }
    }
  }

  lemma StepKeepsSound(w: World, e: Event)
    requires Sound(w) && Enabled(w, e)
    ensures Sound(Apply(w, e))
  {
    match e
    case Open =>
    case Plan(session, files, to, baseline, refused) => PlanKeepsSound(w, session, files, to, baseline, refused);
    case Commit(session) =>
      var queue := w.inside[session].queue;
      assert PhaseSound(w, session, w.inside[session]);
      WritingKeepsSound(w, session, queue[..1], true, queue[1..], false);
    case Stamp(session, marked) =>
      assert PhaseSound(w, session, w.inside[session]);
      KeptStaysAscending(w.inside[session].queue, (f: File) => f.name in marked);
      WritingKeepsSound(w, session, Chosen(w, session, marked), false, [], true);
    case Leave(session) =>
    case Repair(name, checksum) => RepairKeepsSound(w, name, checksum);
  }

  /** Steps only ever add rows to the table and to its history. */
  predicate Extends(w: World, t: World) {
    w.log <= t.log && w.tracked.Keys <= t.tracked.Keys
  }

  lemma StepExtends(w: World, e: Event)
    requires Enabled(w, e)
    ensures Extends(w, Apply(w, e))
  {
    match e
    case Commit(session) => RecordedKeys(w.tracked, w.inside[session].queue[..1]);
    case Stamp(session, marked) => RecordedKeys(w.tracked, Chosen(w, session, marked));
    case _ =>
  }

  /** Whatever the interleaving and wherever the failures: everything Sound says holds after any run,
      and nothing committed is ever undone. */
  lemma {:induction false} RunsStaySound(w: World, events: seq<Event>)
    requires Sound(w) && IsRun(w, events)
    ensures Sound(Run(w, events)) && Extends(w, Run(w, events))
    decreases |events|
  {
    if events != [] {
      StepKeepsSound(w, events[0]);
      StepExtends(w, events[0]);
      RunsStaySound(Apply(w, events[0]), events[1..]);
    }
  }

  // ---------------------------------------------------------------- What that means for migrations

  function TimesWritten(log: seq<Entry>, name: Name): nat {
    if log == [] then 0 else TimesWritten(log[..|log| - 1], name) + if log[|log| - 1].name == name then 1 else 0
  }

  lemma {:induction false} WrittenOnceIfLogged(log: seq<Entry>, name: Name)
    requires forall i, j {:trigger log[i], log[j]} | 0 <= i < j < |log| :: log[i].name != log[j].name
    ensures TimesWritten(log, name) == if Logged(log, name) then 1 else 0
  {
    if log != [] {
      var n := |log| - 1;
      WrittenOnceIfLogged(log[..n], name);
      if Logged(log[..n], name) {
        var i :| 0 <= i < n && log[..n][i].name == name;
        assert log[i].name == name;
      }
      if Logged(log, name) && log[n].name != name {
        var i :| 0 <= i < |log| && log[i].name == name;
        assert log[..n][i].name == name;
      }
      if log[n].name == name {
        assert Logged(log, name);
      }
    }
  }

  /** A migration commits, or is marked, at most once over all sessions, and once exactly when its row
      is in the table. */
  lemma CommittedOnceExactlyWhenRecorded(events: seq<Event>, name: Name)
    requires IsRun(START, events)
    ensures var w := Run(START, events); TimesWritten(w.log, name) == if name in w.tracked then 1 else 0
  {
    RunsStaySound(START, events);
    var w := Run(START, events);
    assert forall i, j {:trigger w.log[i], w.log[j]} | 0 <= i < j < |w.log| :: InOrder(w.log[i], w.log[j]);
    WrittenOnceIfLogged(w.log, name);
  }

  /** Each session writes in name order, and sessions do not interleave. */
  lemma SessionsWriteInOrder(events: seq<Event>, i: nat, j: nat)
    requires IsRun(START, events) && i < j < |Run(START, events).log|
    ensures var log := Run(START, events).log;
            log[i].session < log[j].session || (log[i].session == log[j].session && log[i].name < log[j].name)
  {
    RunsStaySound(START, events);
    assert InOrder(Run(START, events).log[i], Run(START, events).log[j]);
  }

  /** Under the lock the tracking insert never meets a row that is already there: a session with work
      left can always commit its next file, or mark any of them. */
  lemma InsertsNeverConflict(events: seq<Event>, session: nat, marked: set<Name>)
    requires IsRun(START, events)
    ensures var w := Run(START, events);
            session in w.inside && w.inside[session].Working? ==>
              if w.inside[session].baseline then Enabled(w, Stamp(session, marked))
              else w.inside[session].queue != [] ==> Enabled(w, Commit(session))
  {
    RunsStaySound(START, events);
    var w := Run(START, events);
    if session in w.inside && w.inside[session].Working? {
      var queue := w.inside[session].queue;
      assert PhaseSound(w, session, w.inside[session]);
      KeptStaysAscending(queue, (f: File) => f.name in marked);
      forall f | f in queue ensures f.name !in w.tracked {
        assert FileWaits(w, session, f);
      }
    }
  }

  /** Two sessions are never between lock and unlock together. */
  lemma OneSessionAtATime(events: seq<Event>, one: nat, other: nat)
    requires IsRun(START, events)
    ensures one in Run(START, events).inside && other in Run(START, events).inside ==> one == other
  {
    RunsStaySound(START, events);
  }
}
