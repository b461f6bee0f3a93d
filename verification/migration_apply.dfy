/** The apply and repair commands over a database. */
module MigrationApply {
  import opened Wrappers
  import opened MigrationStates
  import opened MigrationRuns

  lemma SomeFile(files: seq<File>) returns (f: File)
    requires files != []
    ensures f in files
  {
    f := files[0];
  }

  /** Two lists in name order with the same files are the same list. */
  lemma {:induction false} AscendingIsUnique(a: seq<File>, b: seq<File>)
    requires Ascending(a) && Ascending(b) && forall f :: f in a <==> f in b
    ensures a == b
  {
    if a == [] || b == [] {
      if a != b {
        var f := SomeFile(if a == [] then b else a);
        assert false;
      }
    } else {
      var m, n := |a| - 1, |b| - 1;
      assert a[m] in b && b[n] in a;
      assert a[m] == b[n] by {
        var i :| 0 <= i <= n && b[i] == a[m];
        var j :| 0 <= j <= m && a[j] == b[n];
      }
      assert a == a[..m] + [a[m]] && b == b[..n] + [b[n]];
      forall f ensures f in a[..m] <==> f in b[..n] {
        if f in a[..m] {
          assert f != a[m] && f in a;
        }
        if f in b[..n] {
          assert f != b[n] && f in b;
        }
      }
      AscendingIsUnique(a[..m], b[..n]);
    }
  }

  /** The states' pending files are the files without a row. */
  lemma PendingFilesArePendingOf(files: seq<File>, rows: Rows, states: seq<MigrationState>)
    requires Ascending(files) && StatesFor(ByName(files), rows, states)
    ensures PendingFiles(states) == PendingOf(files, rows)
  {
    PendingMeans(files, rows, states);
    KeptStaysAscending(files, (f: File) => f.name !in rows);
    AscendingIsUnique(PendingFiles(states), PendingOf(files, rows));
  }

  lemma {:induction false} RunAppends(w: World, events: seq<Event>, e: Event)
    requires IsRun(w, events) && Enabled(Run(w, events), e)
    ensures IsRun(w, events + [e]) && Run(w, events + [e]) == Apply(Run(w, events), e)
    decreases |events|
  {
    if events == [] {
      assert IsRun(Apply(w, e), []);
      assert [e][1..] == [];
    } else {
      RunAppends(Apply(w, events[0]), events[1..], e);
      assert (events + [e])[1..] == events[1..] + [e];
    }
  }

  /** What the command does to a file before it runs anything: refuse it, or find that it fails. */
  datatype Files = Files(refuses: File -> bool, fails: File -> bool)

  predicate CanApply(files: seq<File>, rows: Rows, to: Option<Name>) {
    !Blocked(files, rows) && (to.Some? ==> to.value in ByName(files))
  }

  predicate Smooth(queue: seq<File>, sql: Files, dry: bool) {
    forall f | f in queue :: !sql.refuses(f) && (dry || !sql.fails(f))
  }

  /** What committing the next file does. */
  lemma NextCommit(w: World, session: nat)
    requires Sound(w) && session in w.inside && w.inside[session].Working? && !w.inside[session].baseline
    requires w.inside[session].queue != []
    ensures Enabled(w, Commit(session))
    ensures var f, t := w.inside[session].queue[0], Apply(w, Commit(session));
            && t.tracked == w.tracked[f.name := f.checksum]
            && t.log == w.log + [Entry(session, f.name, true)]
            && t.inside == w.inside[session := Working(w.inside[session].queue[1..], false)]
            && t.lock == w.lock
  {
    var queue := w.inside[session].queue;
    assert PhaseSound(w, session, w.inside[session]);
    assert FileWaits(w, session, queue[0]);
    assert queue[..1] == [queue[0]];
    assert queue[..1][..0] == [] && Recorded(w.tracked, []) == w.tracked;
    assert Entries(session, queue[..1], true) == [Entry(session, queue[0].name, true)];
  }

  lemma {:induction false} RecordedIs(rows: Rows, files: seq<File>, i: nat)
    requires Ascending(files) && i < |files|
    ensures files[i].name in Recorded(rows, files) && Recorded(rows, files)[files[i].name] == files[i].checksum
  {
    var n := |files| - 1;
    if i < n {
      RecordedIs(rows, files[..n], i);
      assert files[..n][i] == files[i] && files[i].name < files[n].name;
    }
  }

  lemma {:induction false} OthersAsBefore(rows: Rows, files: seq<File>, name: Name)
    requires forall i | 0 <= i < |files| :: files[i].name != name
    ensures name in Recorded(rows, files) <==> name in rows
    ensures name in rows ==> Recorded(rows, files)[name] == rows[name]
  {
    if files != [] {
      OthersAsBefore(rows, files[..|files| - 1], name);
    }
  }

  lemma RecordedAt(rows: Rows, files: seq<File>, name: Name)
    requires Ascending(files)
    ensures (forall f | f in files :: f.name != name) ==>
              (name in Recorded(rows, files) <==> name in rows)
              && (name in rows ==> Recorded(rows, files)[name] == rows[name])
    ensures forall f | f in files && f.name == name ::
              name in Recorded(rows, files) && Recorded(rows, files)[name] == f.checksum
  {
    if forall f | f in files :: f.name != name {
      OthersAsBefore(rows, files, name);
    }
    forall f | f in files && f.name == name
      ensures name in Recorded(rows, files) && Recorded(rows, files)[name] == f.checksum
    {
      var i :| 0 <= i < |files| && files[i] == f;
      RecordedIs(rows, files, i);
    }
  }

  /** By names: no row is lost or rewritten; a row that is new is that of a file up to the target, with
      its checksum; and no file is skipped that comes before one that was applied. */
  ghost predicate RowsOnlyAdded(files: seq<File>, before: Rows, to: Option<Name>, applied: seq<File>, after: Rows) {
    && (forall name | name in before :: name in after && after[name] == before[name])
    && (forall name | name in after && name !in before ::
          exists f :: f in files && f in applied && f.name == name && after[name] == f.checksum
            && (to.Some? ==> name <= to.value))
    && (forall f, g | f in files && g in applied && f.name < g.name :: f.name in after)
  }

  /** The target is a file, and it and every file before it are in the table. */
  ghost predicate CaughtUp(files: seq<File>, to: Option<Name>, after: Rows) {
    && (to.Some? ==> exists f :: f in files && f.name == to.value && f.name in after)
    && forall f | f in files && (to.Some? ==> f.name <= to.value) :: f.name in after
  }

  lemma FirstPartIsInQueue(queue: seq<File>, applied: seq<File>)
    requires Ascending(queue) && applied <= queue
    ensures Ascending(applied) && forall f | f in applied :: f in queue
    ensures forall f, g | f in queue && g in applied && f.name < g.name :: f in applied
  {
    forall i, j | 0 <= i < j < |applied|
      ensures applied[i].name < applied[j].name
    {
      assert applied[i] == queue[i] && applied[j] == queue[j];
    }
    forall f | f in applied
      ensures f in queue
    {
      var i :| 0 <= i < |applied| && applied[i] == f;
      assert queue[i] == f;
    }
    forall f, g | f in queue && g in applied && f.name < g.name
      ensures f in applied
    {
      var j :| 0 <= j < |applied| && applied[j] == g;
      var i :| 0 <= i < |queue| && queue[i] == f;
      assert queue[j] == g && i < j && applied[i] == f;
    }
  }

  lemma RecordingOnlyAdds(files: seq<File>, rows: Rows, to: Option<Name>, applied: seq<File>)
    requires Ascending(files) && applied <= Selected(PendingOf(files, rows), to)
    ensures RowsOnlyAdded(files, rows, to, applied, Recorded(rows, applied))
  {
    SelectedMeans(files, rows, to);
    FirstPartIsInQueue(Selected(PendingOf(files, rows), to), applied);
    var after := Recorded(rows, applied);
    forall name | name in rows
      ensures name in after && after[name] == rows[name]
    {
      RecordedAt(rows, applied, name);
    }
    forall name | name in after && name !in rows
      ensures exists f :: f in files && f in applied && f.name == name && after[name] == f.checksum
                && (to.Some? ==> name <= to.value)
    {
      RecordedAt(rows, applied, name);
    }
    forall f, g | f in files && g in applied && f.name < g.name
      ensures f.name in after
    {
      RecordedAt(rows, applied, f.name);
    }
  }

  lemma RecordingAllCatchesUp(files: seq<File>, rows: Rows, to: Option<Name>)
    requires Ascending(files) && (to.Some? ==> to.value in ByName(files))
    ensures CaughtUp(files, to, Recorded(rows, Selected(PendingOf(files, rows), to)))
  {
    SelectedMeans(files, rows, to);
    var queue := Selected(PendingOf(files, rows), to);
    forall f | f in files && (to.Some? ==> f.name <= to.value)
      ensures f.name in Recorded(rows, queue)
    {
      RecordedAt(rows, queue, f.name);
    }
  }

  class Database {
    var tracked: Rows
    /** The history this database is part of. */
    ghost var world: World

    ghost predicate Valid()
      reads this
    {
      Sound(world) && world.tracked == tracked
    }

    /** The history takes the step that the table has just taken. */
    ghost method Take(start: World, trail: seq<Event>, e: Event) returns (longer: seq<Event>)
      requires Sound(world) && IsRun(start, trail) && Run(start, trail) == world && Enabled(world, e)
      requires Apply(world, e).tracked == tracked
      modifies this`world
      ensures Valid() && world == Apply(old(world), e)
      ensures IsRun(start, longer) && Run(start, longer) == world
    {
      RunAppends(start, trail, e);
      StepKeepsSound(world, e);
      longer := trail + [e];
      world := Apply(world, e);
    }

    /** One file and its row, in one transaction. */
    method ApplyFile(f: File, ghost session: nat, ghost start: World, ghost before: seq<Event>)
      returns (ghost trail: seq<Event>)
      requires Valid() && IsRun(start, before) && Run(start, before) == world && session in world.inside
      requires world.inside[session].Working? && !world.inside[session].baseline
      requires world.inside[session].queue != [] && world.inside[session].queue[0] == f
      modifies this
      ensures Valid() && IsRun(start, trail) && Run(start, trail) == world && world.lock == old(world).lock
      ensures tracked == old(tracked)[f.name := f.checksum]
      ensures world.log == old(world).log + [Entry(session, f.name, true)]
      ensures world.inside
           == old(world).inside[session := Working(old(world).inside[session].queue[1..], false)]
    {
      NextCommit(world, session);
      tracked := tracked[f.name := f.checksum];
      trail := Take(start, before, Commit(session));
    }

    /** The files in turn, each with its row in one transaction, up to the first that fails. */
    method ApplyQueue(queue: seq<File>, sql: Files, ghost session: nat, ghost start: World, ghost before: seq<Event>)
      returns (applied: seq<File>, ghost trail: seq<Event>)
      requires Valid() && IsRun(start, before) && Run(start, before) == world && world.lock == Some(session)
      requires session in world.inside && world.inside[session] == Working(queue, false)
      modifies this
      ensures Valid() && IsRun(start, trail) && Run(start, trail) == world
      ensures world.lock == Some(session) && session in world.inside
      ensures tracked == Recorded(old(tracked), applied)
      ensures world.log == old(world).log + Entries(session, applied, true)
      ensures applied <= queue && forall f | f in applied :: !sql.fails(f)
      ensures |applied| < |queue| ==> sql.fails(queue[|applied|])
      ensures |applied| == |queue| <==> forall f | f in queue :: !sql.fails(f)
    {
      applied, trail := [], before;
      var i := 0;
      while i < |queue|
        invariant 0 <= i <= |queue| && applied == queue[..i]
        invariant Valid() && IsRun(start, trail) && Run(start, trail) == world && world.lock == Some(session)
        invariant session in world.inside && world.inside[session] == Working(queue[i..], false)
        invariant tracked == Recorded(old(tracked), applied)
        invariant world.log == old(world).log + Entries(session, applied, true)
        invariant forall f | f in applied :: !sql.fails(f)
      {
        if sql.fails(queue[i]) {
          return;
        }
        trail := ApplyFile(queue[i], session, start, trail);
        applied := applied + [queue[i]];
        i := i + 1;
      }
    }

    /** Loads the states: what may be applied, and whether anything may. */
    method Survey(files: seq<File>, to: Option<Name>) returns (can: bool, queue: seq<File>)
      requires Ascending(files)
      ensures can == CanApply(files, tracked, to) && queue == Selected(PendingOf(files, tracked), to)
    {
      var states := ComputeStates(files, tracked);
      PendingFilesArePendingOf(files, tracked, states);
      BlockingMeans(files, tracked, states);
      queue := Selected(PendingFiles(states), to);
      can := !Blocking(states) && (to.Some? ==> to.value in ByName(files));
    }

    /** Takes the lock and sets out on the queue. */
    ghost method Enter(files: seq<File>, to: Option<Name>, refused: bool, can: bool, queue: seq<File>)
      returns (trail: seq<Event>)
      requires Valid() && world.lock.None? && Ascending(files)
      requires can == CanApply(files, tracked, to) && queue == Selected(PendingOf(files, tracked), to)
               && (!can ==> refused)
      modifies this`world
      ensures Valid() && IsRun(old(world), trail) && world == Run(old(world), trail)
      ensures world.log == old(world).log && world.lock == Some(old(world).sessions) && world.lock.value in world.inside
      ensures world.inside[world.lock.value] == Working(if refused then [] else queue, false)
    {
      var start, session := world, world.sessions;
      trail := Take(start, [], Open);
      trail := Take(start, trail, Plan(session, files, to, false, refused));
    }

    /** One turn on the lock. The files applied are a first part of the pending ones up to the target,
        in name order, and the table gains exactly their rows; what the turn does is a run of steps.
        It succeeds exactly when nothing is blocked, the target exists and every file goes through. */
    method CmdApply(files: seq<File>, to: Option<Name>, dry: bool, sql: Files)
      returns (code: nat, applied: seq<File>, ghost trail: seq<Event>)
      requires Valid() && world.lock.None? && Ascending(files)
      modifies this
      ensures Valid() && world.lock.None?
      ensures IsRun(old(world), trail) && world == Run(old(world), trail)
      ensures tracked == Recorded(old(tracked), applied)
      ensures world.log == old(world).log + Entries(old(world).sessions, applied, true)
      ensures code in {0, 1}
      ensures var queue := Selected(PendingOf(files, old(tracked)), to);
              && (code == 0 <==> CanApply(files, old(tracked), to) && Smooth(queue, sql, dry))
              && applied <= queue
              && (dry || !CanApply(files, old(tracked), to) ==> applied == [])
              && (code == 0 && !dry ==> applied == queue)
              && (applied != [] && |applied| < |queue| ==> sql.fails(queue[|applied|]))
      ensures RowsOnlyAdded(files, old(tracked), to, applied, tracked)
      ensures code == 0 && !dry ==> CaughtUp(files, to, tracked)
    {
      ghost var start, session := world, world.sessions;
      var can, queue := Survey(files, to);
      var refused := !can || exists f :: f in queue && sql.refuses(f);
      code, applied := 1, [];
      trail := Enter(files, to, refused, can, queue);
      if refused {
      } else if dry {
        code := 0;
      } else {
        applied, trail := ApplyQueue(queue, sql, session, start, trail);
        if |applied| == |queue| {
          code := 0;
        }
      }
      assert code == 0 <==> CanApply(files, old(tracked), to) && Smooth(queue, sql, dry);
      RecordingOnlyAdds(files, old(tracked), to, applied);
      if code == 0 && !dry {
        RecordingAllCatchesUp(files, old(tracked), to);
      }
      trail := Take(start, trail, Leave(session));
    }

    /** Re-stamps the checksum of a row that is there; takes no lock, and adds no row. */
    method CmdRepair(name: Name, checksum: nat) returns (repaired: bool)
      requires Valid()
      modifies this
      ensures Valid() && repaired == (name in old(tracked))
      ensures tracked == if repaired then old(tracked)[name := checksum] else old(tracked)
      ensures world.log == old(world).log && world.lock == old(world).lock
    {
      repaired := name in tracked;
      if repaired {
        tracked := tracked[name := checksum];
        ghost var _ := Take(world, [], Repair(name, checksum));
      }
    }

    /** Marks files as applied without running them: all of the chosen rows in one transaction, or
        none. Nothing is written when an answer is to quit. */
    method CmdBaseline(files: seq<File>, to: Option<Name>, assumeYes: bool, answers: nat -> Answer, writeFails: bool)
      returns (code: nat, chosen: seq<File>, ghost trail: seq<Event>, ghost offered: seq<File>)
      requires Valid() && world.lock.None? && Ascending(files)
      modifies this
      ensures Valid() && world.lock.None?
      ensures IsRun(old(world), trail) && world == Run(old(world), trail)
      ensures tracked == Recorded(old(tracked), chosen)
      ensures world.log == old(world).log + Entries(old(world).sessions, chosen, false)
      ensures code in {0, 1} && (code == 1 ==> chosen == [])
      ensures offered == Selected(PendingOf(files, old(tracked)), to) && Ascending(offered)
      ensures forall f :: f in offered <==> f in files && f.name !in old(tracked) && (to.Some? ==> f.name <= to.value)
      ensures code == 0 ==> ChosenBy(offered, answers, assumeYes, |offered|, chosen)
      ensures code == 0 <==> BaselineGoes(files, to, offered, answers, assumeYes, writeFails)
    {
      ghost var start, session := world, world.sessions;
      var known, queue := Candidates(files, to);
      code, chosen, offered := 1, [], queue;
      SelectedMeans(files, tracked, to);
      trail := EnterBaseline(files, to, known, queue);
      if known && queue != [] {
        var quit, marked := Choose(queue, answers, assumeYes);
        if !quit && !writeFails {
          code, chosen := 0, marked;
          trail := WriteChosen(queue, chosen, session, start, trail);
        }
      } else if known {
        code := 0;
      }
      trail := Take(start, trail, Leave(session));
    }

    method WriteChosen(queue: seq<File>, chosen: seq<File>, ghost session: nat, ghost start: World,
                       ghost before: seq<Event>)
      returns (ghost trail: seq<Event>)
      requires Valid() && IsRun(start, before) && Run(start, before) == world && world.lock == Some(session)
      requires session in world.inside && world.inside[session] == Working(queue, true)
      requires Ascending(queue) && Ascending(chosen) && forall f | f in chosen :: f in queue
      modifies this
      ensures Valid() && IsRun(start, trail) && Run(start, trail) == world
      ensures world.lock == Some(session) && session in world.inside
      ensures tracked == Recorded(old(tracked), chosen)
      ensures world.log == old(world).log + Entries(session, chosen, false)
    {
      ghost var names := set f | f in chosen :: f.name;
      MarkedAreChosen(queue, chosen, names);
      StampDoes(world, session, names, chosen);
      tracked := Recorded(tracked, chosen);
      trail := Take(start, before, Stamp(session, names));
    }

    method Candidates(files: seq<File>, to: Option<Name>) returns (known: bool, queue: seq<File>)
      requires Ascending(files)
      ensures known == (to.Some? ==> to.value in ByName(files)) && queue == Selected(PendingOf(files, tracked), to)
      ensures Ascending(queue)
    {
      var states := ComputeStates(files, tracked);
      PendingFilesArePendingOf(files, tracked, states);
      queue := Selected(PendingFiles(states), to);
      known := to.Some? ==> to.value in ByName(files);
      SelectedMeans(files, tracked, to);
    }

    ghost method EnterBaseline(files: seq<File>, to: Option<Name>, known: bool, queue: seq<File>)
      returns (trail: seq<Event>)
      requires Valid() && world.lock.None? && Ascending(files)
      requires known == (to.Some? ==> to.value in ByName(files)) && queue == Selected(PendingOf(files, tracked), to)
      modifies this`world
      ensures Valid() && IsRun(old(world), trail) && world == Run(old(world), trail)
      ensures world.log == old(world).log && world.lock == Some(old(world).sessions) && world.lock.value in world.inside
      ensures world.inside[world.lock.value] == Working(if known then queue else [], true)
    {
      var start, session := world, world.sessions;
      trail := Take(start, [], Open);
      trail := Take(start, trail, Plan(session, files, to, true, false));
    }
  }

  /** What the operator may answer for a file. */
  datatype Answer = Yes | No | All | Quit

  /** Someone said "all" before the i-th file. */
  predicate AllBefore(answers: nat -> Answer, i: nat) {
    exists j | 0 <= j < i :: answers(j) == All
  }

  predicate Marks(answers: nat -> Answer, assumeYes: bool, i: nat) {
    assumeYes || answers(i) == Yes || AllBefore(answers, i + 1)
  }

  predicate Quits(answers: nat -> Answer, assumeYes: bool, i: nat) {
    !assumeYes && answers(i) == Quit && !AllBefore(answers, i)
  }

  predicate BaselineGoes(files: seq<File>, to: Option<Name>, queue: seq<File>, answers: nat -> Answer, assumeYes: bool,
                         writeFails: bool) {
    && (to.Some? ==> to.value in ByName(files))
    && (queue != [] ==> !writeFails && forall i: nat | i < |queue| :: !Quits(answers, assumeYes, i))
  }

  /** Of the first n files, exactly the marked ones, in order. */
  ghost predicate ChosenBy(queue: seq<File>, answers: nat -> Answer, assumeYes: bool, n: nat, chosen: seq<File>) {
    && n <= |queue| && Ascending(chosen)
    && forall f :: f in chosen <==> exists i: nat :: i < n && queue[i] == f && Marks(answers, assumeYes, i)
  }

  lemma OneMoreAnswer(queue: seq<File>, answers: nat -> Answer, assumeYes: bool, n: nat, chosen: seq<File>)
    requires Ascending(queue) && ChosenBy(queue, answers, assumeYes, n, chosen) && n < |queue|
    ensures Marks(answers, assumeYes, n) ==> ChosenBy(queue, answers, assumeYes, n + 1, chosen + [queue[n]])
    ensures !Marks(answers, assumeYes, n) ==> ChosenBy(queue, answers, assumeYes, n + 1, chosen)
  {
    forall i | 0 <= i < |chosen| ensures chosen[i].name < queue[n].name {
      assert chosen[i] in chosen;
    }
  }

  /** A file is chosen by its own answer, by an "all" to it or to one before it, or without asking. */
  lemma ChosenMeans(queue: seq<File>, answers: nat -> Answer, assumeYes: bool, chosen: seq<File>, i: nat)
    requires Ascending(queue) && ChosenBy(queue, answers, assumeYes, |queue|, chosen) && i < |queue|
    ensures queue[i] in chosen <==>
            assumeYes || answers(i) == Yes || exists j | 0 <= j <= i :: answers(j) == All
  {
    assert Marks(answers, assumeYes, i) <==>
        assumeYes || answers(i) == Yes || exists j | 0 <= j <= i :: answers(j) == All;
  }

  /** Whether baseline writes: the target exists, nobody is asked or nobody quits before saying "all",
      and the write goes through. */
  lemma BaselineGoesMeans(files: seq<File>, to: Option<Name>, queue: seq<File>, answers: nat -> Answer, assumeYes: bool,
                          writeFails: bool)
    requires Ascending(files)
    ensures BaselineGoes(files, to, queue, answers, assumeYes, writeFails) <==>
            && (to.Some? ==> exists f :: f in files && f.name == to.value)
            && (queue == [] ||
                (!writeFails && (assumeYes || forall i | 0 <= i < |queue| && answers(i) == Quit ::
                                   exists j | 0 <= j < i :: answers(j) == All)))
  {
    if to.Some? {
      if f :| f in files && f.name == to.value {
        NameFindsItsFile(files, f);
      }
    }
    forall i | 0 <= i < |queue|
      ensures Quits(answers, assumeYes, i) <==>
              !assumeYes && answers(i) == Quit && !exists j | 0 <= j < i :: answers(j) == All
    {
    }
  }

  method Choose(queue: seq<File>, answers: nat -> Answer, assumeYes: bool) returns (quit: bool, chosen: seq<File>)
    requires Ascending(queue)
    ensures quit <==> exists i: nat :: i < |queue| && Quits(answers, assumeYes, i)
    ensures !quit ==> ChosenBy(queue, answers, assumeYes, |queue|, chosen)
  {
    quit, chosen := false, [];
    var stampRest := assumeYes;
    var i: nat := 0;
    while i < |queue|
      invariant i <= |queue| && ChosenBy(queue, answers, assumeYes, i, chosen)
      invariant stampRest <==> assumeYes || AllBefore(answers, i)
      invariant forall j: nat | j < i :: !Quits(answers, assumeYes, j)
    {
      OneMoreAnswer(queue, answers, assumeYes, i, chosen);
      if stampRest {
        chosen := chosen + [queue[i]];
      } else {
        match answers(i) {
          case Quit =>
            assert Quits(answers, assumeYes, i);
            return true, chosen;
          case All => stampRest, chosen := true, chosen + [queue[i]];
          case Yes => chosen := chosen + [queue[i]];
          case No =>
        }
      }
      i := i + 1;
    }
  }

  /** Naming the chosen files picks exactly them out of the queue. */
  lemma MarkedAreChosen(queue: seq<File>, chosen: seq<File>, names: set<Name>)
    requires Ascending(queue) && Ascending(chosen) && forall f | f in chosen :: f in queue
    requires names == set f | f in chosen :: f.name
    ensures Filter(queue, (f: File) => f.name in names) == chosen
  {
    KeptStaysAscending(queue, (f: File) => f.name in names);
    forall f | f in queue && f.name in names ensures f in chosen {
      var g :| g in chosen && g.name == f.name;
      var i :| 0 <= i < |queue| && queue[i] == f;
      var j :| 0 <= j < |queue| && queue[j] == g;
      assert i == j;
    }
    AscendingIsUnique(Filter(queue, (f: File) => f.name in names), chosen);
  }

  lemma StampDoes(w: World, session: nat, names: set<Name>, chosen: seq<File>)
    requires Sound(w) && session in w.inside && w.inside[session].Working? && w.inside[session].baseline
    requires Filter(w.inside[session].queue, (f: File) => f.name in names) == chosen
    ensures Enabled(w, Stamp(session, names))
    ensures Apply(w, Stamp(session, names)) == Written(w, session, chosen, false, [], true)
  {
    assert PhaseSound(w, session, w.inside[session]);
    KeptStaysAscending(w.inside[session].queue, (f: File) => f.name in names);
    forall i | 0 <= i < |chosen| ensures chosen[i].name !in w.tracked {
      assert FileWaits(w, session, chosen[i]);
    }
  }
}
