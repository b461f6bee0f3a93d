/** What each migration's file and tracking row say together. Names are only compared here, so a
    number stands for each: its place in the order of texts. */
module MigrationStates {
  import opened Wrappers

  type Name = nat

  datatype File = File(name: Name, checksum: nat)

  /** The tracking table: the checksum recorded for each name. */
  type Rows = map<Name, nat>

  datatype State = Applied | Pending | Drift | Missing

  datatype MigrationState = MigrationState(name: Name, state: State, file: Option<File>)

  predicate Ascending(files: seq<File>) {
    forall i, j | 0 <= i < j < |files| :: files[i].name < files[j].name
  }

  function ByName(files: seq<File>): (m: map<Name, File>)
    ensures forall i | 0 <= i < |files| :: files[i].name in m
    ensures forall name | name in m :: m[name] in files && m[name].name == name
  {
    if files == [] then map[] else ByName(files[..|files| - 1])[files[|files| - 1].name := files[|files| - 1]]
  }

  function StateOf(files: map<Name, File>, rows: Rows, name: Name): MigrationState {
    if name !in files then MigrationState(name, Missing, None)
    else if name !in rows then MigrationState(name, Pending, Some(files[name]))
    else if rows[name] != files[name].checksum then MigrationState(name, Drift, Some(files[name]))
    else MigrationState(name, Applied, Some(files[name]))
  }

  function Named(states: seq<MigrationState>): set<Name> {
    if states == [] then {} else Named(states[..|states| - 1]) + {states[|states| - 1].name}
  }

  lemma {:induction false} NamedAt(states: seq<MigrationState>, name: Name)
    ensures name in Named(states) <==> exists i :: 0 <= i < |states| && states[i].name == name
  {
    if states != [] {
      var n := |states| - 1;
      NamedAt(states[..n], name);
      if i :| 0 <= i < |states| && states[i].name == name {
        assert i < n ==> states[..n][i].name == name;
      }
    }
  }

  /** One state for every file and every row, in name order. */
  ghost predicate StatesFor(files: map<Name, File>, rows: Rows, states: seq<MigrationState>) {
    && (forall i, j | 0 <= i < j < |states| :: states[i].name < states[j].name)
    && (forall i | 0 <= i < |states| :: states[i] == StateOf(files, rows, states[i].name))
    && Named(states) == files.Keys + rows.Keys
  }

  method Least(names: set<Name>) returns (least: Name)
    requires names != {}
    ensures least in names && forall name | name in names :: least <= name
  {
    least :| least in names;
    var todo := names - {least};
    while todo != {}
      invariant todo <= names && least in names
      invariant forall name | name in names && name !in todo :: least <= name
      decreases |todo|
    {
      var name :| name in todo;
      todo := todo - {name};
      if name < least {
        least := name;
      }
    }
  }

  /** The states of the names not left to do. */
  ghost predicate StatesButFor(files: map<Name, File>, rows: Rows, states: seq<MigrationState>, todo: set<Name>) {
    && (forall i, j | 0 <= i < j < |states| :: states[i].name < states[j].name)
    && (forall i | 0 <= i < |states| :: states[i] == StateOf(files, rows, states[i].name))
    && (forall i, name | 0 <= i < |states| && name in todo :: states[i].name < name)
    && Named(states) + todo == files.Keys + rows.Keys
  }

  lemma StateAdded(files: map<Name, File>, rows: Rows, states: seq<MigrationState>, todo: set<Name>, name: Name)
    requires StatesButFor(files, rows, states, todo) && name in todo && forall other | other in todo :: name <= other
    ensures StatesButFor(files, rows, states + [StateOf(files, rows, name)], todo - {name})
  {
    var after := states + [StateOf(files, rows, name)];
    assert after[..|states|] == states;
    assert Named(after) == Named(states) + {name};
    assert Named(states) + todo == Named(after) + (todo - {name});
  }

  method ComputeStates(files: seq<File>, rows: Rows) returns (states: seq<MigrationState>)
    ensures StatesFor(ByName(files), rows, states)
  {
    var byName := ByName(files);
    states := [];
    var todo := byName.Keys + rows.Keys;
    while todo != {}
      invariant StatesButFor(byName, rows, states, todo)
      decreases |todo|
    {
      var name := Least(todo);
      StateAdded(byName, rows, states, todo, name);
      states := states + [StateOf(byName, rows, name)];
      todo := todo - {name};
    }
  }

  lemma NameFindsItsFile(files: seq<File>, f: File)
    requires Ascending(files)
    ensures f in files <==> f.name in ByName(files) && ByName(files)[f.name] == f
  {
    if i :| 0 <= i < |files| && files[i] == f {
      var j :| 0 <= j < |files| && files[j] == ByName(files)[f.name];
    }
  }

  /** What each state says of its name, by its file and its row. */
  lemma StateMeans(files: seq<File>, rows: Rows, states: seq<MigrationState>, i: nat)
    requires Ascending(files) && StatesFor(ByName(files), rows, states) && i < |states|
    ensures var name, file := states[i].name, states[i].file;
            match states[i].state
            case Missing => name in rows && forall f | f in files :: f.name != name
            case Pending => name !in rows && file.Some? && file.value in files && file.value.name == name
            case Applied =>
              && name in rows && file.Some? && file.value in files && file.value.name == name
              && rows[name] == file.value.checksum
            case Drift =>
              && name in rows && file.Some? && file.value in files && file.value.name == name
              && rows[name] != file.value.checksum
  {
    NamedAt(states, states[i].name);
    if f :| f in files && f.name == states[i].name {
      NameFindsItsFile(files, f);
    }
  }

  function PendingFiles(states: seq<MigrationState>): seq<File> {
    if states == [] then []
    else
      var last := states[|states| - 1];
      PendingFiles(states[..|states| - 1]) + if last.state == Pending && last.file.Some? then [last.file.value] else []
  }

  predicate Blocking(states: seq<MigrationState>) {
    exists i :: 0 <= i < |states| && states[i].state in {Drift, Missing}
  }

  /** Nothing blocks exactly when every row has its file, with the checksum recorded. */
  lemma BlockingMeans(files: seq<File>, rows: Rows, states: seq<MigrationState>)
    requires StatesFor(ByName(files), rows, states)
    ensures !Blocking(states) <==>
            forall name | name in rows :: name in ByName(files) && rows[name] == ByName(files)[name].checksum
  {
    var byName := ByName(files);
    if !Blocking(states) {
      forall name | name in rows ensures name in byName && rows[name] == byName[name].checksum {
        NamedAt(states, name);
        var i :| 0 <= i < |states| && states[i].name == name;
      }
    } else {
      var i :| 0 <= i < |states| && states[i].state in {Drift, Missing};
      NamedAt(states, states[i].name);
    }
  }

  lemma {:induction false} PendingFilesAre(files: map<Name, File>, rows: Rows, states: seq<MigrationState>)
    requires forall i, j | 0 <= i < j < |states| :: states[i].name < states[j].name
    requires forall i | 0 <= i < |states| :: states[i] == StateOf(files, rows, states[i].name)
    requires forall name | name in files :: files[name].name == name
    ensures Ascending(PendingFiles(states))
    ensures forall f :: f in PendingFiles(states) <==>
              f.name in Named(states) && f.name in files && files[f.name] == f && f.name !in rows
  {
    if states != [] {
      var rest, last := states[..|states| - 1], states[|states| - 1];
      PendingFilesAre(files, rows, rest);
      var before := PendingFiles(rest);
      forall i | 0 <= i < |before| ensures before[i].name < last.name {
        assert before[i] in before;
        NamedAt(rest, before[i].name);
      }
      NamedAt(rest, last.name);
    }
  }

  /** What is pending is the files without a row, in name order. */
  lemma PendingMeans(files: seq<File>, rows: Rows, states: seq<MigrationState>)
    requires Ascending(files) && StatesFor(ByName(files), rows, states)
    ensures Ascending(PendingFiles(states))
    ensures forall f :: f in PendingFiles(states) <==> f in files && f.name !in rows
  {
    var byName := ByName(files);
    PendingFilesAre(byName, rows, states);
    forall f
      ensures f in files <==> f.name in byName && byName[f.name] == f
    {
      NameFindsItsFile(files, f);
    }
  }
}
