/** The numbers that stand for migration names in the state machine, and the texts they stand for. */
module MigrationNames {
  import opened Wrappers
  import opened MigrationStates
  import opened MigrationRuns
  import Discovery

  /** Each number stands for a well-formed name, in the order of the texts, and no two files share a
      timestamp: what scanning the directory makes sure of. */
  ghost predicate StandFor(text: Name -> string, files: seq<File>, digit: char -> bool) {
    && (forall f | f in files :: Discovery.IsFileName(text(f.name), digit))
    && (forall f, g | f in files && g in files :: f.name < g.name <==> Discovery.Less(text(f.name), text(g.name)))
    && (forall f, g | f in files && g in files && f.name != g.name ::
          Discovery.PrefixOf(text(f.name)) != Discovery.PrefixOf(text(g.name)))
  }

  function Texts(files: seq<File>, text: Name -> string): seq<string> {
    seq(|files|, i requires 0 <= i < |files| => text(files[i].name))
  }

  lemma PrefixSelectsByNumber(files: seq<File>, text: Name -> string, digit: char -> bool, f: File, target: File)
    requires StandFor(text, files, digit) && f in files && target in files
    ensures Discovery.AtMost(Discovery.PrefixOf(text(f.name)), Discovery.PrefixOf(text(target.name)))
            <==> f.name <= target.name
  {
    Discovery.SelectedIffNotPast(text(f.name), text(target.name), digit);
    Discovery.OneOrder(text(f.name), text(target.name));
  }

  lemma OneMoreSelected(queue: seq<File>, last: File, to: Name)
    ensures Selected(queue + [last], Some(to)) == Selected(queue, Some(to)) + if last.name <= to then [last] else []
  {
    assert (queue + [last])[..|queue|] == queue;
  }

  lemma OneMoreThrough(names: seq<string>, last: string, to: string)
    ensures Discovery.Through(names + [last], to)
         == Discovery.Through(names, to) + if Discovery.AtMost(Discovery.PrefixOf(last), to) then [last] else []
  {
    assert (names + [last])[..|names|] == names;
  }

  lemma OneMoreText(files: seq<File>, last: File, text: Name -> string)
    ensures Texts(files + [last], text) == Texts(files, text) + [text(last.name)]
  {
  }

  /** What `--to` selects by its prefix is what the commands select by the number of the file it names:
      the same files, in the same order. */
  lemma {:induction false} SelectedIsThrough(files: seq<File>, queue: seq<File>, target: File, text: Name -> string,
                                             digit: char -> bool)
    requires StandFor(text, files, digit) && target in files && forall f | f in queue :: f in files
    ensures Texts(Selected(queue, Some(target.name)), text)
         == Discovery.Through(Texts(queue, text), Discovery.PrefixOf(text(target.name)))
  {
    if queue != [] {
      var n := |queue| - 1;
      var rest, last := queue[..n], queue[n];
      assert queue == rest + [last];
      SelectedIsThrough(files, rest, target, text, digit);
      PrefixSelectsByNumber(files, text, digit, last, target);
      OneMoreSelected(rest, last, target.name);
      OneMoreText(rest, last, text);
      OneMoreThrough(Texts(rest, text), text(last.name), Discovery.PrefixOf(text(target.name)));
      OneMoreText(Selected(rest, Some(target.name)), last, text);
    }
  }
}
