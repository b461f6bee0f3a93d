/** Key rotation: the rewriting loop with the rule "everything sealed goes under the current key". */
module Rotate {
  import opened Wrappers
  import opened FieldCrypto
  import opened RewriteColumn

  /** A column value; None is NULL. */
  type Value = Option<string>

  predicate CurrentNamed(c: Crypto) {
    c.current != "" && IsKeyId(c.current)
  }

  function Judge(c: Crypto, value: Value): Verdict {
    if value.None? || value.value == "" then Leave
    else match KeyIdOf(value)
      case Bad => Stop
      case Unlabelled => LeavePlain
      case Under(keyId) => if keyId == c.current then Leave else Renew
  }

  /** The text a sealed value opens to. */
  function Opens(c: Crypto, value: Value): Option<string> {
    if value.None? || !Split(value.value).Sealed? then None
    else match Decrypt(c, value.value) case Text(p) => Some(p) case Refused => None
  }

  predicate SameText(c: Crypto, value: Value, other: Value) {
    value == other || (Opens(c, value).Some? && Opens(c, value) == Opens(c, other))
  }

  predicate Renewable(c: Crypto, value: Value) {
    Opens(c, value).Some? && Usable(c, c.current)
  }

  function Renewed(c: Crypto, value: Value, nonce: nat): Value {
    if Renewable(c, value) then Encrypt(c, c.current, nonce, Opens(c, value).value) else value
  }

  function RuleFor(c: Crypto): Rule<Value> {
    Rule(v => Judge(c, v), v => Renewable(c, v), (v, n) => Renewed(c, v, n), (v, w) => SameText(c, v, w))
  }

  /** A renewed value is under the current key and opens to the same text. */
  lemma RenewedIsCurrent(c: Crypto, value: Value, nonce: nat)
    requires FieldCrypto.Lawful(c) && Renewable(c, value)
    ensures var renewed := Renewed(c, value, nonce);
            KeyIdOf(renewed) == Under(c.current) && Opens(c, renewed) == Opens(c, value)
  {
    DecryptUndoesEncrypt(c, c.current, nonce, Opens(c, value).value);
    assert Stored(c.current, c.seal(c.current, nonce, Opens(c, value).value)) != "";
  }

  lemma RuleIsLawful(c: Crypto)
    requires FieldCrypto.Lawful(c)
    ensures RewriteColumn.Lawful(RuleFor(c))
  {
    var rule := RuleFor(c);
    forall v: Value, n: nat | rule.judge(v) == Renew && rule.renewable(v)
      ensures rule.judge(rule.renewed(v, n)) == Leave && forall w: Value :: rule.same(v, w) ==>
              rule.same(rule.renewed(v, n), w)
    {
      RenewedIsCurrent(c, v, n);
    }
  }

  predicate Stale(c: Crypto, value: Value) {
    KeyIdOf(value).Under? && KeyIdOf(value).keyId != c.current
  }

  /** Every stale value now opens to the same text under the current key; no other value changed. */
  ghost predicate OnlyTheKeyMoved(c: Crypto, ids: seq<int>, before: Rows<Value>, after: Rows<Value>, dry: bool) {
    forall i {:trigger ids[i]} | 0 <= i < |ids| ::
        ids[i] in before && ids[i] in after && KeyMovedAt(c, before[ids[i]], after[ids[i]], dry)
  }

  predicate KeyMovedAt(c: Crypto, before: Value, after: Value, dry: bool) {
    if Stale(c, before) && !dry then KeyIdOf(after) == Under(c.current) && SameText(c, after, before)
      else after == before
  }

  /** What stops a run: a value that claims the format and is malformed, or one that has to move and
      cannot be opened, or cannot be sealed for want of the current key. */
  predicate Blocks(c: Crypto, value: Value, dry: bool) {
    KeyIdOf(value) == Bad || (Stale(c, value) && !dry && !(Opens(c, value).Some? && Usable(c, c.current)))
  }

  ghost predicate SomeBlocks(c: Crypto, ids: seq<int>, rows: Rows<Value>, dry: bool) {
    exists i {:trigger ids[i]} | 0 <= i < |ids| :: ids[i] in rows && Blocks(c, rows[ids[i]], dry)
  }

  /** After a run with no other writer there is nothing to block a second one and nothing for it to
      do: no value is stale, and the rows stay as they are. */
  lemma SecondRunChangesNothing(c: Crypto, ids: seq<int>, first: Rows<Value>, second: Rows<Value>, third: Rows<Value>,
                                dry: bool)
    requires OnlyTheKeyMoved(c, ids, first, second, false) && !SomeBlocks(c, ids, first, false)
    requires OnlyTheKeyMoved(c, ids, second, third, dry)
    ensures !SomeBlocks(c, ids, second, dry)
    ensures forall i | 0 <= i < |ids| :: !Stale(c, second[ids[i]]) && third[ids[i]] == second[ids[i]]
  {
    forall i | 0 <= i < |ids|
      ensures !Blocks(c, second[ids[i]], dry) && !Stale(c, second[ids[i]]) && third[ids[i]] == second[ids[i]]
    {
      assert KeyMovedAt(c, first[ids[i]], second[ids[i]], false) && KeyMovedAt(c, second[ids[i]], third[ids[i]], dry);
      assert !Blocks(c, first[ids[i]], false);
    }
  }

  /** A value that is there and does not claim the format. */
  predicate IsPlaintext(value: Value) {
    value.Some? && value.value != "" && !StartsWith(value.value, "pa1:")
  }

  function PlaintextOnes(visited: seq<(int, Value)>): seq<(int, Value)> {
    Filter(visited, (read: (int, Value)) => IsPlaintext(read.1))
  }

  function StaleOnes(c: Crypto, visited: seq<(int, Value)>): seq<(int, Value)> {
    Filter(visited, (read: (int, Value)) => Stale(c, read.1))
  }

  lemma JudgeMeans(c: Crypto, value: Value)
    ensures Judge(c, value) == LeavePlain <==> IsPlaintext(value)
    ensures Judge(c, value) == Renew <==> Stale(c, value)
    ensures Judge(c, value) == Stop <==> KeyIdOf(value) == Bad
  {
    KeyIdOfMeans(value, "");
  }

  /** The figures: all rows read, the plaintext among them, and of the stale ones those rewritten and those
      that somebody else had changed in the meantime. */
  lemma {:induction false} TalliesMean(c: Crypto, visited: seq<(int, Value)>)
    ensures CountOf(RuleFor(c), visited, LeavePlain) == |PlaintextOnes(visited)|
    ensures CountOf(RuleFor(c), visited, Renew) == |StaleOnes(c, visited)|
  {
    if visited != [] {
      TalliesMean(c, visited[..|visited| - 1]);
      JudgeMeans(c, visited[|visited| - 1].1);
    }
  }

  /** What the rule cannot pass is what blocks a run. */
  lemma BlocksMeansImpassable(c: Crypto, ids: seq<int>, rows: Rows<Value>, dry: bool)
    requires CurrentNamed(c)
    ensures SomeBlocks(c, ids, rows, dry) <==> SomeImpassable(RuleFor(c), ids, rows, dry)
  {
    forall value
      ensures Blocks(c, value, dry) <==> !Passable(RuleFor(c), value, dry)
    {
    }
  }

  lemma ReadingMovesTheKey(c: Crypto, env: Env<Value>, ids: seq<int>, was: Rows<Value>, rows: Rows<Value>, dry: bool,
                           counts: Counts, visited: seq<(int, Value)>)
    requires FieldCrypto.Lawful(c) && Reading(RuleFor(c), env, ids, was, rows, dry, counts, visited)
    requires |visited| == |ids| && Quiet(env)
    ensures counts.changed == 0 && OnlyTheKeyMoved(c, ids, was, rows, dry)
  {
  }

  /** The command. Exit code 2 for a bad batch size, 1 for a run that stopped, 0 for a finished one. */
  method CmdRotate(column: Column<Value>, c: Crypto, env: Env<Value>, batch: int, dry: bool)
    returns (code: nat, counts: Counts, ghost visited: seq<(int, Value)>, ghost statements: nat, ghost wrote: seq<int>)
    requires FieldCrypto.Lawful(c) && column.Valid(RuleFor(c))
    modifies column`rows, column`applied
    ensures column.Valid(RuleFor(c))
    ensures forall id | id in column.rows :: SameText(c, column.rows[id], column.applied[id])
    ensures column.applied == Alone(old(column.applied), env, 0, statements)
    ensures dry ==> column.rows == Alone(old(column.rows), env, 0, statements)
    ensures code == 2 <==> batch < 1
    ensures code == 0 ==> |visited| == |column.ids| && forall i | 0 <= i < |visited| :: visited[i].0 == column.ids[i]
    ensures code == 0 ==> counts.seen == |visited| && counts.plaintext == |PlaintextOnes(visited)|
                          && counts.rotated + counts.changed == |StaleOnes(c, visited)|
    ensures LeftToOthers(old(column.rows), column.rows, env, 0, statements, wrote)
    ensures RewriteColumn.Ascending(wrote) && if dry then wrote == [] else counts.rotated == |wrote|
    ensures code == 0 && Quiet(env) ==>
              counts.changed == 0 && OnlyTheKeyMoved(c, column.ids, old(column.rows), column.rows, dry)
    ensures Quiet(env) && NeverFails(env) && 1 <= batch ==>
              (code == 0 <==> CurrentNamed(c) && !SomeBlocks(c, column.ids, old(column.rows), dry))
  {
    assert column.Valid(RuleFor(c));
    code, counts, visited, statements, wrote := 1, Counts(0, 0, 0, 0), [], 0, [];
    WroteNothing(column.ids, column.rows, column.rows, env, 0, 0, 0, dry);
    if batch < 1 {
      code := 2;
      return;
    }
    if !CurrentNamed(c) {
      return;
    }
    ghost var was := column.rows;
    RuleIsLawful(c);
    BlocksMeansImpassable(c, column.ids, was, dry);
    var done;
    done, counts, visited, statements, wrote := column.Rewrite(RuleFor(c), env, batch, dry);
    if done {
      code := 0;
      TalliesMean(c, visited);
      if Quiet(env) {
        ReadingMovesTheKey(c, env, column.ids, was, column.rows, dry, counts, visited);
      }
      assert forall i | 0 <= i < |visited| :: ReadAt(RuleFor(c), env, was, visited[i], column.ids[i], dry);
    }
  }
}
