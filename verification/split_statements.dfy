/** Cutting a script into single statements. Whether a text is a complete statement is SQLite's to
    say, so the test is any predicate here. */
module SplitStatements {
  import opened Wrappers

  const SEMICOLON := ";"

  // ---------------------------------------------------------------- Cutting at complete statements

  function Concat(pieces: seq<string>): string {
    if pieces == [] then "" else pieces[0] + Concat(pieces[1..])
  }

  /** A prefix of the text at which a cut is possible: n characters, the last a `;`, that pass. */
  predicate CutsAt(text: string, n: nat, complete: string -> bool) {
    0 < n <= |text| && text[n - 1] == ';' && complete(text[..n])
  }

  predicate EarliestCut(text: string, complete: string -> bool) {
    CutsAt(text, |text|, complete) && forall n: nat | n < |text| :: !CutsAt(text, n, complete)
  }

  /** The text is the pieces and then the rest; every piece ends at the earliest place it can, and
      nothing can be cut off the rest. */
  ghost predicate Cut(text: string, complete: string -> bool, pieces: seq<string>, rest: string) {
    && text == Concat(pieces) + rest
    && (forall i | 0 <= i < |pieces| :: EarliestCut(pieces[i], complete))
    && Uncut(rest, complete)
  }

  ghost predicate Uncut(text: string, complete: string -> bool) {
    forall n: nat :: !CutsAt(text, n, complete)
  }

  lemma SharedPrefixCutsAlike(a: string, b: string, n: nat, complete: string -> bool)
    requires n <= |a| && n <= |b| && a[..n] == b[..n] && CutsAt(a, n, complete)
    ensures CutsAt(b, n, complete)
  {
    assert a[..n][n - 1] == b[..n][n - 1];
  }

  lemma FirstPiecesAgree(text: string, complete: string -> bool, a: string, b: string)
    requires a <= text && b <= text && EarliestCut(a, complete) && EarliestCut(b, complete)
    ensures a == b
  {
    if |a| < |b| {
      assert text[..|b|][..|a|] == b[..|a|];
      SharedPrefixCutsAlike(a, b, |a|, complete);
    } else if |b| < |a| {
      assert text[..|a|][..|b|] == a[..|b|];
      SharedPrefixCutsAlike(b, a, |b|, complete);
    }
  }

  /** Behind its first piece a text is cut as before. */
  lemma RestIsCut(text: string, complete: string -> bool, pieces: seq<string>, rest: string)
    requires Cut(text, complete, pieces, rest) && pieces != []
    ensures pieces[0] <= text && EarliestCut(pieces[0], complete)
    ensures Cut(text[|pieces[0]|..], complete, pieces[1..], rest)
  {
    assert text == pieces[0] + (Concat(pieces[1..]) + rest);
  }

  lemma NothingToCut(text: string, complete: string -> bool, rest: string, pieces: seq<string>, other: string)
    requires Cut(text, complete, [], rest) && Cut(text, complete, pieces, other)
    ensures pieces == [] && rest == other
  {
    assert text == rest;
    if pieces != [] {
      RestIsCut(text, complete, pieces, other);
      assert text[..|pieces[0]|] == pieces[0];
      SharedPrefixCutsAlike(pieces[0], rest, |pieces[0]|, complete);
      assert false;
    }
    assert text == other;
  }

  /** A text is cut in one way only. */
  lemma {:induction false} CutIsUnique(text: string, complete: string -> bool,
                                       pieces: seq<string>, rest: string, others: seq<string>, other: string)
    requires Cut(text, complete, pieces, rest) && Cut(text, complete, others, other)
    ensures pieces == others && rest == other
    decreases |pieces|
  {
    if pieces == [] {
      NothingToCut(text, complete, rest, others, other);
    } else if others == [] {
      NothingToCut(text, complete, other, pieces, rest);
    } else {
      RestIsCut(text, complete, pieces, rest);
      RestIsCut(text, complete, others, other);
      FirstPiecesAgree(text, complete, pieces[0], others[0]);
      CutIsUnique(text[|pieces[0]|..], complete, pieces[1..], rest, others[1..], other);
      assert pieces == [pieces[0]] + pieces[1..] && others == [others[0]] + others[1..];
    }
  }

  lemma {:induction false} ConcatEndsWith(pieces: seq<string>, last: string)
    ensures Concat(pieces + [last]) == Concat(pieces) + last
  {
    if pieces != [] {
      ConcatEndsWith(pieces[1..], last);
      assert (pieces + [last])[1..] == pieces[1..] + [last];
    } else {
      assert (pieces + [last])[1..] == [];
    }
  }

  // ---------------------------------------------------------------- What counts as code

  predicate IsBreak(c: char) {
    c in "\n\r\U{B}\U{C}\U{1C}\U{1D}\U{1E}\U{85}\U{2028}\U{2029}"
  }

  predicate IsSpace(c: char) {
    IsBreak(c) || c in " \t\U{1F}\U{A0}\U{1680}\U{202F}\U{205F}\U{3000}" || 0x2000 <= c as int <= 0x200A
  }

  function StripLeft(s: string): (r: string)
    ensures |r| <= |s| && r == s[|s| - |r|..]
    ensures forall i | 0 <= i < |s| - |r| :: IsSpace(s[i])
    ensures r != "" ==> !IsSpace(r[0])
  {
    if s == "" || !IsSpace(s[0]) then s else StripLeft(s[1..])
  }

  function StripRight(s: string): (r: string)
    ensures |r| <= |s| && r == s[..|r|]
    ensures forall i | |r| <= i < |s| :: IsSpace(s[i])
    ensures r != "" ==> !IsSpace(r[|r| - 1])
  {
    if s == "" || !IsSpace(s[|s| - 1]) then s else StripRight(s[..|s| - 1])
  }

  function Strip(s: string): string {
    StripRight(StripLeft(s))
  }

  /** How much of s comes before its first line break. */
  function LineEnd(s: string): (n: nat)
    ensures n <= |s| && (forall i | 0 <= i < n :: !IsBreak(s[i])) && (n < |s| ==> IsBreak(s[n]))
  {
    if s == "" || IsBreak(s[0]) then 0 else 1 + LineEnd(s[1..])
  }

  /** The lines of s. A carriage return and line feed count as two breaks with an empty line
      between them, which holds no code. */
  function Lines(s: string): seq<string>
    decreases |s|
  {
    var n := LineEnd(s);
    if n == |s| then [s] else [s[..n]] + Lines(s[n + 1..])
  }

  predicate Dashes(s: string, i: int) {
    0 <= i && i + 1 < |s| && s[i] == '-' && s[i + 1] == '-'
  }

  /** How much of a line comes before its first comment. */
  function CommentStart(line: string): (n: nat)
    ensures n <= |line| && (forall i | 0 <= i < n :: !Dashes(line, i)) && (n < |line| ==> Dashes(line, n))
  {
    if line == "" || Dashes(line, 0) then 0
    else
      var rest := CommentStart(line[1..]);
      assert forall i | 0 < i < 1 + rest :: Dashes(line, i) == Dashes(line[1..], i - 1);
      1 + rest
  }

  predicate LineHasCode(line: string) {
    var code := Strip(line[..CommentStart(line)]);
    code != "" && code != SEMICOLON
  }

  predicate HasCode(statement: string) {
    exists line :: line in Lines(statement) && LineHasCode(line)
  }

  // ---------------------------------------------------------------- The same, character by character

  predicate SameLine(s: string, i: int, j: int)
    requires 0 <= i < |s| && 0 <= j < |s|
  {
    forall k | 0 <= k < |s| && (i <= k <= j || j <= k <= i) :: !IsBreak(s[k])
  }

  predicate Commented(s: string, i: int)
    requires 0 <= i < |s|
  {
    exists j | 0 <= j <= i :: Dashes(s, j) && SameLine(s, j, i)
  }

  /** A character that says nothing on its own: white space, or part of a comment. */
  predicate Silent(s: string, i: int)
    requires 0 <= i < |s|
  {
    IsSpace(s[i]) || Commented(s, i)
  }

  /** A `;` with nothing but silence beside it on its line. */
  predicate Bare(s: string, i: int)
    requires 0 <= i < |s|
  {
    s[i] == ';' && forall k | 0 <= k < |s| && k != i && SameLine(s, i, k) :: Silent(s, k)
  }

  predicate OnlyCommentsAndBareSemicolons(s: string) {
    forall i | 0 <= i < |s| :: Silent(s, i) || Bare(s, i)
  }

  /** A stretch of s that keeps to itself: only white space outside it can share a line with it. */
  ghost predicate Apart(s: string, a: nat, b: nat) {
    && a <= b <= |s|
    && forall k, i | 0 <= k < |s| && !(a <= k < b) && a <= i < b && SameLine(s, k, i) :: IsSpace(s[k])
  }

  lemma SameLineInside(s: string, a: nat, b: nat, i: nat, j: nat)
    requires a <= i < b <= |s| && a <= j < b
    ensures SameLine(s, i, j) == SameLine(s[a..b], i - a, j - a)
  {
    if SameLine(s[a..b], i - a, j - a) {
      forall k | 0 <= k < |s| && (i <= k <= j || j <= k <= i) ensures !IsBreak(s[k]) {
        assert s[k] == s[a..b][k - a];
      }
    }
  }

  lemma SilentInside(s: string, a: nat, b: nat, i: nat)
    requires Apart(s, a, b) && a <= i < b
    ensures Silent(s, i) == Silent(s[a..b], i - a)
  {
    var part := s[a..b];
    if Commented(s, i) {
      var j :| 0 <= j <= i && Dashes(s, j) && SameLine(s, j, i);
      assert a <= j;
      assert j + 1 < b by {
        assert j + 1 <= i || j == i;
        assert j == i ==> SameLine(s, j + 1, i);
      }
      SameLineInside(s, a, b, j, i);
      assert Dashes(part, j - a);
    }
    if Commented(part, i - a) {
      var j :| 0 <= j <= i - a && Dashes(part, j) && SameLine(part, j, i - a);
      SameLineInside(s, a, b, j + a, i);
      assert Dashes(s, j + a);
    }
  }

  lemma BareInside(s: string, a: nat, b: nat, i: nat)
    requires Apart(s, a, b) && a <= i < b
    ensures Bare(s, i) == Bare(s[a..b], i - a)
  {
    var part := s[a..b];
    if Bare(s, i) {
      forall k | 0 <= k < |part| && k != i - a && SameLine(part, i - a, k) ensures Silent(part, k) {
        SameLineInside(s, a, b, i, k + a);
        SilentInside(s, a, b, k + a);
      }
    }
    if Bare(part, i - a) {
      forall k | 0 <= k < |s| && k != i && SameLine(s, i, k) ensures Silent(s, k) {
        if a <= k < b {
          SameLineInside(s, a, b, i, k);
          SilentInside(s, a, b, k);
        } else {
          assert SameLine(s, k, i);
        }
      }
    }
  }

  ghost predicate QuietAt(s: string, a: nat, b: nat) {
    b <= |s| && forall i | a <= i < b :: Silent(s, i) || Bare(s, i)
  }

  lemma QuietInside(s: string, a: nat, b: nat)
    requires Apart(s, a, b)
    ensures OnlyCommentsAndBareSemicolons(s[a..b]) <==> QuietAt(s, a, b)
  {
    var part := s[a..b];
    forall i | a <= i < b
      ensures Silent(s, i) == Silent(part, i - a) && Bare(s, i) == Bare(part, i - a)
    {
      SilentInside(s, a, b, i);
      BareInside(s, a, b, i);
    }
    if QuietAt(s, a, b) {
      forall i | 0 <= i < |part| ensures Silent(part, i) || Bare(part, i) {
        assert Silent(s, i + a) || Bare(s, i + a);
      }
    }
    if OnlyCommentsAndBareSemicolons(part) {
      forall i | a <= i < b ensures Silent(s, i) || Bare(s, i) {
        assert Silent(part, i - a) || Bare(part, i - a);
      }
    }
  }

  /** What strip takes off: white space at both ends. */
  lemma StripIsAPart(s: string) returns (a: nat, b: nat)
    ensures a <= b <= |s| && Strip(s) == s[a..b] && forall i | 0 <= i < |s| && !(a <= i < b) :: IsSpace(s[i])
    ensures a < b ==> !IsSpace(s[a]) && !IsSpace(s[b - 1])
  {
    var left := StripLeft(s);
    var both := StripRight(left);
    a, b := |s| - |left|, |s| - |left| + |both|;
  }

  lemma StripKeepsCode(s: string)
    ensures OnlyCommentsAndBareSemicolons(Strip(s)) <==> OnlyCommentsAndBareSemicolons(s)
  {
    var a, b := StripIsAPart(s);
    QuietInside(s, a, b);
  }

  lemma BareOnALine(line: string, i: nat)
    requires i < |line| && forall k | 0 <= k < |line| :: !IsBreak(line[k])
    ensures Bare(line, i) <==> line[i] == ';' && forall k | 0 <= k < |line| && k != i :: Silent(line, k)
  {
    assert forall k | 0 <= k < |line| :: SameLine(line, i, k);
  }

  lemma LineIsQuiet(line: string)
    requires forall i | 0 <= i < |line| :: !IsBreak(line[i])
    ensures LineHasCode(line) <==> !OnlyCommentsAndBareSemicolons(line)
  {
    var n := CommentStart(line);
    var code := line[..n];
    var a, b := StripIsAPart(code);
    forall i | 0 <= i < |line| ensures Silent(line, i) <==> IsSpace(line[i]) || n <= i {
    }
    assert forall i | 0 <= i < n :: code[i] == line[i];
    if a == b {
      assert forall i | 0 <= i < |line| :: Silent(line, i);
    } else {
      BareOnALine(line, a);
      if b == a + 1 {
        assert Strip(code) == [line[a]];
        assert forall k | 0 <= k < |line| && k != a :: Silent(line, k);
      } else {
        assert !Silent(line, a) && !Silent(line, b - 1);
      }
    }
  }

  lemma QuietLineByLine(s: string, n: nat)
    requires n < |s| && IsBreak(s[n])
    ensures OnlyCommentsAndBareSemicolons(s)
       <==> OnlyCommentsAndBareSemicolons(s[..n]) && OnlyCommentsAndBareSemicolons(s[n + 1..])
  {
    assert forall i, j | 0 <= i <= n <= j < |s| :: !SameLine(s, i, j) && !SameLine(s, j, i);
    QuietInside(s, 0, n);
    QuietInside(s, n + 1, |s|);
    assert s[0..n] == s[..n] && s[n + 1..|s|] == s[n + 1..];
    assert Silent(s, n);
  }

  /** The line test drops a text exactly when every character of it is white space, inside a
      comment, or a `;` alone on its line. */
  lemma {:induction false} NoCodeMeansQuiet(s: string)
    ensures HasCode(s) <==> !OnlyCommentsAndBareSemicolons(s)
    decreases |s|
  {
    var n := LineEnd(s);
    var line := s[..n];
    LineIsQuiet(line);
    if n == |s| {
      assert s == line;
      assert Lines(s)[0] == line;
    } else {
      var tail := s[n + 1..];
      NoCodeMeansQuiet(tail);
      QuietLineByLine(s, n);
      assert Lines(s)[0] == line;
      assert Lines(s) == [line] + Lines(tail);
    }
  }

  // ---------------------------------------------------------------- The pieces kept

  /** The places in xs, in order, that hold what is kept. */
  ghost predicate Places<T>(xs: seq<T>, keep: T -> bool, kept: seq<T>, at: seq<nat>) {
    && |at| == |kept|
    && (forall i | 0 <= i < |at| :: at[i] < |xs| && kept[i] == xs[at[i]])
    && (forall i, j | 0 <= i < j < |at| :: at[i] < at[j])
    && (forall k: nat | k < |xs| :: k in at <==> keep(xs[k]))
  }

  lemma OneMoreKept<T>(xs: seq<T>, keep: T -> bool, kept: seq<T>, at: seq<nat>, x: T)
    requires Places(xs, keep, kept, at) && keep(x)
    ensures Places(xs + [x], keep, kept + [x], at + [|xs|])
  {
    forall k: nat | k < |xs| + 1 ensures k in at + [|xs|] <==> keep((xs + [x])[k]) {
      assert k < |xs| ==> (k in at <==> keep(xs[k]));
    }
  }

  lemma OneMoreDropped<T>(xs: seq<T>, keep: T -> bool, kept: seq<T>, at: seq<nat>, x: T)
    requires Places(xs, keep, kept, at) && !keep(x)
    ensures Places(xs + [x], keep, kept, at)
  {
    forall k: nat | k < |xs| + 1 ensures k in at <==> keep((xs + [x])[k]) {
      assert k < |xs| ==> (k in at <==> keep(xs[k]));
      if k in at {
        var i :| 0 <= i < |at| && at[i] == k;
      }
    }
  }

  lemma {:induction false} FilterInOrder<T>(xs: seq<T>, keep: T -> bool) returns (at: seq<nat>)
    ensures Places(xs, keep, Filter(xs, keep), at)
  {
    at := [];
    if xs != [] {
      var rest, last := xs[..|xs| - 1], xs[|xs| - 1];
      at := FilterInOrder(rest, keep);
      assert xs == rest + [last];
      if keep(last) {
        OneMoreKept(rest, keep, Filter(rest, keep), at, last);
        at := at + [|rest|];
      } else {
        OneMoreDropped(rest, keep, Filter(rest, keep), at, last);
      }
    }
  }

  function Stripped(pieces: seq<string>): seq<string> {
    seq(|pieces|, i requires 0 <= i < |pieces| => Strip(pieces[i]))
  }

  lemma StrippedGrows(pieces: seq<string>, last: string)
    ensures Stripped(pieces + [last]) == Stripped(pieces) + [Strip(last)]
  {
  }

  /** Keeping drops exactly the pieces that are comments and bare semicolons, and keeps the others
      in the order they had. */
  lemma KeptInOrder(pieces: seq<string>) returns (at: seq<nat>)
    ensures var kept := Filter(Stripped(pieces), HasCode);
            |at| == |kept| && forall i | 0 <= i < |at| :: at[i] < |pieces| && kept[i] == Strip(pieces[at[i]])
    ensures forall i, j | 0 <= i < j < |at| :: at[i] < at[j]
    ensures forall k: nat | k < |pieces| :: k !in at <==> OnlyCommentsAndBareSemicolons(pieces[k])
  {
    at := FilterInOrder(Stripped(pieces), HasCode);
    forall k: nat | k < |pieces| ensures k !in at <==> OnlyCommentsAndBareSemicolons(pieces[k]) {
      StripKeepsCode(pieces[k]);
      NoCodeMeansQuiet(Strip(pieces[k]));
    }
  }

  // ---------------------------------------------------------------- The loop

  function Terminated(parts: seq<string>): string {
    if parts == [] then "" else parts[0] + SEMICOLON + Terminated(parts[1..])
  }

  /** The text between the semicolons. */
  function Parts(script: string): (parts: seq<string>)
    ensures parts != [] && Terminated(parts) == script + SEMICOLON
    ensures forall i | 0 <= i < |parts| :: ';' !in parts[i]
  {
    if script == "" then [""]
    else
      var rest := Parts(script[1..]);
      if script[0] == ';' then
        assert [""] + rest == [""] + rest && ([""] + rest)[1..] == rest;
        [""] + rest
      else
        LongerFirstPart(script[0], rest);
        [[script[0]] + rest[0]] + rest[1..]
  }

  lemma LongerFirstPart(c: char, parts: seq<string>)
    requires parts != []
    ensures Terminated([[c] + parts[0]] + parts[1..]) == [c] + Terminated(parts)
  {
    var longer := [[c] + parts[0]] + parts[1..];
    assert longer[1..] == parts[1..];
    assert [c] + parts[0] + SEMICOLON + Terminated(parts[1..]) == [c] + (parts[0] + SEMICOLON + Terminated(parts[1..]));
  }

  lemma NoCutInsideAPart(buffer: string, part: string, complete: string -> bool, n: nat)
    requires ';' !in part && Uncut(buffer, complete) && n <= |buffer + part|
    ensures !CutsAt(buffer + part + SEMICOLON, n, complete)
  {
    var grown := buffer + part + SEMICOLON;
    if 0 < n {
      if n <= |buffer| {
        assert grown[..n] == buffer[..n] && grown[n - 1] == buffer[n - 1];
        assert !CutsAt(buffer, n, complete);
      } else {
        assert grown[n - 1] == part[n - 1 - |buffer|] && part[n - 1 - |buffer|] in part;
      }
    }
  }

  /** Where the loop stands: pieces cut, text held back, parts to come. */
  ghost predicate Progress(text: string, complete: string -> bool, pieces: seq<string>, buffer: string,
                           parts: seq<string>) {
    && text == Concat(pieces) + buffer + Terminated(parts)
    && (forall k | 0 <= k < |pieces| :: EarliestCut(pieces[k], complete))
    && Uncut(buffer, complete)
  }

  lemma PartTaken(text: string, complete: string -> bool, pieces: seq<string>, buffer: string, parts: seq<string>)
    requires Progress(text, complete, pieces, buffer, parts) && parts != [] && ';' !in parts[0]
    ensures var grown := buffer + parts[0] + SEMICOLON;
            if complete(grown) then Progress(text, complete, pieces + [grown], "", parts[1..])
            else Progress(text, complete, pieces, grown, parts[1..])
  {
    var grown := buffer + parts[0] + SEMICOLON;
    assert text == Concat(pieces) + grown + Terminated(parts[1..]);
    forall n: nat | n < |grown| ensures !CutsAt(grown, n, complete) {
      NoCutInsideAPart(buffer, parts[0], complete, n);
    }
    assert grown[..|grown|] == grown;
    if complete(grown) {
      ConcatEndsWith(pieces, grown);
      assert CutsAt(grown, |grown|, complete);
      assert Concat(pieces + [grown]) + "" == Concat(pieces) + grown;
    }
  }

  /** The loop: cut whenever what is held back passes as a complete statement. */
  method CutUp(text: string, parts: seq<string>, complete: string -> bool)
    returns (cuts: seq<string>, buffer: string)
    requires text == Terminated(parts) && forall i | 0 <= i < |parts| :: ';' !in parts[i]
    ensures exists pieces :: Cut(text, complete, pieces, buffer) && cuts == Stripped(pieces)
  {
    cuts, buffer := [], "";
    ghost var pieces: seq<string> := [];
    assert parts[0..] == parts && text == Concat(pieces) + buffer + Terminated(parts);
    var i := 0;
    while i < |parts|
      invariant 0 <= i <= |parts|
      invariant Progress(text, complete, pieces, buffer, parts[i..])
      invariant cuts == Stripped(pieces)
    {
      PartTaken(text, complete, pieces, buffer, parts[i..]);
      assert parts[i..][1..] == parts[i + 1..] && parts[i..][0] == parts[i];
      buffer := buffer + parts[i] + SEMICOLON;
      if complete(buffer) {
        StrippedGrows(pieces, buffer);
        cuts := cuts + [Strip(buffer)];
        pieces := pieces + [buffer];
        buffer := "";
      }
      i := i + 1;
    }
    assert parts[|parts|..] == [];
    assert text == Concat(pieces) + buffer;
  }

  /** The script with a `;` behind it is cut at the earliest complete statements, which can be done in
      one way only. What remains, without that `;`, goes last, and what holds no code is dropped. */
  ghost predicate SplitInto(script: string, complete: string -> bool, pieces: seq<string>, tail: string,
                            statements: seq<string>) {
    && (Cut(script + SEMICOLON, complete, pieces, tail + SEMICOLON)
        || (tail == "" && Cut(script + SEMICOLON, complete, pieces, "")))
    && statements == Filter(Stripped(pieces + [tail]), HasCode)
  }

  method Split(script: string, complete: string -> bool) returns (statements: seq<string>)
    ensures exists pieces, tail :: SplitInto(script, complete, pieces, tail, statements)
  {
    var cuts, rest := CutUp(script + SEMICOLON, Parts(script), complete);
    ghost var pieces :| Cut(script + SEMICOLON, complete, pieces, rest) && cuts == Stripped(pieces);
    var tail := if rest == "" then "" else rest[..|rest| - 1];
    statements := Filter(cuts + [Strip(tail)], HasCode);
    CutIsSplit(script, complete, pieces, rest);
  }

  lemma CutIsSplit(script: string, complete: string -> bool, pieces: seq<string>, rest: string)
    requires Cut(script + SEMICOLON, complete, pieces, rest)
    ensures var tail := if rest == "" then "" else rest[..|rest| - 1];
            SplitInto(script, complete, pieces, tail, Filter(Stripped(pieces) + [Strip(tail)], HasCode))
  {
    if rest != "" {
      RemainderEndsInTheSemicolon(script, pieces, rest);
    }
    StrippedGrows(pieces, if rest == "" then "" else rest[..|rest| - 1]);
  }

  lemma RemainderEndsInTheSemicolon(script: string, pieces: seq<string>, rest: string)
    requires script + SEMICOLON == Concat(pieces) + rest && rest != ""
    ensures rest == rest[..|rest| - 1] + SEMICOLON
  {
    assert (script + SEMICOLON)[|script|] == ';' && (Concat(pieces) + rest)[|script|] == rest[|rest| - 1];
  }

  lemma PiecesAreTheScript(script: string, whole: string, tail: string)
    requires script + SEMICOLON == whole + (tail + SEMICOLON)
    ensures script == whole + tail
  {
    assert whole + (tail + SEMICOLON) == (whole + tail) + SEMICOLON;
    assert (script + SEMICOLON)[..|script|] == script;
    assert ((whole + tail) + SEMICOLON)[..|whole + tail|] == whole + tail;
  }

  /** Nothing of the script is lost or moved: the pieces and the remainder one after the other are the
      script, with a `;` more if it needed one. */
  lemma StatementsAreTheScript(script: string, complete: string -> bool, pieces: seq<string>, tail: string,
                               statements: seq<string>)
    requires SplitInto(script, complete, pieces, tail, statements)
    ensures Concat(pieces) + tail == script || (tail == "" && Concat(pieces) == script + SEMICOLON)
  {
    if Cut(script + SEMICOLON, complete, pieces, tail + SEMICOLON) {
      PiecesAreTheScript(script, Concat(pieces), tail);
    } else {
      assert Concat(pieces) + "" == Concat(pieces);
    }
  }

  /** What is handed on is all of those that hold code, in their order; an incomplete remainder, or one
      without its `;`, is handed on last and not dropped. */
  lemma WhatHoldsCodeIsHandedOn(script: string, complete: string -> bool, pieces: seq<string>, tail: string,
                                statements: seq<string>)
    returns (at: seq<nat>)
    requires SplitInto(script, complete, pieces, tail, statements)
    ensures |at| == |statements| && forall i, j | 0 <= i < j < |at| :: at[i] < at[j]
    ensures forall i | 0 <= i < |at| :: at[i] < |pieces + [tail]| && statements[i] == Strip((pieces + [tail])[at[i]])
    ensures forall k: nat | k < |pieces + [tail]| ::
              k !in at <==> OnlyCommentsAndBareSemicolons((pieces + [tail])[k])
    ensures !OnlyCommentsAndBareSemicolons(tail) ==> statements != [] && statements[|statements| - 1] == Strip(tail)
  {
    var all := pieces + [tail];
    at := KeptInOrder(all);
    assert all[|pieces|] == tail;
    if !OnlyCommentsAndBareSemicolons(tail) {
      assert |pieces| in at;
      LargestIsLast(at, |pieces|);
    }
  }

  lemma LargestIsLast(at: seq<nat>, k: nat)
    requires (forall i, j | 0 <= i < j < |at| :: at[i] < at[j]) && k in at && forall i | 0 <= i < |at| :: at[i] <= k
    ensures at[|at| - 1] == k
  {
    var i :| 0 <= i < |at| && at[i] == k;
    assert at[i] <= at[|at| - 1];
  }
}
