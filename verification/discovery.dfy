/** The names of migration files: a timestamp prefix of fixed width, then a slug. */
module Discovery {
  import opened Wrappers

  const WIDTH: nat := 17
  const SUFFIX := ".sql"

  /** The order of texts, character by character. */
  predicate Less(a: string, b: string) {
    b != "" && (a == "" || a[0] < b[0] || (a[0] == b[0] && Less(a[1..], b[1..])))
  }

  predicate AtMost(a: string, b: string) {
    a == b || Less(a, b)
  }

  lemma {:induction false} OneOrder(a: string, b: string)
    ensures Less(a, b) || Less(b, a) || a == b
    ensures !(Less(a, b) && Less(b, a)) && !Less(a, a)
  {
    if a != "" && b != "" {
      OneOrder(a[1..], b[1..]);
      assert a == [a[0]] + a[1..] && b == [b[0]] + b[1..];
    }
    if a != "" {
      OneOrder(a[1..], a[1..]);
    }
  }

  /** YYYY-MM-DD-HHMMSS, with whatever counts as a digit. */
  predicate IsPrefix(s: string, digit: char -> bool) {
    && |s| == WIDTH
    && forall i | 0 <= i < WIDTH :: if i == 4 || i == 7 || i == 10 then s[i] == '-' else digit(s[i])
  }

  predicate IsSlugChar(c: char) {
    'a' <= c <= 'z' || '0' <= c <= '9' || c == '-'
  }

  predicate IsFileName(name: string, digit: char -> bool) {
    && WIDTH + 1 + 1 + |SUFFIX| <= |name|
    && IsPrefix(name[..WIDTH], digit)
    && name[WIDTH] == '-'
    && name[|name| - |SUFFIX|..] == SUFFIX
    && forall i | WIDTH < i < |name| - |SUFFIX| :: IsSlugChar(name[i])
  }

  function PrefixOf(name: string): string {
    if WIDTH <= |name| then name[..WIDTH] else name
  }

  /** Text order agrees with the order of the first characters, as many as one likes. */
  lemma {:induction false} HeadsOrderFirst(a: string, b: string, n: nat)
    requires n <= |a| && n <= |b| && a[..n] != b[..n]
    ensures Less(a, b) <==> Less(a[..n], b[..n])
  {
    if a[0] == b[0] {
      assert a[..n] == [a[0]] + a[1..][..n - 1] && b[..n] == [b[0]] + b[1..][..n - 1];
      assert a[..n][1..] == a[1..][..n - 1] && b[..n][1..] == b[1..][..n - 1];
      HeadsOrderFirst(a[1..], b[1..], n - 1);
    }
  }

  predicate Ascending(names: seq<string>) {
    forall i, j | 0 <= i < j < |names| :: Less(names[i], names[j])
  }

  predicate UniquePrefixes(names: seq<string>) {
    forall i, j | 0 <= i < j < |names| :: PrefixOf(names[i]) != PrefixOf(names[j])
  }

  /** Refuses a directory in which two files share a timestamp, and names the first such two. */
  method FindDuplicate(names: seq<string>) returns (found: Option<(nat, nat)>)
    ensures found.None? <==> UniquePrefixes(names)
    ensures found.Some? ==>
              && found.value.0 < found.value.1 < |names|
              && PrefixOf(names[found.value.0]) == PrefixOf(names[found.value.1])
              && UniquePrefixes(names[..found.value.1])
  {
    var seen: map<string, nat> := map[];
    var i := 0;
    while i < |names|
      invariant 0 <= i <= |names| && UniquePrefixes(names[..i])
      invariant forall j | 0 <= j < i :: PrefixOf(names[j]) in seen
      invariant forall p | p in seen :: seen[p] < i && PrefixOf(names[seen[p]]) == p
    {
      var prefix := PrefixOf(names[i]);
      if prefix in seen {
        return Some((seen[prefix], i));
      }
      seen := seen[prefix := i];
      i := i + 1;
    }
    assert names[..i] == names;
    return None;
  }

  function Through(queue: seq<string>, to: string): seq<string> {
    Filter(queue, name => AtMost(PrefixOf(name), to))
  }

  /** Keeping what comes before something one does not keep, and nothing after, keeps a first part. */
  lemma {:induction false} KeptIsAFirstPart<T>(queue: seq<T>, keep: T -> bool) returns (k: nat)
    requires forall i, j | 0 <= i < j < |queue| && keep(queue[j]) :: keep(queue[i])
    ensures k <= |queue| && Filter(queue, keep) == queue[..k]
    ensures forall i | 0 <= i < |queue| :: i < k <==> keep(queue[i])
  {
    k := 0;
    if queue != [] {
      var n := |queue| - 1;
      var rest := queue[..n];
      forall i, j | 0 <= i < j < n && keep(rest[j])
        ensures keep(rest[i])
      {
        assert rest[i] == queue[i] && rest[j] == queue[j];
      }
      k := KeptIsAFirstPart(rest, keep);
      if keep(queue[n]) {
        if 0 < n {
          assert keep(rest[n - 1]);
        }
        assert k == n && rest + [queue[n]] == queue;
        k := n + 1;
      } else {
        assert rest[..k] == queue[..k];
      }
    }
  }

  /** Files of fixed-width, distinct prefixes come in the order of their prefixes. */
  lemma PrefixesOrderAsNames(a: string, b: string, digit: char -> bool)
    requires IsFileName(a, digit) && IsFileName(b, digit) && PrefixOf(a) != PrefixOf(b)
    ensures Less(a, b) <==> Less(PrefixOf(a), PrefixOf(b))
  {
    HeadsOrderFirst(a, b, WIDTH);
  }

  lemma {:induction false} LessChains(a: string, b: string, c: string)
    requires Less(a, b) && AtMost(b, c)
    ensures Less(a, c)
  {
    if b != c && a != "" && a[0] == b[0] && b[0] == c[0] {
      LessChains(a[1..], b[1..], c[1..]);
    }
  }

  lemma SelectedIffNotPast(name: string, file: string, digit: char -> bool)
    requires IsFileName(name, digit) && IsFileName(file, digit)
    requires name == file || PrefixOf(name) != PrefixOf(file)
    ensures AtMost(PrefixOf(name), PrefixOf(file)) <==> AtMost(name, file)
  {
    if name != file {
      PrefixesOrderAsNames(name, file, digit);
    }
  }

  /** Stopping at a file's prefix selects an initial segment of the queue: the names up to that file's,
      whether or not the file itself is waiting. */
  lemma ToSelectsAnInitialSegment(queue: seq<string>, file: string, digit: char -> bool) returns (k: nat)
    requires Ascending(queue) && IsFileName(file, digit)
    requires forall i | 0 <= i < |queue| :: IsFileName(queue[i], digit)
    requires forall i | 0 <= i < |queue| :: queue[i] == file || PrefixOf(queue[i]) != PrefixOf(file)
    ensures k <= |queue| && Through(queue, PrefixOf(file)) == queue[..k]
    ensures forall i | 0 <= i < |queue| :: i < k <==> AtMost(queue[i], file)
  {
    var keep := (name: string) => AtMost(PrefixOf(name), PrefixOf(file));
    forall i | 0 <= i < |queue| ensures keep(queue[i]) <==> AtMost(queue[i], file) {
      SelectedIffNotPast(queue[i], file, digit);
    }
    forall i, j | 0 <= i < j < |queue| && keep(queue[j]) ensures keep(queue[i]) {
      LessChains(queue[i], queue[j], file);
    }
    k := KeptIsAFirstPart(queue, keep);
    assert Through(queue, PrefixOf(file)) == Filter(queue, keep);
  }
}
