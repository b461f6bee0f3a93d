/** Cutting an error text to a byte budget on a character boundary. Encoding is UTF-8, section 3 of
    RFC 3629. */
module FitError {
  import opened Wrappers

  const MAX_ERROR_BYTES: nat := 60000
  const TRUNCATED := "\n... truncated"

  type Byte = b: int | 0 <= b < 256

  function EncodeChar(c: char): (bytes: seq<Byte>)
    ensures 1 <= |bytes| <= 4
  {
    var n := c as int;
    if n < 0x80 then [n]
    else if n < 0x800 then [0xC0 + n / 64, 0x80 + n % 64]
    else if n < 0x10000 then [0xE0 + n / 64 / 64, 0x80 + n / 64 % 64, 0x80 + n % 64]
    else [0xF0 + n / 64 / 64 / 64, 0x80 + n / 64 / 64 % 64, 0x80 + n / 64 % 64, 0x80 + n % 64]
  }

  function Encode(s: string): seq<Byte> {
    if s == "" then [] else EncodeChar(s[0]) + Encode(s[1..])
  }

  predicate Continues(b: Byte) {
    0x80 <= b < 0xC0
  }

  predicate IsScalar(n: int) {
    0 <= n < 0xD800 || 0xE000 <= n < 0x110000
  }

  /** The bits so far with the six of a continuation byte behind them. */
  function Extended(bits: int, b: int): int {
    bits * 64 + (b - 0x80)
  }

  /** The code point a multi-byte lead begins, if every byte it needs is there; else -1. */
  function CodePoint(b: seq<Byte>): int
    requires b != []
  {
    if 0xC2 <= b[0] < 0xE0 && 2 <= |b| && Continues(b[1]) then
      Extended(b[0] - 0xC0, b[1])
    else if 0xE0 <= b[0] < 0xF0 && 3 <= |b| && Continues(b[1]) && Continues(b[2]) then
      Extended(Extended(b[0] - 0xE0, b[1]), b[2])
    else if 0xF0 <= b[0] < 0xF5 && 4 <= |b| && Continues(b[1]) && Continues(b[2]) && Continues(b[3]) then
      Extended(Extended(Extended(b[0] - 0xF0, b[1]), b[2]), b[3])
    else -1
  }

  /** The character the bytes begin with and its length, if they begin with a well-formed one:
      no over-long form, no surrogate, nothing past the last code point. */
  function DecodeChar(b: seq<Byte>): (r: Option<(char, nat)>)
    ensures r.Some? ==> 1 <= r.value.1 <= |b|
  {
    if b == [] then None
    else if b[0] < 0x80 then Some((b[0] as char, 1))
    else
      var n := CodePoint(b);
      var length := if b[0] < 0xE0 then 2 else if b[0] < 0xF0 then 3 else 4;
      var least := if length == 2 then 0x80 else if length == 3 then 0x800 else 0x10000;
      if least <= n && IsScalar(n) then Some((n as char, length)) else None
  }

  /** Decoding that skips what it cannot read. Skipping byte by byte drops the same bytes as
      skipping an ill-formed run at once, because a continuation byte never begins a character. */
  function DecodeIgnoring(b: seq<Byte>): string
    decreases |b|
  {
    if b == [] then ""
    else match DecodeChar(b)
      case Some(r) => [r.0] + DecodeIgnoring(b[r.1..])
      case None => DecodeIgnoring(b[1..])
  }

  function Fit(error: string): string {
    var raw := Encode(error);
    if |raw| <= MAX_ERROR_BYTES then error
    else DecodeIgnoring(raw[..MAX_ERROR_BYTES]) + TRUNCATED
  }

  lemma DecodeCharInverts(c: char, rest: seq<Byte>)
    ensures DecodeChar(EncodeChar(c) + rest) == Some((c, |EncodeChar(c)|))
  {
    var n := c as int;
    var b := EncodeChar(c) + rest;
    assert forall i | 0 <= i < |EncodeChar(c)| :: b[i] == EncodeChar(c)[i];
    if 0x80 <= n {
      assert CodePoint(b) == n;
    }
  }

  /** A character cut short is skipped whole. */
  lemma CutCharIsSkipped(c: char, n: nat)
    requires n < |EncodeChar(c)|
    ensures DecodeIgnoring(EncodeChar(c)[..n]) == ""
  {
    var cut := EncodeChar(c)[..n];
    if 0 < n {
      assert DecodeChar(cut).None?;
      TailsAreSkipped(cut[1..]);
    }
  }

  lemma {:induction false} TailsAreSkipped(b: seq<Byte>)
    requires forall i | 0 <= i < |b| :: Continues(b[i])
    ensures DecodeIgnoring(b) == ""
    decreases |b|
  {
    if b != [] {
      assert DecodeChar(b).None?;
      TailsAreSkipped(b[1..]);
    }
  }

  /** Decoding the first n bytes of a text gives back its whole characters, and no more: k of them,
      the most whose encoding fits. */
  lemma {:induction false} CutKeepsWholeChars(s: string, n: nat) returns (k: nat)
    requires n <= |Encode(s)|
    ensures k <= |s| && DecodeIgnoring(Encode(s)[..n]) == s[..k]
    ensures |Encode(s[..k])| <= n && (k < |s| ==> n < |Encode(s[..k + 1])|)
    decreases |s|
  {
    if s == "" {
      k := 0;
    } else {
      var head, bytes := EncodeChar(s[0]), Encode(s);
      if n < |head| {
        assert bytes[..n] == head[..n];
        CutCharIsSkipped(s[0], n);
        k := 0;
        assert s[..1] == [s[0]] && s[..1][1..] == "";
      } else {
        var rest := CutKeepsWholeChars(s[1..], n - |head|);
        assert bytes[..n] == head + Encode(s[1..])[..n - |head|];
        DecodeCharInverts(s[0], Encode(s[1..])[..n - |head|]);
        k := rest + 1;
        assert s[..k][1..] == s[1..][..rest];
        assert k < |s| ==> s[..k + 1][1..] == s[1..][..rest + 1];
      }
    }
  }

  /** A text that fits is unchanged. An over-long one keeps exactly its longest prefix of whole
      characters that fits in the budget, and is marked as cut. */
  lemma FitKeepsTheLongestPrefix(error: string) returns (k: nat)
    ensures k <= |error|
    ensures |Encode(error)| <= MAX_ERROR_BYTES ==> Fit(error) == error
    ensures MAX_ERROR_BYTES < |Encode(error)| ==>
              && Fit(error) == error[..k] + TRUNCATED
              && |Encode(error[..k])| <= MAX_ERROR_BYTES
              && k < |error| && MAX_ERROR_BYTES < |Encode(error[..k + 1])|
  {
    k := |error|;
    if MAX_ERROR_BYTES < |Encode(error)| {
      k := CutKeepsWholeChars(error, MAX_ERROR_BYTES);
      assert error[..|error|] == error;
    }
  }

  /** Encoding loses nothing, so what a driver stores reads back as it was. */
  lemma {:induction false} EncodeRoundTrips(s: string)
    ensures DecodeIgnoring(Encode(s)) == s
  {
    var k := CutKeepsWholeChars(s, |Encode(s)|);
    assert Encode(s)[..|Encode(s)|] == Encode(s);
    if k < |s| {
      LongerEncodesLonger(s, k);
    }
    assert s[..|s|] == s;
  }

  lemma {:induction false} LongerEncodesLonger(s: string, k: nat)
    requires k < |s|
    ensures |Encode(s[..k + 1])| <= |Encode(s)|
    decreases |s|
  {
    if 0 < k {
      LongerEncodesLonger(s[1..], k - 1);
      assert s[..k + 1][1..] == s[1..][..k];
    }
  }
}
