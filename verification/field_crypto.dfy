/** The stored form of an encrypted field, `pa1:<key id>:<payload>`, over a cipher of which only
    "opening undoes sealing" is assumed. */
module FieldCrypto {
  import opened Wrappers

  const PREFIX := "pa1:"
  const FOREIGN_PREFIX := "sp1:"

  /** The configured keys, and the cipher: a key id, a nonce and a text to a payload, and back. */
  datatype Crypto = Crypto(
    current: string, keys: set<string>, seal: (string, nat, string) -> string, open: (string, string) -> Option<string>)

  ghost predicate Lawful(c: Crypto) {
    forall k: string, n: nat, p: string {:trigger c.seal(k, n, p)} :: k in c.keys ==>
      c.seal(k, n, p) != "" && c.open(k, c.seal(k, n, p)) == Some(p)
  }

  predicate IsKeyChar(c: char) {
    'a' <= c <= 'z' || '0' <= c <= '9' || c == '_'
  }

  predicate IsPlainKeyId(s: string) {
    1 <= |s| <= 16 && forall i | 0 <= i < |s| :: IsKeyChar(s[i])
  }

  /** The pattern ends in `$`, which also matches before one last line feed. */
  predicate IsKeyId(s: string) {
    IsPlainKeyId(s) || (s != "" && s[|s| - 1] == '\n' && IsPlainKeyId(s[..|s| - 1]))
  }

  predicate StartsWith(s: string, prefix: string) {
    |prefix| <= |s| && s[..|prefix|] == prefix
  }

  function FirstColon(s: string): (n: nat)
    ensures n <= |s| && (forall i | 0 <= i < n :: s[i] != ':') && (n < |s| ==> s[n] == ':')
  {
    if s == "" || s[0] == ':' then 0 else 1 + FirstColon(s[1..])
  }

  datatype Form = Plain | Malformed | Sealed(keyId: string, payload: string)

  function Split(value: string): Form {
    if !StartsWith(value, PREFIX) then Plain
    else
      var rest := value[|PREFIX|..];
      var n := FirstColon(rest);
      if n == |rest| || rest[n + 1..] == "" || !IsKeyId(rest[..n]) then Malformed
      else Sealed(rest[..n], rest[n + 1..])
  }

  function Stored(keyId: string, payload: string): string {
    PREFIX + keyId + ":" + payload
  }

  lemma {:induction false} ColonIsFound(head: string, tail: string)
    requires forall i | 0 <= i < |head| :: head[i] != ':'
    ensures FirstColon(head + ":" + tail) == |head|
  {
    var s := head + ":" + tail;
    assert forall i | 0 <= i < |head| :: s[i] == head[i];
    assert s[|head|] == ':';
  }

  lemma StoredSplits(keyId: string, payload: string)
    requires IsKeyId(keyId) && payload != ""
    ensures Split(Stored(keyId, payload)) == Sealed(keyId, payload)
  {
    ColonIsFound(keyId, payload);
    var value := Stored(keyId, payload);
    assert value[..|PREFIX|] == PREFIX;
    assert value[|PREFIX|..] == keyId + ":" + payload;
    assert (keyId + ":" + payload)[..|keyId|] == keyId;
    assert (keyId + ":" + payload)[|keyId| + 1..] == payload;
  }

  /** A value splits into a key id and payload exactly when it is those two in the stored form. */
  lemma SplitInvertsStored(value: string, keyId: string, payload: string)
    ensures Split(value) == Sealed(keyId, payload) <==>
            value == Stored(keyId, payload) && IsKeyId(keyId) && payload != ""
  {
    if Split(value) == Sealed(keyId, payload) {
      var rest := value[|PREFIX|..];
      assert value == PREFIX + rest;
      assert PREFIX + (keyId + ":" + payload) == Stored(keyId, payload);
    } else if IsKeyId(keyId) && payload != "" {
      StoredSplits(keyId, payload);
    }
  }

  /** A key id with a line feed behind it passes the pattern, so a value carrying one is not malformed. */
  lemma KeyIdMayEndInALineFeed(keyId: string, payload: string)
    requires IsPlainKeyId(keyId) && payload != ""
    ensures !IsPlainKeyId(keyId + "\n") && Split(Stored(keyId + "\n", payload)) == Sealed(keyId + "\n", payload)
  {
    assert (keyId + "\n")[..|keyId|] == keyId;
    assert !IsKeyChar((keyId + "\n")[|keyId|]);
    StoredSplits(keyId + "\n", payload);
  }

  datatype Opened = Text(text: string) | Refused

  /** Reading a stored value: what is not in a known form passes through. */
  function Decrypt(c: Crypto, value: string): Opened {
    match Split(value)
    case Malformed => Refused
    case Plain => if StartsWith(value, FOREIGN_PREFIX) then Refused else Text(value)
    case Sealed(keyId, payload) =>
      if keyId !in c.keys then Refused
      else match c.open(keyId, payload) case Some(p) => Text(p) case None => Refused
  }

  /** Reading gives a text back exactly when it can: the value itself if it claims neither format, or what
      its payload opens to under a key that is configured. Everything else is refused. */
  lemma DecryptMeans(c: Crypto, value: string, text: string)
    ensures Decrypt(c, value) == Text(text) <==>
            || (text == value && !StartsWith(value, "pa1:") && !StartsWith(value, "sp1:"))
            || exists k, p :: Sealing(c, value, k, p, text)
  {
    if Split(value).Sealed? {
      var k, p := Split(value).keyId, Split(value).payload;
      SplitInvertsStored(value, k, p);
      assert Decrypt(c, value) == Text(text) ==> Sealing(c, value, k, p, text);
    }
    forall k, p | Sealing(c, value, k, p, text)
      ensures Decrypt(c, value) == Text(text)
    {
      SplitInvertsStored(value, k, p);
    }
  }

  /** The value is this payload under this key, which opens it to this text. */
  predicate Sealing(c: Crypto, value: string, keyId: string, payload: string, text: string) {
    && value == "pa1:" + keyId + ":" + payload && IsKeyId(keyId) && payload != ""
    && keyId in c.keys && c.open(keyId, payload) == Some(text)
  }

  /** A key can be used when its id is well formed and it is configured. */
  predicate Usable(c: Crypto, keyId: string) {
    IsKeyId(keyId) && keyId in c.keys
  }

  function Encrypt(c: Crypto, keyId: string, nonce: nat, text: string): Option<string> {
    if Usable(c, keyId) then Some(Stored(keyId, c.seal(keyId, nonce, text))) else None
  }

  /** What is encrypted under a key reads back as it was, and is labelled with that key. */
  lemma DecryptUndoesEncrypt(c: Crypto, keyId: string, nonce: nat, text: string)
    requires Lawful(c) && Usable(c, keyId)
    ensures var value := Encrypt(c, keyId, nonce, text).value;
            && Decrypt(c, value) == Text(text)
            && Split(value) == Sealed(keyId, c.seal(keyId, nonce, text))
  {
    SplitInvertsStored(Encrypt(c, keyId, nonce, text).value, keyId, c.seal(keyId, nonce, text));
  }

  /** The key a value is under: none for an empty or plain one. */
  datatype Label = Unlabelled | Bad | Under(keyId: string)

  function KeyIdOf(value: Option<string>): Label {
    if value.None? || value.value == "" then Unlabelled
    else match Split(value.value)
      case Plain => Unlabelled
      case Malformed => Bad
      case Sealed(keyId, _) => Under(keyId)
  }

  /** By the text: unlabelled is what is empty or does not claim the format, under a key what is a payload
      behind that key's id, and bad whatever else claims the format. */
  lemma KeyIdOfMeans(value: Option<string>, keyId: string)
    ensures KeyIdOf(value) == Unlabelled <==>
            value == None || value == Some("") || !StartsWith(value.value, "pa1:")
    ensures KeyIdOf(value) == Under(keyId) <==>
            exists payload :: payload != "" && value == Some("pa1:" + keyId + ":" + payload) && IsKeyId(keyId)
  {
    if value.Some? && Split(value.value).Sealed? {
      var k, p := Split(value.value).keyId, Split(value.value).payload;
      SplitInvertsStored(value.value, k, p);
      assert value == Some("pa1:" + k + ":" + p);
    }
    forall payload | payload != "" && value == Some("pa1:" + keyId + ":" + payload) && IsKeyId(keyId)
      ensures KeyIdOf(value) == Under(keyId)
    {
      SplitInvertsStored(value.value, keyId, payload);
    }
  }
}
