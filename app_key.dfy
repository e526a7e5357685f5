// Splitting an app key into its id and its secret (the App constructor,
// src/app.ts:28-33), which matches the key against `^([^:]+):(.+)$`.

module AppKey {
  import opened Common

  const InvalidAppKey := "Invalid app key"

  datatype KeyParts = KeyParts(id: string, secret: string)

  /** The characters that JavaScript's `.` does not match. */
  predicate IsLineTerminator(c: char)
  {
    c == '\n' || c == '\r' || c == '\U{2028}' || c == '\U{2029}'
  }

  predicate HasLineTerminator(s: string)
  {
    exists i :: 0 <= i < |s| && IsLineTerminator(s[i])
  }

  /**
   * `key` matches the pattern with these two groups: the id is one or more
   * characters other than a colon (line terminators included), the secret
   * one or more characters other than line terminators (colons included).
   */
  predicate MatchesKeyPattern(key: string, id: string, secret: string)
  {
    && key == id + ":" + secret
    && id != [] && ':' !in id
    && secret != [] && !HasLineTerminator(secret)
  }

  /** The index of the first colon, or |s| when there is none. */
  function FirstColon(s: string): (i: nat)
    ensures i <= |s|
    ensures forall k :: 0 <= k < i ==> s[k] != ':'
    ensures i < |s| ==> s[i] == ':'
  {
    if s == [] || s[0] == ':' then 0 else 1 + FirstColon(s[1..])
  }

  /** The regular-expression match; a key that does not match is refused. */
  function ParseAppKey(key: string): (r: Result<KeyParts, string>)
    ensures r.Err? ==> r.error == InvalidAppKey
    ensures r.Ok? ==> MatchesKeyPattern(key, r.value.id, r.value.secret)
  {
    var i := FirstColon(key);
    if i == 0 || i + 1 >= |key| || HasLineTerminator(key[i + 1..]) then
      Err(InvalidAppKey)
    else
      assert key == key[..i] + ":" + key[i + 1..];
      Ok(KeyParts(key[..i], key[i + 1..]))
  }

  /** Parsing yields exactly the groups of the match. */
  lemma ParseAppKeyExact(key: string, id: string, secret: string)
    ensures ParseAppKey(key) == Ok(KeyParts(id, secret)) <==> MatchesKeyPattern(key, id, secret)
  {
    if MatchesKeyPattern(key, id, secret) {
      var i := FirstColon(key);
      assert key[|id|] == ':';
      forall k | 0 <= k < |id| ensures key[k] != ':' {
        assert key[k] == id[k];
      }
      assert i == |id|;
      assert key[..i] == id;
      assert key[i + 1..] == secret;
    }
  }

  /** A key is refused exactly when no id and secret match it. */
  lemma ParseAppKeyRejects(key: string)
    ensures ParseAppKey(key).Err? <==> forall id, secret :: !MatchesKeyPattern(key, id, secret)
  {
    if ParseAppKey(key).Err? {
      forall id, secret ensures !MatchesKeyPattern(key, id, secret) {
        ParseAppKeyExact(key, id, secret);
      }
    }
  }

  /** The three ways a key can be malformed, each refused. */
  lemma MalformedKeysRejected(key: string)
    requires ':' !in key || key[0] == ':' || (key[|key| - 1] == ':' && ':' !in key[..|key| - 1])
    ensures ParseAppKey(key) == Err(InvalidAppKey)
  {
  }
}
