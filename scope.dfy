// The tenant scoping of request paths (App.scopeRequestOptions,
// src/app.ts:60-63): "/" + prefix + "/" + appId + "/" + path, then
// `replace(/\/+/g, "/")` and `replace(/\/+$/, "")`.

module PathScope {
  import opened PathSanitizer

  /** `replace(/\/+/g, "/")`: every run of one or more slashes becomes one slash. */
  function CollapseSlashes(s: string): (r: string)
    ensures r == CollapseSlashRuns(s)
    decreases |s|
  {
    if s == [] then
      []
    else if s[0] == '/' then
      assert (|s| >= 2 && s[1] == '/') || SkipSlashes(s) == s[1..];
      "/" + CollapseSlashes(SkipSlashes(s))
    else
      [s[0]] + CollapseSlashes(s[1..])
  }

  /** `replace(/\/+$/, "")`: the whole trailing run of slashes is dropped. */
  function DropTrailingSlashes(s: string): (r: string)
    ensures !EndsWithSlash(r)
    ensures |r| <= |s| && r == s[..|r|]
    ensures forall i :: |r| <= i < |s| ==> s[i] == '/'
  {
    if EndsWithSlash(s) then DropTrailingSlashes(s[..|s| - 1]) else s
  }

  lemma {:induction false} DropTrailingSlashesAppend(u: string, v: string)
    requires v != [] && v[0] != '/'
    ensures DropTrailingSlashes(u + v) == u + DropTrailingSlashes(v)
    decreases |v|
  {
    if EndsWithSlash(v) {
      assert (u + v)[..|u + v| - 1] == u + v[..|v| - 1];
      DropTrailingSlashesAppend(u, v[..|v| - 1]);
    }
  }

  lemma NoDoubleSlashPrefix(s: string, n: nat)
    requires n <= |s| && NoDoubleSlash(s)
    ensures NoDoubleSlash(s[..n])
  {
    var t := s[..n];
    forall i | 0 < i < |t| ensures !(t[i - 1] == '/' && t[i] == '/') {
      assert t[i - 1] == s[i - 1] && t[i] == s[i];
    }
  }

  /** The path under the tenant: "/" + prefix + "/" + appId + "/" + path, cleaned. */
  function ScopePath(prefix: string, appId: string, path: string): string
  {
    DropTrailingSlashes(CollapseSlashes("/" + prefix + "/" + appId + "/" + path))
  }

  /** A scoped path has no doubled slash, no trailing slash, and starts with a slash. */
  lemma ScopePathIsClean(prefix: string, appId: string, path: string)
    ensures var r := ScopePath(prefix, appId, path);
      NoDoubleSlash(r) && !EndsWithSlash(r) && (r == [] || r[0] == '/')
  {
    var c := CollapseSlashes("/" + prefix + "/" + appId + "/" + path);
    CollapseNoDoubleSlash("/" + prefix + "/" + appId + "/" + path);
    NoDoubleSlashPrefix(c, |DropTrailingSlashes(c)|);
  }

  /**
   * With a slash-free prefix and an app id that starts with something other
   * than a slash, the scoped path is "/" + prefix + "/" followed by the
   * cleaned rest, which starts with the app id's first character.
   */
  lemma ScopePathUnderPrefix(prefix: string, appId: string, path: string)
    requires prefix != [] && '/' !in prefix
    requires appId != [] && appId[0] != '/'
    ensures var rest := DropTrailingSlashes(CollapseSlashes(appId + "/" + path));
      && ScopePath(prefix, appId, path) == "/" + prefix + "/" + rest
      && rest != [] && rest[0] == appId[0]
  {
    var head := "/" + prefix;
    var x := appId + "/" + path;
    var full := "/" + prefix + "/" + appId + "/" + path;
    assert full == head + ("/" + x);
    CollapseAppend(head, "/" + x);
    assert NoDoubleSlash(head);
    CollapseIdentity(head);
    assert ("/" + x)[1..] == x;
    assert CollapseSlashRuns("/" + x) == "/" + CollapseSlashRuns(x);
    var cx := CollapseSlashRuns(x);
    assert CollapseSlashRuns(full) == head + "/" + cx;
    assert head + "/" + cx == (head + "/") + cx;
    DropTrailingSlashesAppend(head + "/", cx);
    assert cx[0] == appId[0];
    var rest := DropTrailingSlashes(cx);
    assert rest == cx[..|rest|];
  }

  /**
   * The general form: whenever the app id and the path hold any character
   * other than a slash, the scoped path is "/" + prefix + "/" followed by a
   * non-empty rest that does not start with a slash.
   */
  lemma ScopePathUnderPrefixWhenContent(prefix: string, appId: string, path: string)
    requires prefix != [] && '/' !in prefix
    requires WithoutSlashes(appId + "/" + path) != []
    ensures var rest := DropTrailingSlashes(CollapseSlashes(SkipSlashes(appId + "/" + path)));
      && ScopePath(prefix, appId, path) == "/" + prefix + "/" + rest
      && rest != [] && rest[0] != '/'
  {
    var head := "/" + prefix;
    var x := appId + "/" + path;
    var full := "/" + prefix + "/" + appId + "/" + path;
    assert full == head + ("/" + x);
    assert NoDoubleSlash(head);
    CollapseAppend(head, "/" + x);
    CollapseIdentity(head);
    var y := SkipSlashes(x);
    CollapseAfterSlash(x);
    var cy := CollapseSlashRuns(y);
    assert CollapseSlashRuns(full) == (head + "/") + cy;
    DropTrailingSlashesAppend(head + "/", cy);
    var rest := DropTrailingSlashes(cy);
    assert rest == cy[..|rest|];
  }

  /** A clean relative path is scoped by prefixing it and nothing else. */
  lemma ScopeOfCleanPath(prefix: string, appId: string, path: string)
    requires prefix != [] && '/' !in prefix
    requires appId != [] && '/' !in appId
    requires path != [] && path[0] != '/' && NoDoubleSlash(path) && !EndsWithSlash(path)
    ensures ScopePath(prefix, appId, path) == "/" + prefix + "/" + appId + "/" + path
  {
    SegmentIsClean(appId);
    ScopePathUnderPrefix(prefix, appId, path);
    var x := appId + "/" + path;
    JoinPaths(appId, path);
    CollapseIdentity(x);
    assert CollapseSlashes(x) == x;
    assert DropTrailingSlashes(x) == x;
    var head := "/" + prefix + "/";
    ConcatAssoc(head, appId + "/", path);
    ConcatAssoc(head, appId, "/");
  }

  /** A slash at the front of the caller's path makes no difference. */
  lemma ScopeIgnoresLeadingSlash(prefix: string, appId: string, path: string)
    requires appId != [] && !EndsWithSlash(appId)
    requires path == [] || path[0] != '/'
    ensures ScopePath(prefix, appId, "/" + path) == ScopePath(prefix, appId, path)
  {
    var head := "/" + prefix + "/" + appId;
    assert "/" + prefix + "/" + appId + "/" + ("/" + path) == head + ("//" + path);
    assert "/" + prefix + "/" + appId + "/" + path == head + ("/" + path);
    CollapseAppend(head, "//" + path);
    CollapseAppend(head, "/" + path);
    assert ("//" + path)[1..] == "/" + path;
    assert ("/" + path)[1..] == path;
    assert SkipSlashes("//" + path) == path by {
      assert SkipSlashes("//" + path) == SkipSlashes("/" + path) == SkipSlashes(path);
    }
    CollapseStepRun("//" + path);
    CollapseStepChar("/" + path);
  }
}
