// The four-pass path clean-up of the transport client
// (BaseClient.sanitizePath, src/base_client.ts:114-120). Each pass is one
// JavaScript `String.prototype.replace` with a regular expression; a global
// pass scans left to right and replaces non-overlapping matches once.

module PathSanitizer {

  /** No two adjacent slashes anywhere in `s`. */
  predicate NoDoubleSlash(s: string)
  {
    forall i :: 0 < i < |s| ==> !(s[i - 1] == '/' && s[i] == '/')
  }

  predicate EndsWithSlash(s: string)
  {
    s != [] && s[|s| - 1] == '/'
  }

  /** Pass 1, `replace(/\/ /g, "/")`: every non-overlapping "/ " becomes "/". */
  function ReplaceSlashSpace(s: string): (r: string)
    ensures |r| <= |s|
    ensures ' ' !in s ==> r == s
  {
    if |s| >= 2 && s[0] == '/' && s[1] == ' ' then
      "/" + ReplaceSlashSpace(s[2..])
    else if s == [] then
      []
    else
      [s[0]] + ReplaceSlashSpace(s[1..])
  }

  /** The characters of `s` other than spaces, in order. */
  function WithoutSpaces(s: string): string
  {
    if s == [] then [] else (if s[0] == ' ' then [] else [s[0]]) + WithoutSpaces(s[1..])
  }

  /** Pass 1 removes spaces and nothing else: the other characters stay, in order. */
  lemma {:induction false} ReplaceKeepsNonSpaces(s: string)
    ensures WithoutSpaces(ReplaceSlashSpace(s)) == WithoutSpaces(s)
    decreases |s|
  {
    if |s| >= 2 && s[0] == '/' && s[1] == ' ' {
      ReplaceKeepsNonSpaces(s[2..]);
      var r := ReplaceSlashSpace(s[2..]);
      assert ("/" + r)[1..] == r;
      assert s[1..][1..] == s[2..];
      assert WithoutSpaces(s[1..]) == WithoutSpaces(s[2..]);
    } else if s != [] {
      ReplaceKeepsNonSpaces(s[1..]);
      assert ([s[0]] + ReplaceSlashSpace(s[1..]))[1..] == ReplaceSlashSpace(s[1..]);
    }
  }

  /**
   * Pass 1 splits over a joint that is not followed by a space: no match
   * "/ " straddles it.
   */
  lemma {:induction false} ReplaceAppend(a: string, t: string)
    requires t == [] || t[0] != ' '
    ensures ReplaceSlashSpace(a + t) == ReplaceSlashSpace(a) + ReplaceSlashSpace(t)
    decreases |a|
  {
    var s := a + t;
    if a == [] {
      assert s == t;
    } else if |a| >= 2 && a[0] == '/' && a[1] == ' ' {
      assert s[0] == '/' && s[1] == ' ';
      assert s[2..] == a[2..] + t;
      ReplaceAppend(a[2..], t);
      ConcatAssoc("/", ReplaceSlashSpace(a[2..]), ReplaceSlashSpace(t));
    } else {
      assert s[0] == a[0];
      assert |a| >= 2 ==> s[1] == a[1];
      assert !(|s| >= 2 && s[0] == '/' && s[1] == ' ');
      assert s[1..] == a[1..] + t;
      ReplaceAppend(a[1..], t);
      ConcatAssoc([a[0]], ReplaceSlashSpace(a[1..]), ReplaceSlashSpace(t));
    }
  }

  /**
   * A space that does not follow a slash is no match of "/ " and stays,
   * whatever comes after it.
   */
  lemma {:induction false} ReplaceKeepsOtherSpace(a: string, b: string)
    requires a == [] || a[|a| - 1] != '/'
    ensures ReplaceSlashSpace(a + " " + b) == ReplaceSlashSpace(a) + " " + ReplaceSlashSpace(b)
    decreases |a|
  {
    var s := a + " " + b;
    if a == [] {
      assert s == " " + b;
      assert s[1..] == b;
    } else if |a| >= 2 && a[0] == '/' && a[1] == ' ' {
      assert s[0] == '/' && s[1] == ' ';
      assert s[2..] == a[2..] + " " + b;
      ReplaceKeepsOtherSpace(a[2..], b);
      ConcatAssoc("/", ReplaceSlashSpace(a[2..]), " ");
      ConcatAssoc("/", ReplaceSlashSpace(a[2..]) + " ", ReplaceSlashSpace(b));
    } else {
      assert s[0] == a[0];
      assert |a| >= 2 ==> s[1] == a[1];
      assert |a| == 1 ==> a[0] != '/';
      assert !(|s| >= 2 && s[0] == '/' && s[1] == ' ');
      assert s[1..] == a[1..] + " " + b;
      ReplaceKeepsOtherSpace(a[1..], b);
      ConcatAssoc([a[0]], ReplaceSlashSpace(a[1..]), " ");
      ConcatAssoc([a[0]], ReplaceSlashSpace(a[1..]) + " ", ReplaceSlashSpace(b));
    }
  }

  /** Every matched "/ " loses its space, whatever comes before it. */
  lemma ReplaceSlashSpaceAt(a: string, b: string)
    ensures ReplaceSlashSpace(a + "/ " + b) == ReplaceSlashSpace(a) + "/" + ReplaceSlashSpace(b)
  {
    assert a + "/ " + b == a + ("/ " + b);
    ReplaceAppend(a, "/ " + b);
    assert ("/ " + b)[2..] == b;
    ConcatAssoc(ReplaceSlashSpace(a), "/", ReplaceSlashSpace(b));
  }

  /** Pass 2, `replace(/ $/, "")`: one space at the very end is dropped. */
  function DropTrailingSpace(s: string): (r: string)
    ensures s == r || s == r + " "
    ensures ' ' !in s ==> r == s
    ensures r == s <==> s == [] || s[|s| - 1] != ' '
  {
    if s != [] && s[|s| - 1] == ' ' then s[..|s| - 1] else s
  }

  /** The suffix of `s` after its leading run of slashes. */
  function SkipSlashes(s: string): (r: string)
    ensures |r| <= |s|
    ensures r == [] || r[0] != '/'
    ensures s != [] && s[0] == '/' ==> |r| < |s|
    ensures s != [] && s[|s| - 1] != '/' ==> r != [] && r[|r| - 1] == s[|s| - 1]
  {
    if s != [] && s[0] == '/' then SkipSlashes(s[1..]) else s
  }

  lemma {:induction false} SkipSlashesSuffix(s: string)
    ensures SkipSlashes(s) == s[|s| - |SkipSlashes(s)|..]
  {
    if s != [] && s[0] == '/' {
      SkipSlashesSuffix(s[1..]);
    }
  }

  /**
   * Pass 3, `replace(/[\/]{2,}/g, "/")`: every maximal run of two or more
   * slashes becomes a single slash (the quantifier is greedy).
   */
  function CollapseSlashRuns(s: string): (r: string)
    ensures s != [] ==> r != [] && r[0] == s[0]
    ensures |r| <= |s|
    decreases |s|
  {
    if |s| >= 2 && s[0] == '/' && s[1] == '/' then
      "/" + CollapseSlashRuns(SkipSlashes(s))
    else if s == [] then
      []
    else
      [s[0]] + CollapseSlashRuns(s[1..])
  }

  lemma NoDoubleSlashCons(c: char, t: string)
    requires NoDoubleSlash(t)
    requires c == '/' ==> t == [] || t[0] != '/'
    ensures NoDoubleSlash([c] + t)
  {
    var s := [c] + t;
    forall i | 0 < i < |s| ensures !(s[i - 1] == '/' && s[i] == '/') {
      if i > 1 {
        assert s[i - 1] == t[i - 2] && s[i] == t[i - 1];
      }
    }
  }

  lemma NoDoubleSlashTail(s: string)
    requires s != [] && NoDoubleSlash(s)
    ensures NoDoubleSlash(s[1..])
  {
    var t := s[1..];
    forall i | 0 < i < |t| ensures !(t[i - 1] == '/' && t[i] == '/') {
      assert t[i - 1] == s[i] && t[i] == s[i + 1];
    }
  }

  /** After pass 3 no two slashes are adjacent. */
  lemma {:induction false} CollapseNoDoubleSlash(s: string)
    ensures NoDoubleSlash(CollapseSlashRuns(s))
    decreases |s|
  {
    if |s| >= 2 && s[0] == '/' && s[1] == '/' {
      var t := SkipSlashes(s);
      CollapseNoDoubleSlash(t);
      NoDoubleSlashCons('/', CollapseSlashRuns(t));
    } else if s != [] {
      CollapseNoDoubleSlash(s[1..]);
      NoDoubleSlashCons(s[0], CollapseSlashRuns(s[1..]));
    }
  }

  /** Pass 3 leaves a string without doubled slashes unchanged. */
  lemma {:induction false} CollapseIdentity(s: string)
    requires NoDoubleSlash(s)
    ensures CollapseSlashRuns(s) == s
    decreases |s|
  {
    if s != [] {
      assert |s| >= 2 ==> !(s[0] == '/' && s[1] == '/');
      NoDoubleSlashTail(s);
      CollapseIdentity(s[1..]);
    }
  }

  /** Pass 3 only removes slashes, so it adds no space. */
  lemma {:induction false} CollapseSpaceFree(s: string)
    requires ' ' !in s
    ensures ' ' !in CollapseSlashRuns(s)
    decreases |s|
  {
    if |s| >= 2 && s[0] == '/' && s[1] == '/' {
      var t := SkipSlashes(s);
      SkipSlashesSuffix(s);
      assert forall i :: 0 <= i < |t| ==> t[i] == s[|s| - |t| + i];
      CollapseSpaceFree(t);
    } else if s != [] {
      assert forall i :: 0 <= i < |s| - 1 ==> s[1..][i] == s[i + 1];
      CollapseSpaceFree(s[1..]);
    }
  }

  /** The characters of `s` other than slashes, in order. */
  function WithoutSlashes(s: string): string
  {
    if s == [] then [] else (if s[0] == '/' then [] else [s[0]]) + WithoutSlashes(s[1..])
  }

  lemma {:induction false} SkipSlashesKeepsContent(s: string)
    ensures WithoutSlashes(SkipSlashes(s)) == WithoutSlashes(s)
  {
    if s != [] && s[0] == '/' {
      SkipSlashesKeepsContent(s[1..]);
    }
  }

  /** Pass 3 removes slashes and nothing else: the other characters stay, in order. */
  lemma {:induction false} CollapseKeepsContent(s: string)
    ensures WithoutSlashes(CollapseSlashRuns(s)) == WithoutSlashes(s)
    decreases |s|
  {
    if |s| >= 2 && s[0] == '/' && s[1] == '/' {
      var t := SkipSlashes(s);
      CollapseKeepsContent(t);
      SkipSlashesKeepsContent(s);
      assert ("/" + CollapseSlashRuns(t))[1..] == CollapseSlashRuns(t);
    } else if s != [] {
      CollapseKeepsContent(s[1..]);
      assert ([s[0]] + CollapseSlashRuns(s[1..]))[1..] == CollapseSlashRuns(s[1..]);
    }
  }

  /** Pass 4, `replace(/\/$/, "")`: one slash at the very end is dropped. */
  function DropTrailingSlash(s: string): (r: string)
    ensures s == r || s == r + "/"
    ensures !EndsWithSlash(s) ==> r == s
    ensures EndsWithSlash(s) ==> s == r + "/"
    ensures NoDoubleSlash(s) ==> NoDoubleSlash(r) && !EndsWithSlash(r)
  {
    if EndsWithSlash(s) then s[..|s| - 1] else s
  }

  /** The whole clean-up, the four passes in the source's order. */
  function SanitizePath(path: string): (r: string)
    ensures |r| <= |path|
  {
    DropTrailingSlash(CollapseSlashRuns(DropTrailingSpace(ReplaceSlashSpace(path))))
  }

  /** A cleaned-up path has no doubled slash and no trailing slash. */
  lemma SanitizeIsClean(path: string)
    ensures NoDoubleSlash(SanitizePath(path))
    ensures !EndsWithSlash(SanitizePath(path))
  {
    CollapseNoDoubleSlash(DropTrailingSpace(ReplaceSlashSpace(path)));
  }

  /** Without spaces only passes 3 and 4 act, and they add no space. */
  lemma SanitizeWithoutSpaces(path: string)
    requires ' ' !in path
    ensures SanitizePath(path) == DropTrailingSlash(CollapseSlashRuns(path))
    ensures ' ' !in SanitizePath(path)
  {
    CollapseSpaceFree(path);
  }

  /** On a path without spaces the clean-up is idempotent. */
  lemma SanitizeIdempotent(path: string)
    requires ' ' !in path
    ensures SanitizePath(SanitizePath(path)) == SanitizePath(path)
  {
    var r := SanitizePath(path);
    SanitizeWithoutSpaces(path);
    SanitizeWithoutSpaces(r);
    SanitizeIsClean(path);
    CollapseIdentity(r);
  }

  /** A path segment that the clean-up passes leave alone. */
  predicate IsPlainSegment(s: string)
  {
    s != [] && '/' !in s && ' ' !in s
  }

  /**
   * Joining two clean pieces with one slash creates no doubled slash, as long
   * as neither piece has a slash at the joint.
   */
  lemma JoinPaths(a: string, b: string)
    requires a != [] && !EndsWithSlash(a) && NoDoubleSlash(a)
    requires b != [] && b[0] != '/' && NoDoubleSlash(b)
    ensures NoDoubleSlash(a + "/" + b)
    ensures EndsWithSlash(a + "/" + b) == EndsWithSlash(b)
  {
    var s := a + "/" + b;
    forall i | 0 < i < |s| ensures !(s[i - 1] == '/' && s[i] == '/') {
      if i <= |a| {
        assert s[i - 1] == a[i - 1];
      } else if i == |a| + 1 {
        assert s[i] == b[0];
      } else {
        assert s[i - 1] == b[i - |a| - 2] && s[i] == b[i - |a| - 1];
      }
    }
    assert s[|s| - 1] == b[|b| - 1];
  }

  lemma ConcatAssoc(a: string, b: string, c: string)
    ensures a + (b + c) == (a + b) + c
  {
  }

  /** A non-empty segment without slashes is clean and does not touch a neighbouring slash. */
  lemma SegmentIsClean(s: string)
    requires s != [] && '/' !in s
    ensures NoDoubleSlash(s) && s[0] != '/' && !EndsWithSlash(s)
  {
    assert s[0] in s && s[|s| - 1] in s;
  }

  /** Skipping the leading slashes of `a + b` stops inside `a` when `a` ends in a non-slash. */
  lemma {:induction false} SkipSlashesAppend(a: string, b: string)
    requires a != [] && a[|a| - 1] != '/'
    ensures SkipSlashes(a + b) == SkipSlashes(a) + b
  {
    if a[0] == '/' {
      assert |a| > 1;
      assert (a + b)[1..] == a[1..] + b;
      SkipSlashesAppend(a[1..], b);
    } else {
      assert (a + b)[0] == a[0];
    }
  }

  /**
   * Collapsing distributes over a split point that follows a non-slash
   * character: no run of slashes straddles it.
   */
  lemma {:induction false} CollapseAppend(a: string, b: string)
    requires a != [] && a[|a| - 1] != '/'
    ensures CollapseSlashRuns(a + b) == CollapseSlashRuns(a) + CollapseSlashRuns(b)
    decreases |a|, 1
  {
    var ab := a + b;
    assert ab[0] == a[0];
    if |a| == 1 {
      assert ab[1..] == b;
      assert CollapseSlashRuns(ab) == [a[0]] + CollapseSlashRuns(b);
      assert CollapseSlashRuns(a) == [a[0]] + CollapseSlashRuns([]) == [a[0]];
    } else if a[0] == '/' && a[1] == '/' {
      CollapseAppendRun(a, b);
    } else {
      CollapseAppendChar(a, b);
    }
  }

  /** CollapseAppend when `a` starts with a run of two or more slashes. */
  lemma {:induction false} CollapseAppendRun(a: string, b: string)
    requires |a| > 1 && a[|a| - 1] != '/' && a[0] == '/' && a[1] == '/'
    ensures CollapseSlashRuns(a + b) == CollapseSlashRuns(a) + CollapseSlashRuns(b)
    decreases |a|, 0
  {
    var ab := a + b;
    assert ab[0] == a[0] && ab[1] == a[1];
    SkipSlashesAppend(a, b);
    var t := SkipSlashes(a);
    CollapseAppend(t, b);
    CollapseStepRun(ab);
    CollapseStepRun(a);
    ConcatAssoc("/", CollapseSlashRuns(t), CollapseSlashRuns(b));
  }

  /** CollapseAppend when `a` starts with a character that is not part of a run. */
  lemma {:induction false} CollapseAppendChar(a: string, b: string)
    requires |a| > 1 && a[|a| - 1] != '/' && !(a[0] == '/' && a[1] == '/')
    ensures CollapseSlashRuns(a + b) == CollapseSlashRuns(a) + CollapseSlashRuns(b)
    decreases |a|, 0
  {
    var ab := a + b;
    assert ab[0] == a[0] && ab[1] == a[1];
    assert ab[1..] == a[1..] + b;
    CollapseAppend(a[1..], b);
    CollapseStepChar(ab);
    CollapseStepChar(a);
    ConcatAssoc([a[0]], CollapseSlashRuns(a[1..]), CollapseSlashRuns(b));
  }

  /**
   * Joining a clean left part to a clean path that starts with a slash
   * gives a doubled slash at the joint, and the third pass removes it.
   */
  lemma CollapseJoin(a: string, b: string)
    requires a != [] && !EndsWithSlash(a) && NoDoubleSlash(a)
    requires b != [] && b[0] == '/' && NoDoubleSlash(b)
    ensures CollapseSlashRuns(a + "/" + b) == a + b
  {
    assert a + "/" + b == a + ("/" + b);
    CollapseAppend(a, "/" + b);
    CollapseIdentity(a);
    CollapseIdentity(b);
    assert ("/" + b)[1..] == b;
    SkipSlashesOfSlash(b);
    CollapseStepRun("/" + b);
  }

  /** Skipping the run at the front of "/" + b, where b starts with its only leading slash. */
  lemma SkipSlashesOfSlash(b: string)
    requires b != [] && b[0] == '/' && NoDoubleSlash(b)
    ensures SkipSlashes("/" + b) == b[1..]
  {
    assert ("/" + b)[1..] == b;
    assert SkipSlashes("/" + b) == SkipSlashes(b);
    assert SkipSlashes(b) == SkipSlashes(b[1..]);
    if |b| > 1 {
      assert b[1] != '/';
      assert b[1..][0] != '/';
    }
    assert SkipSlashes(b[1..]) == b[1..];
  }

  /**
   * A slash in front of a string with some non-slash character merges with
   * that string's leading run: one slash, then the collapsed remainder.
   */
  lemma CollapseAfterSlash(x: string)
    requires WithoutSlashes(x) != []
    ensures SkipSlashes(x) != [] && SkipSlashes(x)[0] != '/'
    ensures CollapseSlashRuns("/" + x) == "/" + CollapseSlashRuns(SkipSlashes(x))
  {
    SkipSlashesKeepsContent(x);
    assert ("/" + x)[1..] == x;
    if x[0] == '/' {
      CollapseStepRun("/" + x);
      assert SkipSlashes("/" + x) == SkipSlashes(x);
    } else {
      CollapseStepChar("/" + x);
    }
  }

  /** One step of the third pass on a character that does not start a run. */
  lemma CollapseStepChar(s: string)
    requires s != [] && !(|s| >= 2 && s[0] == '/' && s[1] == '/')
    ensures CollapseSlashRuns(s) == [s[0]] + CollapseSlashRuns(s[1..])
  {
  }

  /** One step of the third pass on a run of two or more slashes. */
  lemma CollapseStepRun(s: string)
    requires |s| >= 2 && s[0] == '/' && s[1] == '/'
    ensures CollapseSlashRuns(s) == "/" + CollapseSlashRuns(SkipSlashes(s))
  {
  }
}
