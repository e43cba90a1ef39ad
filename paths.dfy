/** POSIX path handling as the build uses it: `os.path.join`, the last
    component of a glob result, and the `.md` to `.html` file-name rewrite. */
module Paths {

  predicate StartsWithSlash(s: string)
  {
    |s| > 0 && s[0] == '/'
  }

  predicate EndsWithSlash(s: string)
  {
    |s| > 0 && s[|s| - 1] == '/'
  }

  /** `os.path.join(a, b)`: an absolute right side replaces the left side;
      otherwise a '/' is inserted unless the left side is empty or already ends in '/'. */
  function Join(a: string, b: string): string
  {
    if StartsWithSlash(b) then b
    else if a == "" || EndsWithSlash(a) then a + b
    else a + "/" + b
  }

  /** `Join` with a relative right side keeps both sides and adds at most one separator,
      and only where there was none. */
  lemma JoinRelative(a: string, b: string)
    requires !StartsWithSlash(b)
    ensures exists sep :: (sep == "" || sep == "/") && Join(a, b) == a + sep + b
    ensures a != "" && !EndsWithSlash(a) ==> Join(a, b) == a + "/" + b
    ensures a == "" || EndsWithSlash(a) ==> Join(a, b) == a + b
  {
    if a == "" || EndsWithSlash(a) {
      assert Join(a, b) == a + "" + b;
    }
  }

  /** Joining an empty right side still yields a trailing '/', unless the left side is empty. */
  lemma JoinEmptyRight(a: string)
    ensures a != "" ==> EndsWithSlash(Join(a, ""))
    ensures a == "" ==> Join(a, "") == ""
  {
  }

  /** The text after the last '/' of `p` (all of `p` if it has none): `p.split("/")[-1]`. */
  function Basename(p: string): (r: string)
    ensures '/' !in r
    ensures |r| <= |p| && p[|p| - |r|..] == r
    ensures |r| < |p| ==> p[|p| - |r| - 1] == '/'
  {
    if p == [] then []
    else if p[|p| - 1] == '/' then []
    else Basename(p[..|p| - 1]) + [p[|p| - 1]]
  }

  /** `s` starts with ".md". */
  predicate MdAt(s: string)
  {
    |s| >= 3 && s[0] == '.' && s[1] == 'm' && s[2] == 'd'
  }

  /** `s` contains the substring ".md" somewhere. */
  predicate HasMd(s: string)
  {
    |s| >= 3 && (MdAt(s) || HasMd(s[1..]))
  }

  /** `s.replace(".md", ".html")`: scan left to right, rewriting every non-overlapping ".md". */
  function ReplaceMd(s: string): string
  {
    if |s| < 3 then s
    else if MdAt(s) then ".html" + ReplaceMd(s[3..])
    else [s[0]] + ReplaceMd(s[1..])
  }

  /** A name without ".md" is left as it is. */
  lemma {:induction false} ReplaceMdIdentity(s: string)
    requires !HasMd(s)
    ensures ReplaceMd(s) == s
  {
    if |s| >= 3 {
      ReplaceMdIdentity(s[1..]);
      assert s == [s[0]] + s[1..];
    }
  }

  /** The rewrite keeps the first character (".html" starts with '.' as ".md" does). */
  lemma ReplaceMdHead(s: string)
    requires |s| > 0
    ensures |ReplaceMd(s)| > 0 && ReplaceMd(s)[0] == s[0]
  {
  }

  /** Rewriting distributes over a split point in front of a '.', since no ".md" can straddle it. */
  lemma {:induction false} ReplaceMdConcat(a: string, b: string)
    requires |b| > 0 && b[0] == '.'
    ensures ReplaceMd(a + b) == ReplaceMd(a) + ReplaceMd(b)
    decreases |a|, 1
  {
    if |a| == 0 {
      assert a + b == b && ReplaceMd(a) == [];
      assert ReplaceMd(a) + ReplaceMd(b) == ReplaceMd(b);
    } else if MdAt(a) {
      ReplaceMdConcatMatch(a, b);
    } else {
      ReplaceMdConcatSkip(a, b);
    }
  }

  /** `ReplaceMdConcat` when `a` starts with ".md": so does `a + b`, and both rewrite it. */
  lemma {:induction false} ReplaceMdConcatMatch(a: string, b: string)
    requires MdAt(a) && |b| > 0 && b[0] == '.'
    ensures ReplaceMd(a + b) == ReplaceMd(a) + ReplaceMd(b)
    decreases |a|, 0
  {
    var c := a + b;
    assert MdAt(c);
    assert c[3..] == a[3..] + b;
    ReplaceMdConcat(a[3..], b);
  }

  /** `ReplaceMdConcat` when `a` does not start with ".md": neither does `a + b`, and both copy
      their first character. */
  lemma {:induction false} ReplaceMdConcatSkip(a: string, b: string)
    requires |a| > 0 && !MdAt(a) && |b| > 0 && b[0] == '.'
    ensures ReplaceMd(a + b) == ReplaceMd(a) + ReplaceMd(b)
    decreases |a|, 0
  {
    SkipAcrossSplit(a, b);
    ReplaceMdSkip(a);
    ReplaceMdConcat(a[1..], b);
    var p, q := ReplaceMd(a[1..]), ReplaceMd(b);
    assert [a[0]] + (p + q) == ([a[0]] + p) + q;
  }

  /** Without ".md" at the front of `a`, the rewrite of `a + b` copies `a[0]` and goes on
      with `a[1..] + b`. */
  lemma SkipAcrossSplit(a: string, b: string)
    requires |a| > 0 && !MdAt(a) && |b| > 0 && b[0] == '.'
    ensures ReplaceMd(a + b) == [a[0]] + ReplaceMd(a[1..] + b)
  {
    var c := a + b;
    NoMatchAtSplit(a, b);
    ReplaceMdSkip(c);
    assert c[0] == a[0] && c[1..] == a[1..] + b;
  }

  /** A ".md" at the front of `a + b` would lie in `a` or would need `b` to start with 'm' or 'd'. */
  lemma NoMatchAtSplit(a: string, b: string)
    requires |a| > 0 && |b| > 0 && b[0] == '.' && !MdAt(a)
    ensures !MdAt(a + b)
  {
    var c := a + b;
    if |a| < 3 && |c| >= 3 { assert c[|a|] == '.'; }
  }

  /** Where no ".md" starts, one character is copied. */
  lemma ReplaceMdSkip(a: string)
    requires |a| > 0 && !MdAt(a)
    ensures ReplaceMd(a) == [a[0]] + ReplaceMd(a[1..])
  {
    if |a| < 3 {
      assert a == [a[0]] + a[1..];
    }
  }

  /** A name ending in ".md" with no other ".md" in it becomes its stem plus ".html". */
  lemma OutNameOfMdFile(stem: string)
    requires !HasMd(stem)
    ensures ReplaceMd(stem + ".md") == stem + ".html"
  {
    ReplaceMdConcat(stem, ".md");
    ReplaceMdIdentity(stem);
  }

  /** After the rewrite no ".md" is left: `replace` rewrites every occurrence. */
  lemma {:induction false} ReplaceMdComplete(s: string)
    ensures !HasMd(ReplaceMd(s))
  {
    if |s| < 3 {
    } else if MdAt(s) {
      var rest := ReplaceMd(s[3..]);
      ReplaceMdComplete(s[3..]);
      NoMdAfterHtml(rest);
    } else {
      var rest := ReplaceMd(s[1..]);
      ReplaceMdComplete(s[1..]);
      ReplaceMdHead(s[1..]);
      var r := [s[0]] + rest;
      assert r[1..] == rest;
    }
  }

  /** ".html" followed by text without ".md" has no ".md": its only '.' is followed by 'h'. */
  lemma NoMdAfterHtml(rest: string)
    requires !HasMd(rest)
    ensures !HasMd(".html" + rest)
  {
    var r := ".html" + rest;
    assert r[1..] == "html" + rest;
    assert r[2..] == "tml" + rest;
    assert r[3..] == "ml" + rest;
    assert r[4..] == "l" + rest;
    assert r[5..] == rest;
    assert !HasMd(r[4..]) by { if |r[4..]| >= 3 { assert r[4..][0] == 'l'; } }
    assert !HasMd(r[3..]) by { if |r[3..]| >= 3 { assert r[3..][0] == 'm'; } }
    assert !HasMd(r[2..]);
    assert !HasMd(r[1..]);
  }
}
