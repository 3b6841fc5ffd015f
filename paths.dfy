/**
 * Node's POSIX `path.basename`, `path.dirname` and `path.extname`, as the
 * ingestion code uses them on file paths and upload names.
 */
module Paths {
  import opened Wrappers
  import opened Strings

  /** The last index of `c` in `s`. */
  function LastIndexOf(s: string, c: char): (r: Option<nat>)
    ensures r.Some? ==> r.value < |s|
  {
    if s == [] then None
    else if s[|s| - 1] == c then Some(|s| - 1)
    else LastIndexOf(s[..|s| - 1], c)
  }

  /** `LastIndexOf` finds the last occurrence, and finds one whenever there is one. */
  lemma {:induction false} LastIndexOfSpec(s: string, c: char)
    ensures LastIndexOf(s, c).Some? ==>
      var i := LastIndexOf(s, c).value;
      s[i] == c && c !in s[i + 1..]
    ensures LastIndexOf(s, c).None? <==> c !in s
  {
    if s != [] && s[|s| - 1] != c {
      LastIndexOfSpec(s[..|s| - 1], c);
      assert s == s[..|s| - 1] + [s[|s| - 1]];
    }
  }

  /** `p` without the slashes at its end (the whole of an all-slash path goes). */
  function StripTrailingSlashes(p: string): (r: string)
    ensures r == [] || r[|r| - 1] != '/'
    ensures |r| <= |p| && r == p[..|r|]
  {
    if p != [] && p[|p| - 1] == '/' then StripTrailingSlashes(p[..|p| - 1]) else p
  }

  /** `path.basename(p)`: the last non-empty segment, `""` for an all-slash path. */
  function Basename(p: string): string {
    var q := StripTrailingSlashes(p);
    match LastIndexOf(q, '/')
    case None => q
    case Some(i) => q[i + 1..]
  }

  /** `b` is the whole last segment of `q`: no separator in it, at the end of `q`, after a separator or at the start. */
  predicate IsLastSegment(q: string, b: string) {
    '/' !in b && EndsWith(q, b) && (|b| == |q| || q[|q| - |b| - 1] == '/')
  }

  /**
   * A basename holds no separator and is the end of the path without its
   * trailing slashes, the whole segment after the last separator there.
   */
  lemma BasenameSpec(p: string)
    ensures IsLastSegment(StripTrailingSlashes(p), Basename(p))
  {
    AfterLastSlash(StripTrailingSlashes(p));
  }

  /** What follows the last `/` of any text (all of it when it has none) is its last segment. */
  lemma AfterLastSlash(q: string)
    ensures LastIndexOf(q, '/').None? ==> IsLastSegment(q, q)
    ensures LastIndexOf(q, '/').Some? ==> IsLastSegment(q, q[LastIndexOf(q, '/').value + 1..])
  {
    LastIndexOfSpec(q, '/');
    match LastIndexOf(q, '/')
    case None =>
      assert q[|q| - |q|..] == q;
    case Some(i) =>
      assert |q| - |q[i + 1..]| == i + 1;
  }

  /** A name without separators is its own basename. */
  lemma BasenameOfPlainName(p: string)
    requires p != [] && '/' !in p
    ensures Basename(p) == p
  {
    assert p[|p| - 1] in p;
    assert StripTrailingSlashes(p) == p;
    LastIndexOfSpec(p, '/');
  }

  /**
   * `path.basename(p, suffix)`: the suffix is removed from the basename unless
   * that would leave nothing; a path equal to the suffix gives `""`.
   */
  function BasenameWithout(p: string, suffix: string): string {
    if suffix != [] && p == suffix then ""
    else
      var b := Basename(p);
      if EndsWith(b, suffix) && b != suffix then b[..|b| - |suffix|] else b
  }

  /** Trailing slashes removed from position 1 on: the root slash stays. */
  function StripTrailingSlashesAfterRoot(p: string): (r: string)
    requires p != []
    ensures 1 <= |r| <= |p| && r == p[..|r|]
    ensures |r| == 1 || r[|r| - 1] != '/'
  {
    if |p| >= 2 && p[|p| - 1] == '/' then StripTrailingSlashesAfterRoot(p[..|p| - 1]) else p
  }

  /**
   * `path.dirname(p)`: everything before the last separator that precedes the
   * last segment; `"."` when there is none, `"/"` for a rooted path.
   */
  function Dirname(p: string): string {
    if p == [] then "."
    else
      var q := StripTrailingSlashesAfterRoot(p);
      match LastIndexOf(q[1..], '/')
      case None => if p[0] == '/' then "/" else "."
      case Some(j) => if p[0] == '/' && j == 0 then "//" else p[..j + 1]
  }

  /**
   * `path.extname(p)`: from the last `.` of the basename to its end, or `""`
   * when the basename has no `.`, starts with its only `.` or is `..`.
   */
  function Extname(p: string): (r: string)
    ensures r == [] || (r[0] == '.' && EndsWith(Basename(p), r))
  {
    var b := Basename(p);
    match LastIndexOf(b, '.')
    case None => ""
    case Some(i) =>
      LastIndexOfSpec(b, '.');
      SuffixEndsWith(b, i);
      if i == 0 || b == ".." then "" else b[i..]
  }

  lemma SuffixEndsWith(s: string, i: nat)
    requires i <= |s|
    ensures EndsWith(s, s[i..])
  {
  }

  /** The directory part of `dir/name` is `dir`, for a file name without separators. */
  lemma DirnameOfChild(dir: string, name: string)
    requires dir != [] && dir[|dir| - 1] != '/'
    requires name != [] && '/' !in name
    ensures Dirname(dir + "/" + name) == dir
  {
    var p := dir + "/" + name;
    assert p[..|p| - 1] == dir + "/" + name[..|name| - 1];
    assert StripTrailingSlashesAfterRoot(p) == p;
    var s := p[1..];
    assert s == dir[1..] + "/" + name;
    assert s[|dir| - 1] == '/';
    assert s[|dir|..] == name;
    LastIndexOfAfter(s, |dir| - 1, '/');
    assert p[..|dir|] == dir;
  }

  /** The one occurrence of `c` after which `c` never appears is the last. */
  lemma {:induction false} LastIndexOfAfter(s: string, i: nat, c: char)
    requires i < |s| && s[i] == c && c !in s[i + 1..]
    ensures LastIndexOf(s, c) == Some(i)
  {
    if i < |s| - 1 {
      var t := s[..|s| - 1];
      assert s[|s| - 1] in s[i + 1..];
      assert t[i + 1..] == s[i + 1..|s| - 1];
      LastIndexOfAfter(t, i, c);
    }
  }

  /** An extension is a `.` followed by neither a `.` nor a separator. */
  predicate IsExtension(e: string) {
    e == [] || (e[0] == '.' && '.' !in e[1..] && '/' !in e)
  }

  lemma ExtnameShape(p: string)
    ensures IsExtension(Extname(p))
  {
    var b := Basename(p);
    assert '/' !in b by {
      BasenameSpec(p);
    }
    LastIndexOfSpec(b, '.');
    if LastIndexOf(b, '.').Some? {
      var i := LastIndexOf(b, '.').value;
      if i != 0 && b != ".." {
        assert Extname(p) == b[i..];
        assert b[i..][1..] == b[i + 1..];
        assert forall k | 0 <= k < |b[i..]| :: b[i..][k] == b[i + k];
      }
    }
  }

  /**
   * A file name made of a plain stem (no `.`, no separator) and an extension
   * has that extension: `path.extname("song" + e) == e`.
   */
  lemma ExtnameAfterStem(stem: string, e: string)
    requires stem != [] && '.' !in stem && '/' !in stem
    requires IsExtension(e)
    ensures Extname(stem + e) == e
  {
    var p := stem + e;
    assert '/' !in p by {
      forall k | 0 <= k < |p| ensures p[k] != '/' {
        if k < |stem| { assert p[k] == stem[k]; } else { assert p[k] == e[k - |stem|]; }
      }
    }
    BasenameOfPlainName(p);
    if e == [] {
      assert p == stem;
      LastIndexOfSpec(p, '.');
    } else {
      assert p[|stem|] == '.';
      assert p[|stem| + 1..] == e[1..];
      LastIndexOfAfter(p, |stem|, '.');
      assert p[0] == stem[0] && stem[0] in stem;
      assert p[|stem|..] == e;
    }
  }
}
