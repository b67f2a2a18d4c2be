/** Python's `str.strip()`, used on the output of every external command
    the tool runs. */
module Text {

  /** `str.isspace()` for one character: the characters Python's `str.strip()`
      removes when called without arguments. */
  predicate IsSpace(c: char) {
    || '\U{0009}' <= c <= '\U{000D}'
    || '\U{001C}' <= c <= '\U{0020}'
    || c == '\U{0085}' || c == '\U{00A0}' || c == '\U{1680}'
    || '\U{2000}' <= c <= '\U{200A}'
    || c == '\U{2028}' || c == '\U{2029}' || c == '\U{202F}' || c == '\U{205F}' || c == '\U{3000}'
  }

  /** `str.lstrip()`: the longest suffix of `s` that does not start with
      whitespace. */
  function StripStart(s: string): (r: string)
    ensures |r| <= |s| && r == s[|s| - |r|..]
    ensures r == [] || !IsSpace(r[0])
    ensures forall i :: 0 <= i < |s| - |r| ==> IsSpace(s[i])
  {
    if s != [] && IsSpace(s[0]) then StripStart(s[1..]) else s
  }

  /** `str.rstrip()`: the longest prefix of `s` that does not end with
      whitespace. */
  function StripEnd(s: string): (r: string)
    ensures |r| <= |s| && r == s[..|r|]
    ensures r == [] || !IsSpace(r[|r| - 1])
    ensures forall i :: |r| <= i < |s| ==> IsSpace(s[i])
  {
    if s != [] && IsSpace(s[|s| - 1]) then StripEnd(s[..|s| - 1]) else s
  }

  /** `str.strip()`: whitespace removed from both ends, nothing else. */
  function Strip(s: string): (r: string)
    ensures |r| <= |s|
  {
    StripEnd(StripStart(s))
  }

  /** Neither end of a stripped string is whitespace. */
  lemma StripTrimsBothEnds(s: string)
    ensures var r := Strip(s); r == [] || (!IsSpace(r[0]) && !IsSpace(r[|r| - 1]))
  {
    var t := StripStart(s);
    assert t == [] || !IsSpace(t[0]);
  }

  /** What is kept is the run of `s` starting after its leading
      whitespace, and everything before and after that run is whitespace. */
  lemma StripKeepsMiddle(s: string)
    ensures var r := Strip(s); var i := |s| - |StripStart(s)|;
      && i + |r| <= |s| && r == s[i..i + |r|]
      && (forall k :: 0 <= k < i ==> IsSpace(s[k]))
      && (forall k :: i + |r| <= k < |s| ==> IsSpace(s[k]))
  {
    var t := StripStart(s);
    var r := StripEnd(t);
    var i := |s| - |t|;
    assert t == s[i..];
    forall k | i + |r| <= k < |s| ensures IsSpace(s[k]) {
      assert s[k] == t[k - i];
    }
  }

  /** Stripping twice is stripping once. */
  lemma StripIdempotent(s: string)
    ensures Strip(Strip(s)) == Strip(s)
  {
    var r := Strip(s);
    assert StripStart(r) == r;
    assert StripEnd(r) == r;
  }
}

/** The `os.path` functions (POSIX flavour) that decide which directory
    entries are provisioning profiles. */
module Paths {

  /** The index of the last `c` in `s`, or -1 (`str.rfind`). */
  function LastIndex(s: string, c: char): (r: int)
    ensures -1 <= r < |s|
    ensures r == -1 <==> c !in s
    ensures r >= 0 ==> s[r] == c
    ensures forall k :: r < k < |s| ==> s[k] != c
  {
    if s == [] then -1
    else if s[|s| - 1] == c then |s| - 1
    else LastIndex(s[..|s| - 1], c)
  }

  /** `os.path.join(a, b)` for two components. */
  function Join(a: string, b: string): string {
    if |b| > 0 && b[0] == '/' then b
    else if a == "" || a[|a| - 1] == '/' then a + b
    else a + "/" + b
  }

  /** `os.path.basename(p)`: what follows the last separator. */
  function BaseName(p: string): (r: string)
    ensures '/' !in r
    ensures |r| <= |p| && r == p[|p| - |r|..]
    ensures |r| == |p| || p[|p| - |r| - 1] == '/'
  {
    var r := p[LastIndex(p, '/') + 1..];
    assert forall k :: 0 <= k < |r| ==> r[k] == p[LastIndex(p, '/') + 1 + k];
    r
  }

  /** Joining a directory to an entry name gives a path whose base name
      is that entry name. */
  lemma BaseNameOfJoin(dir: string, name: string)
    requires IsEntryName(name)
    ensures BaseName(Join(dir, name)) == name
  {
    var pre := if dir == "" || dir[|dir| - 1] == '/' then dir else dir + "/";
    assert Join(dir, name) == pre + name;
    assert pre == [] || pre[|pre| - 1] == '/';
    LastIndexConcat(pre, name, '/');
    assert (pre + name)[|pre|..] == name;
  }

  /** True iff `s` contains some character other than a dot. */
  predicate HasNonDot(s: string) {
    exists k :: 0 <= k < |s| && s[k] != '.'
  }

  /** `os.path.splitext(p)`: the extension starts at the last dot of the
      last path component, unless everything before that dot in the
      component is dots (a leading-dot name has no extension). */
  function SplitExt(p: string): (string, string) {
    var sep := LastIndex(p, '/');
    var dot := LastIndex(p, '.');
    if dot > sep && HasNonDot(p[sep + 1..dot]) then (p[..dot], p[dot..])
    else (p, [])
  }

  /** The two parts put back together are the path, and a non-empty
      extension starts with its dot. */
  lemma SplitExtParts(p: string)
    ensures SplitExt(p).0 + SplitExt(p).1 == p
    ensures SplitExt(p).1 == [] || SplitExt(p).1[0] == '.'
  {
    var dot := LastIndex(p, '.');
    if dot > LastIndex(p, '/') && HasNonDot(p[LastIndex(p, '/') + 1..dot]) {
      assert p[..dot] + p[dot..] == p;
    }
  }

  /** The extension part of `os.path.splitext`. */
  function Ext(p: string): string {
    SplitExt(p).1
  }

  /** A name `os.listdir` can return: non-empty, with no separator. */
  predicate IsEntryName(e: string) {
    e != [] && '/' !in e
  }

  /** An extension such as `.mobileprovision`: one leading dot and no
      other dot or separator. */
  predicate IsExtension(x: string) {
    |x| > 0 && x[0] == '.' && forall k :: 1 <= k < |x| ==> x[k] != '.' && x[k] != '/'
  }

  lemma {:induction false} LastIndexConcat(a: string, b: string, c: char)
    ensures LastIndex(a + b, c) == if c in b then |a| + LastIndex(b, c) else LastIndex(a, c)
    decreases |b|
  {
    if b != [] {
      var ab := a + b;
      assert ab[..|ab| - 1] == a + b[..|b| - 1];
      if b[|b| - 1] != c {
        assert c in b <==> c in b[..|b| - 1] by {
          assert b == b[..|b| - 1] + [b[|b| - 1]];
        }
        LastIndexConcat(a, b[..|b| - 1], c);
      }
    } else {
      assert a + b == a;
    }
  }

  /** Joining a directory to an entry name does not change the extension:
      `splitext` only looks at the last component. */
  lemma ExtOfJoin(dir: string, e: string)
    requires IsEntryName(e)
    ensures Ext(Join(dir, e)) == Ext(e)
  {
    if dir == "" || dir[|dir| - 1] == '/' {
      assert Join(dir, e) == dir + e;
      ExtAfterSeparator(dir, e);
    } else {
      assert Join(dir, e) == (dir + "/") + e;
      ExtAfterSeparator(dir + "/", e);
    }
  }

  /** Behind a prefix ending in a separator, an entry name keeps its
      extension. */
  lemma ExtAfterSeparator(pre: string, e: string)
    requires pre == "" || pre[|pre| - 1] == '/'
    requires IsEntryName(e)
    ensures Ext(pre + e) == Ext(e)
  {
    LastIndexConcat(pre, e, '/');
    LastIndexConcat(pre, e, '.');
    if '.' in e {
      DottedAfterSeparator(pre, e);
    } else {
      assert LastIndex(e, '.') == -1;
    }
  }

  /** The dotted case of `ExtAfterSeparator`: both last dots are the same
      character, with the same stem before them. */
  lemma DottedAfterSeparator(pre: string, e: string)
    requires IsEntryName(e) && '.' in e
    requires LastIndex(pre + e, '/') == |pre| - 1
    requires LastIndex(pre + e, '.') == |pre| + LastIndex(e, '.')
    ensures Ext(pre + e) == Ext(e)
  {
    var p := pre + e;
    var de := LastIndex(e, '.');
    assert LastIndex(e, '/') == -1;
    assert p[|pre|..|pre| + de] == e[..de];
    assert p[|pre| + de..] == e[de..];
  }

  /** A bare entry name has extension `x` exactly when it ends in `x` and
      what comes before is not made of dots only (so `.mobileprovision`
      and `..mobileprovision` have none). */
  lemma EntryExtension(e: string, x: string)
    requires IsEntryName(e) && IsExtension(x)
    ensures Ext(e) == x <==> |e| >= |x| && e[|e| - |x|..] == x && HasNonDot(e[..|e| - |x|])
  {
    var dot := LastIndex(e, '.');
    if |e| >= |x| && e[|e| - |x|..] == x {
      var d := |e| - |x|;
      assert e[d] == x[0];
      forall k | d < k < |e| ensures e[k] != '.' {
        assert e[k] == x[k - d];
      }
      assert dot == d;
    }
  }
}
