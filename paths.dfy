/** The two `posixpath` operations the organizer calls: `os.path.splitext` and `os.path.join`. */
module Paths {
  import opened Text

  /** Some character in `p[lo..hi]` is not a dot. */
  predicate HasNonDot(p: string, lo: int, hi: int)
    requires 0 <= lo && hi <= |p|
  {
    exists i :: lo <= i < hi && p[i] != '.'
  }

  /** `os.path.splitext(p)` on POSIX: the extension starts at the last dot of the last path
      component, unless everything before that dot in the component is a dot too
      (leading dots of a name do not start an extension). */
  function SplitExt(p: string): (r: (string, string))
    ensures r.0 + r.1 == p
    ensures r.1 == [] || (r.1[0] == '.' && '.' !in r.1[1..] && '/' !in r.1)
  {
    var sep := RFind(p, '/');
    var dot := RFind(p, '.');
    if dot > sep && HasNonDot(p, sep + 1, dot) then
      assert p[..dot] + p[dot..] == p;
      (p[..dot], p[dot..])
    else
      (p, [])
  }

  /** The extension part of `splitext`. */
  function Extension(p: string): string
  {
    SplitExt(p).1
  }

  /** The extension is a suffix of the name: empty, or a dot followed by no other dot. */
  lemma ExtensionIsSuffix(p: string)
    ensures |Extension(p)| <= |p| && p[|p| - |Extension(p)|..] == Extension(p)
    ensures Extension(p) == [] || (Extension(p)[0] == '.' && '.' !in Extension(p)[1..])
  {
    var (stem, ext) := SplitExt(p);
    assert p[|stem|..] == ext;
  }

  /** The extension is non-empty exactly when the last component has a dot with a non-dot
      character somewhere before it; it then runs from the last dot to the end. */
  lemma ExtensionNonEmpty(p: string)
    requires '/' !in p
    ensures Extension(p) != [] <==> exists i, j :: 0 <= i < j < |p| && p[i] != '.' && p[j] == '.'
    ensures Extension(p) != [] ==> Extension(p) == p[RFind(p, '.')..]
  {
    var sep := RFind(p, '/');
    var dot := RFind(p, '.');
    assert sep == -1;
    if exists i, j :: 0 <= i < j < |p| && p[i] != '.' && p[j] == '.' {
      var i, j :| 0 <= i < j < |p| && p[i] != '.' && p[j] == '.';
      assert j <= dot;
      assert HasNonDot(p, sep + 1, dot);
    }
    if Extension(p) != [] {
      var i :| sep + 1 <= i < dot && p[i] != '.';
      assert p[i] != '.' && p[dot] == '.';
    }
  }

  /** A name made of a stem that is not all dots and a dot-led suffix without further dots
      has that suffix as its extension (`splitext("a.tar.gz")[1] == ".gz"`). */
  lemma ExtensionOfSuffix(stem: string, ext: string)
    requires '/' !in stem && '/' !in ext
    requires |ext| > 0 && ext[0] == '.' && '.' !in ext[1..]
    requires exists i :: 0 <= i < |stem| && stem[i] != '.'
    ensures Extension(stem + ext) == ext
  {
    var p := stem + ext;
    assert p[|stem|] == '.';
    var dot := RFind(p, '.');
    assert dot == |stem|;
    var i :| 0 <= i < |stem| && stem[i] != '.';
    assert p[i] == stem[i];
    assert HasNonDot(p, 0, dot);
    assert p[dot..] == ext;
  }

  /** A name without a dot has no extension. */
  lemma ExtensionOfDotless(p: string)
    requires '.' !in p
    ensures Extension(p) == []
  {
  }

  /** A name whose only dots lead it (a hidden file such as `.bashrc`) has no extension. */
  lemma ExtensionOfHidden(p: string, k: nat)
    requires '/' !in p && k <= |p|
    requires forall i :: 0 <= i < k ==> p[i] == '.'
    requires '.' !in p[k..]
    ensures Extension(p) == []
  {
  }

  /** `os.path.join(a, b)` on POSIX: an absolute `b` replaces `a`; otherwise a `/` is put
      between them unless `a` is empty or already ends with one. */
  function Join(a: string, b: string): (r: string)
    ensures |b| > 0 && b[0] == '/' ==> r == b
    ensures !(|b| > 0 && b[0] == '/') ==> |r| >= |a| + |b| && r[..|a|] == a && r[|r| - |b|..] == b
    ensures !(|b| > 0 && b[0] == '/') ==> |r| == |a| + |b| || (|r| == |a| + |b| + 1 && r[|a|] == '/')
  {
    if |b| > 0 && b[0] == '/' then b
    else if a == [] || a[|a| - 1] == '/' then a + b
    else a + "/" + b
  }

  /** `os.path.join(a, b, c)` with `b` and `c` relative lies under `a`, one separator or more
      further down, and ends with `c`. */
  lemma JoinUnder(a: string, b: string, c: string)
    requires |b| > 0 && b[0] != '/' && |c| > 0 && c[0] != '/'
    ensures var r := Join(Join(a, b), c);
            && |r| > |a| + |c| && r[..|a|] == a && r[|r| - |c|..] == c
            && '/' in r[|a|..]
  {
    var ab := Join(a, b);
    var r := Join(ab, c);
    assert r[..|ab|] == ab;
    assert r[..|a|] == ab[..|a|];
    if |r| == |ab| + |c| {
      assert ab == [] || ab[|ab| - 1] == '/';
      assert ab[|ab| - 1] == '/';
      assert r[|a|..][|ab| - 1 - |a|] == '/';
    } else {
      assert r[|a|..][|ab| - |a|] == '/';
    }
  }
}
