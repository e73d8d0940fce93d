/** String operations of Python's `str` that the organizer relies on. */
module Text {

  /** Python's `a < b` on `str`: code-point lexicographic order (a proper prefix is smaller). */
  predicate LexLess(a: string, b: string)
  {
    if a == [] then b != []
    else if b == [] then false
    else if a[0] != b[0] then a[0] < b[0]
    else LexLess(a[1..], b[1..])
  }

  /** Comparing two concatenations whose first parts have the same length compares
      the first parts, and the second parts only when the first parts are equal. */
  lemma {:induction false} LexLessConcat(a1: string, b1: string, a2: string, b2: string)
    requires |a1| == |a2|
    ensures LexLess(a1 + b1, a2 + b2) <==> LexLess(a1, a2) || (a1 == a2 && LexLess(b1, b2))
  {
    if a1 == [] {
      assert a1 + b1 == b1 && a2 + b2 == b2;
    } else {
      assert (a1 + b1)[0] == a1[0] && (a2 + b2)[0] == a2[0];
      assert (a1 + b1)[1..] == a1[1..] + b1;
      assert (a2 + b2)[1..] == a2[1..] + b2;
      assert a1 == [a1[0]] + a1[1..] && a2 == [a2[0]] + a2[1..];
      LexLessConcat(a1[1..], b1, a2[1..], b2);
    }
  }

  /** Two concatenations with equally long first parts are equal exactly when both parts are. */
  lemma ConcatEq(a1: string, b1: string, a2: string, b2: string)
    requires |a1| == |a2|
    ensures a1 + b1 == a2 + b2 <==> a1 == a2 && b1 == b2
  {
    if a1 + b1 == a2 + b2 {
      assert a1 == (a1 + b1)[..|a1|] && a2 == (a2 + b2)[..|a2|];
      assert b1 == (a1 + b1)[|a1|..] && b2 == (a2 + b2)[|a2|..];
    }
  }

  lemma {:induction false} LexLessIrreflexive(a: string)
    ensures !LexLess(a, a)
  {
    if a != [] {
      LexLessIrreflexive(a[1..]);
    }
  }

  /** `str.lower()` on one character; only ASCII letters are mapped. */
  function LowerChar(c: char): char
  {
    if 'A' <= c <= 'Z' then (c as int + 32) as char else c
  }

  /** `str.lower()`, restricted to the ASCII case mapping. */
  function Lower(s: string): string
  {
    seq(|s|, i requires 0 <= i < |s| => LowerChar(s[i]))
  }

  /** Lowering keeps the length, leaves no upper-case letter, keeps every other character
      where it was, and lowering twice is lowering once. */
  lemma LowerSpec(s: string)
    ensures |Lower(s)| == |s|
    ensures forall i :: 0 <= i < |s| ==> !('A' <= Lower(s)[i] <= 'Z')
    ensures forall i :: 0 <= i < |s| && 'A' <= s[i] <= 'Z' ==> 'a' <= Lower(s)[i] <= 'z' && Lower(s)[i] as int == s[i] as int + 32
    ensures forall i :: 0 <= i < |s| && !('A' <= s[i] <= 'Z') ==> Lower(s)[i] == s[i]
    ensures Lower(Lower(s)) == Lower(s)
  {
  }

  /** `c` and `d` are the same character, or the two cases of one ASCII letter. */
  predicate CaseVariant(c: char, d: char)
  {
    c == d || ('A' <= c <= 'Z' && d as int == c as int + 32) || ('A' <= d <= 'Z' && c as int == d as int + 32)
  }

  /** Lowering gives `t`, a string with no upper-case letter, exactly when `s` spells `t` with
      any of its letters in either case. */
  lemma LowerMatches(s: string, t: string)
    requires forall i :: 0 <= i < |t| ==> !('A' <= t[i] <= 'Z')
    ensures Lower(s) == t <==>
              |s| == |t| && forall i :: 0 <= i < |s| ==>
                s[i] == t[i] || ('a' <= t[i] <= 'z' && s[i] as int == t[i] as int - 32)
  {
    if |s| == |t| && forall i :: 0 <= i < |s| ==> s[i] == t[i] || ('a' <= t[i] <= 'z' && s[i] as int == t[i] as int - 32) {
      forall i | 0 <= i < |s|
        ensures Lower(s)[i] == t[i]
      {
        if s[i] != t[i] {
          assert 'A' <= s[i] <= 'Z';
        }
      }
    }
  }

  /** Strings that differ only in the case of their letters lower to the same string. */
  lemma LowerIgnoresCase(s: string, t: string)
    requires |s| == |t| && forall i :: 0 <= i < |s| ==> CaseVariant(s[i], t[i])
    ensures Lower(s) == Lower(t)
  {
    forall i | 0 <= i < |s|
      ensures Lower(s)[i] == Lower(t)[i]
    {
      assert CaseVariant(s[i], t[i]);
    }
  }

  /** `str.rfind(c)`: the last index holding `c`, or -1 when there is none. */
  function RFind(s: string, c: char): (r: int)
    ensures -1 <= r < |s|
    ensures r >= 0 ==> s[r] == c
    ensures forall j :: r < j < |s| ==> s[j] != c
  {
    if s == [] then -1
    else if s[|s| - 1] == c then |s| - 1
    else RFind(s[..|s| - 1], c)
  }

  /** `s.split(' ')[0]`: the text before the first space, or all of `s` when it has none. */
  function BeforeSpace(s: string): (r: string)
    ensures |r| <= |s| && r == s[..|r|]
    ensures ' ' !in r
    ensures |r| == |s| || s[|r|] == ' '
  {
    if s == [] || s[0] == ' ' then []
    else [s[0]] + BeforeSpace(s[1..])
  }

  /** What comes before the first space of `a + " " + b` is `a`, when `a` has no space. */
  lemma BeforeSpaceSplit(a: string, b: string)
    requires ' ' !in a
    ensures BeforeSpace(a + " " + b) == a
  {
    var s := a + " " + b;
    var r := BeforeSpace(s);
    assert s[|a|] == ' ';
    assert r == s[..|a|] == a;
  }

  /** The character of a decimal digit. */
  function DigitChar(d: nat): char
    requires d < 10
  {
    ('0' as int + d) as char
  }

  function Pow10(w: nat): (p: nat)
    ensures p >= 1
  {
    if w == 0 then 1 else 10 * Pow10(w - 1)
  }

  /** `n` written with exactly `w` decimal digits, zero-padded on the left (the `%0wd` of strftime). */
  function Digits(n: nat, w: nat): (r: string)
    ensures |r| == w
  {
    if w == 0 then [] else Digits(n / 10, w - 1) + [DigitChar(n % 10)]
  }

  /** On numbers that fit in `w` digits, the padded decimal strings are ordered as the numbers
      are and are equal exactly when the numbers are. */
  lemma {:induction false} DigitsOrder(a: nat, b: nat, w: nat)
    requires a < Pow10(w) && b < Pow10(w)
    ensures LexLess(Digits(a, w), Digits(b, w)) <==> a < b
    ensures Digits(a, w) == Digits(b, w) <==> a == b
  {
    if w > 0 {
      assert a / 10 < Pow10(w - 1) && b / 10 < Pow10(w - 1);
      DigitsOrder(a / 10, b / 10, w - 1);
      var da, db := [DigitChar(a % 10)], [DigitChar(b % 10)];
      LexLessConcat(Digits(a / 10, w - 1), da, Digits(b / 10, w - 1), db);
      ConcatEq(Digits(a / 10, w - 1), da, Digits(b / 10, w - 1), db);
      assert LexLess(da, db) <==> a % 10 < b % 10;
      assert da == db <==> a % 10 == b % 10;
      assert a == 10 * (a / 10) + a % 10 && b == 10 * (b / 10) + b % 10;
    }
  }

  /** A padded decimal string holds no space. */
  lemma DigitsNoSpace(n: nat, w: nat)
    ensures ' ' !in Digits(n, w)
  {
  }
}
