/** Character and string helpers used by the parsers and URL builders:
    decimal digits, number rendering, ASCII lower-casing and
    JavaScript's `String.prototype.split` on a single character. */
module Text {

  predicate IsDigit(c: char) { '0' <= c <= '9' }

  predicate AllDigits(s: string) { forall i :: 0 <= i < |s| ==> IsDigit(s[i]) }

  function DigitChar(d: nat): char
    requires d < 10
  {
    ('0' as int + d) as char
  }

  /** Value of a string of decimal digits, read most significant first. */
  function DigitsValue(s: string): nat
    requires AllDigits(s)
  {
    if s == [] then 0
    else DigitsValue(s[..|s| - 1]) * 10 + (s[|s| - 1] as int - '0' as int)
  }

  /** Decimal rendering of a natural number, as template literals print it. */
  function NatToString(n: nat): (s: string)
    ensures |s| > 0 && AllDigits(s)
    ensures n > 0 ==> s[0] != '0'
  {
    if n < 10 then [DigitChar(n)] else NatToString(n / 10) + [DigitChar(n % 10)]
  }

  /** Reading back a rendered number gives the number. */
  lemma {:induction false} NatToStringRoundTrip(n: nat)
    ensures DigitsValue(NatToString(n)) == n
  {
    if n >= 10 {
      var s := NatToString(n);
      assert s[..|s| - 1] == NatToString(n / 10);
      NatToStringRoundTrip(n / 10);
    }
  }

  /** Decimal rendering of an integer with a leading '-' when negative. */
  function IntToString(i: int): string
  {
    if i < 0 then "-" + NatToString(-i) else NatToString(i)
  }

  /** `toLowerCase` restricted to ASCII letters; the validated inputs it is
      applied to (display names matching /^[a-zA-Z0-9_]+$/) contain no others. */
  function LowerChar(c: char): char
  {
    if 'A' <= c <= 'Z' then (c as int - 'A' as int + 'a' as int) as char else c
  }

  function Lower(s: string): (r: string)
    ensures |r| == |s|
    ensures forall i :: 0 <= i < |s| ==> r[i] == LowerChar(s[i])
  {
    if s == [] then [] else [LowerChar(s[0])] + Lower(s[1..])
  }

  /** Lower-casing twice is lower-casing once. */
  lemma LowerIdempotent(s: string)
    ensures Lower(Lower(s)) == Lower(s)
  {
    var l := Lower(s);
    assert forall i :: 0 <= i < |l| ==> LowerChar(l[i]) == l[i];
  }

  /** `s.split(sep)` for a one-character separator: the pieces between
      separators, from left to right; there is always at least one piece. */
  function Split(s: string, sep: char): (parts: seq<string>)
    ensures |parts| >= 1
  {
    if s == [] then [""]
    else
      var rest := Split(s[1..], sep);
      if s[0] == sep then [""] + rest else [[s[0]] + rest[0]] + rest[1..]
  }

  lemma {:induction false} SplitWithoutSeparator(s: string, sep: char)
    requires sep !in s
    ensures Split(s, sep) == [s]
  {
    if s != [] {
      assert s[0] != sep by { assert s[0] in s; }
      SplitWithoutSeparator(s[1..], sep);
      assert [s[0]] + s[1..] == s;
    }
  }

  /** Appending a separator and a separator-free piece appends exactly that piece. */
  lemma {:induction false} SplitAppend(p: string, sep: char, q: string)
    requires sep !in q
    ensures Split(p + [sep] + q, sep) == Split(p, sep) + [q]
  {
    if p == [] {
      assert p + [sep] + q == [sep] + q;
      assert ([sep] + q)[1..] == q;
      SplitWithoutSeparator(q, sep);
    } else {
      SplitAppend(p[1..], sep, q);
      assert (p + [sep] + q)[1..] == p[1..] + [sep] + q;
    }
  }

  /** The text after the last `sep` of `s` (all of `s` when there is none). */
  function AfterLast(s: string, sep: char): (t: string)
    ensures sep !in t
    ensures |t| <= |s| && s[|s| - |t|..] == t
    ensures |t| < |s| ==> s[|s| - |t| - 1] == sep
    ensures |t| == |s| ==> sep !in s
  {
    if s == [] then []
    else if s[|s| - 1] == sep then []
    else
      var init := s[..|s| - 1];
      var t := AfterLast(init, sep);
      assert init[|init| - |t|..] + [s[|s| - 1]] == s[|s| - |t| - 1..];
      assert |t| == |init| ==> s == init + [s[|s| - 1]];
      t + [s[|s| - 1]]
  }

  function Last<T>(s: seq<T>): T
    requires |s| > 0
  {
    s[|s| - 1]
  }

  /** `s.split(sep).pop()` is the text after the last separator. */
  lemma {:induction false} LastPieceIsAfterLast(s: string, sep: char)
    ensures Last(Split(s, sep)) == AfterLast(s, sep)
  {
    var t := AfterLast(s, sep);
    if |t| == |s| {
      assert t == s;
      SplitWithoutSeparator(s, sep);
    } else {
      var k := |s| - |t| - 1;
      assert s == s[..k] + [sep] + t;
      SplitAppend(s[..k], sep, t);
    }
  }

  /** `hay.includes(needle)`: needle occurs as a contiguous piece of hay. */
  predicate Includes(hay: string, needle: string)
  {
    needle <= hay || (hay != [] && Includes(hay[1..], needle))
  }

  /** A `contains` filter with `mode: 'insensitive'`. */
  predicate ContainsIgnoringCase(hay: string, needle: string)
  {
    Includes(Lower(hay), Lower(needle))
  }
}
