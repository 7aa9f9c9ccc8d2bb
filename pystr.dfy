/**
 * The Python string operations the program relies on, written out:
 * `strip`, `lstrip(c)`, `lower`, `replace`, `startswith`/`endswith`, `in`,
 * `split(sep)[-1]`, `isdigit`, `int(text)` and `str(int)`.
 */
module PyStr {
  import opened Wrappers

  /** The characters for which Python's `str.isspace()` holds; `strip()` removes these. */
  predicate IsSpace(c: char) {
    c == ' ' || ('\t' <= c <= '\r') || ('\U{1c}' <= c <= '\U{1f}') || c == '\U{85}' || c == '\U{a0}'
    || c == '\U{1680}' || ('\U{2000}' <= c <= '\U{200a}') || c == '\U{2028}' || c == '\U{2029}'
    || c == '\U{202f}' || c == '\U{205f}' || c == '\U{3000}'
  }

  /** `s.lstrip()`: drop leading white space. */
  function LStrip(s: string): string {
    if s != [] && IsSpace(s[0]) then LStrip(s[1..]) else s
  }

  /** `lstrip` keeps a suffix that starts with a non-space, and only white space was dropped. */
  lemma {:induction false} LStripSpec(s: string)
    ensures var r := LStrip(s); |r| <= |s| && r == s[|s| - |r|..]
    ensures var r := LStrip(s); r == [] || !IsSpace(r[0])
    ensures var r := LStrip(s); forall i :: 0 <= i < |s| - |r| ==> IsSpace(s[i])
  {
    if s != [] && IsSpace(s[0]) {
      var t := s[1..];
      LStripSpec(t);
      var r := LStrip(t);
      assert LStrip(s) == r;
      assert t[|t| - |r|..] == s[|s| - |r|..];
      forall i | 0 <= i < |s| - |r|
        ensures IsSpace(s[i])
      {
        if i > 0 {
          assert s[i] == t[i - 1];
        }
      }
    }
  }

  /** `s.rstrip()`: drop trailing white space. */
  function RStrip(s: string): string {
    if s != [] && IsSpace(s[|s| - 1]) then RStrip(s[..|s| - 1]) else s
  }

  /** `rstrip` keeps a prefix that ends with a non-space, and only white space was dropped. */
  lemma {:induction false} RStripSpec(s: string)
    ensures var r := RStrip(s); |r| <= |s| && r == s[..|r|]
    ensures var r := RStrip(s); r == [] || !IsSpace(r[|r| - 1])
    ensures var r := RStrip(s); forall i :: |r| <= i < |s| ==> IsSpace(s[i])
  {
    if s != [] && IsSpace(s[|s| - 1]) {
      var t := s[..|s| - 1];
      RStripSpec(t);
      var r := RStrip(t);
      assert RStrip(s) == r;
      assert t[..|r|] == s[..|r|];
      forall i | |r| <= i < |s|
        ensures IsSpace(s[i])
      {
        if i < |t| {
          assert s[i] == t[i];
        }
      }
    }
  }

  /** `s.strip()`. */
  function Strip(s: string): string {
    RStrip(LStrip(s))
  }

  /** `s.lstrip(c)` for a one-character argument: drop every leading `c`. */
  function LStripChar(s: string, c: char): (r: string)
    ensures |r| <= |s| && r == s[|s| - |r|..]
    ensures r == [] || r[0] != c
    ensures forall i :: 0 <= i < |s| - |r| ==> s[i] == c
  {
    if s != [] && s[0] == c then LStripChar(s[1..], c) else s
  }

  predicate StartsWith(s: string, prefix: string) {
    |prefix| <= |s| && s[..|prefix|] == prefix
  }

  predicate EndsWith(s: string, suffix: string) {
    |suffix| <= |s| && s[|s| - |suffix|..] == suffix
  }

  /** A concatenation starts with its first part and ends with its second. */
  lemma ConcatAffixes(a: string, b: string)
    ensures StartsWith(a + b, a) && EndsWith(a + b, b)
  {
    assert (a + b)[..|a|] == a;
    assert (a + b)[|a + b| - |b|..] == b;
  }

  /** Python's `sub in s`. */
  predicate Contains(s: string, sub: string) {
    exists i :: 0 <= i <= |s| && StartsWith(s[i..], sub)
  }

  /** `str.lower()` on the ASCII letters; every other character is kept. */
  function LowerChar(c: char): char {
    if 'A' <= c <= 'Z' then (c as int + 32) as char else c
  }

  function Lower(s: string): (r: string)
    ensures |r| == |s|
  {
    seq(|s|, i requires 0 <= i < |s| => LowerChar(s[i]))
  }

  predicate NoUpper(s: string) {
    forall i :: 0 <= i < |s| ==> !('A' <= s[i] <= 'Z')
  }

  lemma LowerFacts(s: string)
    ensures NoUpper(Lower(s))
    ensures Lower(Lower(s)) == Lower(s)
    ensures NoUpper(s) ==> Lower(s) == s
  {
  }

  /** `rep` before every character of `s` and once more at the end: `s.replace("", rep)`. */
  function InsertEverywhere(s: string, rep: string): string {
    if s == [] then rep else rep + [s[0]] + InsertEverywhere(s[1..], rep)
  }

  /**
   * `s.replace(pat, rep)`: every non-overlapping occurrence of `pat`, scanning
   * from the left, is replaced by `rep`; an empty `pat` matches between every
   * pair of characters and at both ends.
   */
  function Replace(s: string, pat: string, rep: string): string
    decreases |s|
  {
    if pat == [] then InsertEverywhere(s, rep)
    else if |s| < |pat| then s
    else if s[..|pat|] == pat then rep + Replace(s[|pat|..], pat, rep)
    else [s[0]] + Replace(s[1..], pat, rep)
  }

  /** Replacing a pattern that does not occur leaves the text as it is. */
  lemma {:induction false} ReplaceAbsent(s: string, pat: string, rep: string)
    requires pat != [] && !Contains(s, pat)
    ensures Replace(s, pat, rep) == s
    decreases |s|
  {
    if |s| >= |pat| {
      assert s[0..] == s;
      assert !StartsWith(s[0..], pat);
      forall i | 0 <= i <= |s[1..]|
        ensures !StartsWith(s[1..][i..], pat)
      {
        assert s[1..][i..] == s[i + 1..];
      }
      ReplaceAbsent(s[1..], pat, rep);
    }
  }

  lemma {:induction false} InsertEverywhereNoUpper(s: string, rep: string)
    requires NoUpper(s) && NoUpper(rep)
    ensures NoUpper(InsertEverywhere(s, rep))
  {
    if s != [] {
      InsertEverywhereNoUpper(s[1..], rep);
    }
  }

  /** `replace` on text without upper-case letters, with a replacement without them, adds none. */
  lemma {:induction false} ReplaceNoUpper(s: string, pat: string, rep: string)
    requires NoUpper(s) && NoUpper(rep)
    ensures NoUpper(Replace(s, pat, rep))
    decreases |s|
  {
    if pat == [] {
      InsertEverywhereNoUpper(s, rep);
    } else if |s| < |pat| {
    } else if s[..|pat|] == pat {
      ReplaceNoUpper(s[|pat|..], pat, rep);
    } else {
      ReplaceNoUpper(s[1..], pat, rep);
    }
  }

  /** `s.split(sep)[-1]`: what follows the last `sep`, or all of `s` when there is none. */
  function LastSegment(s: string, sep: char): (r: string)
    ensures EndsWith(s, r)
    ensures sep !in r
    ensures |r| < |s| ==> s[|s| - |r| - 1] == sep
  {
    if s == [] then []
    else if s[|s| - 1] == sep then []
    else LastSegment(s[..|s| - 1], sep) + [s[|s| - 1]]
  }

  predicate IsDigit(c: char) {
    '0' <= c <= '9'
  }

  /** `text.isdigit()` on ASCII text: non-empty and digits only. */
  predicate IsDigits(s: string) {
    |s| > 0 && forall i :: 0 <= i < |s| ==> IsDigit(s[i])
  }

  function DigitValue(c: char): nat
    requires IsDigit(c)
  {
    c as int - '0' as int
  }

  function DigitChar(d: nat): (c: char)
    requires d < 10
    ensures IsDigit(c) && DigitValue(c) == d
  {
    ('0' as int + d) as char
  }

  /** The decimal value of a digit string, most significant digit first. */
  function DigitsValue(s: string): nat
    requires forall i :: 0 <= i < |s| ==> IsDigit(s[i])
  {
    if s == [] then 0 else DigitsValue(s[..|s| - 1]) * 10 + DigitValue(s[|s| - 1])
  }

  /** `str(n)` for a natural number: the canonical decimal rendering. */
  function NatToString(n: nat): string
    decreases n
  {
    if n < 10 then [DigitChar(n)] else NatToString(n / 10) + [DigitChar(n % 10)]
  }

  /** `str(i)` for any integer. */
  function IntToString(i: int): string {
    if i < 0 then "-" + NatToString(-i) else NatToString(i)
  }

  /** Reading back the decimal rendering of `n` gives `n`. */
  lemma {:induction false} NatToStringRoundTrip(n: nat)
    ensures IsDigits(NatToString(n))
    ensures DigitsValue(NatToString(n)) == n
    decreases n
  {
    if n >= 10 {
      NatToStringRoundTrip(n / 10);
      var s := NatToString(n);
      assert s[..|s| - 1] == NatToString(n / 10);
    }
  }

  /**
   * PEP 515 digit groups as `int()` reads them: ASCII digits, with single
   * underscores allowed between two digits.
   */
  predicate IsGroupedDigits(s: string) {
    |s| > 0 && IsDigit(s[0]) && IsDigit(s[|s| - 1]) &&
    (forall i :: 0 <= i < |s| ==> IsDigit(s[i]) || s[i] == '_') &&
    (forall i :: 0 <= i < |s| - 1 ==> !(s[i] == '_' && s[i + 1] == '_'))
  }

  /** The characters of `s` other than underscores, in order. */
  function DropUnderscores(s: string): (r: string)
    ensures (forall i :: 0 <= i < |s| ==> IsDigit(s[i]) || s[i] == '_') ==> forall i :: 0 <= i < |r| ==> IsDigit(r[i])
    ensures '_' !in s ==> r == s
  {
    if s == [] then []
    else
      var init := s[..|s| - 1];
      assert forall i :: 0 <= i < |init| ==> init[i] == s[i];
      DropUnderscores(init) + (if s[|s| - 1] == '_' then [] else [s[|s| - 1]])
  }

  /**
   * `int(text)` on a string: white space around an optional sign and
   * grouped ASCII digits; anything else raises ValueError (None here).
   */
  function ParseInt(s: string): (r: Option<int>)
    ensures IsDigits(s) ==> r == Some(DigitsValue(s))
    ensures IsGroupedDigits(s) ==> r == Some(DigitsValue(DropUnderscores(s)))
  {
    var t := Strip(s);
    if t != [] && (t[0] == '+' || t[0] == '-') then
      if IsGroupedDigits(t[1..]) then
        var v: int := DigitsValue(DropUnderscores(t[1..]));
        Some(if t[0] == '-' then -v else v)
      else None
    else if IsGroupedDigits(t) then Some(DigitsValue(DropUnderscores(t)))
    else None
  }

  /** An underscore between two digit runs does not change the number. */
  lemma UnderscoreIgnored(a: string, b: string)
    requires IsDigits(a) && IsDigits(b)
    ensures ParseInt(a + "_" + b) == Some(DigitsValue(a + b))
  {
    var s := a + "_" + b;
    forall i | 0 <= i < |s| - 1
      ensures !(s[i] == '_' && s[i + 1] == '_')
    {
      if i < |a| - 1 {
        assert s[i] == a[i];
      } else if i == |a| - 1 {
        assert s[i] == a[i];
      } else if i == |a| {
        assert s[i + 1] == b[0];
      } else {
        assert s[i] == b[i - |a| - 1];
      }
    }
    assert IsGroupedDigits(s);
    assert DropUnderscores(a + "_" + b) == a + b by {
      DropSplit(a, b);
    }
  }

  lemma {:induction false} DropSplit(a: string, b: string)
    requires IsDigits(a) && IsDigits(b)
    ensures DropUnderscores(a + "_" + b) == a + b
  {
    assert '_' !in a;
    assert '_' !in b;
    var au := a + "_";
    assert au[..|au| - 1] == a;
    assert DropUnderscores(au) == a;
    DropAppend(au, b);
  }

  /** Dropping underscores distributes over concatenation. */
  lemma {:induction false} DropAppend(a: string, b: string)
    ensures DropUnderscores(a + b) == DropUnderscores(a) + DropUnderscores(b)
    decreases |b|
  {
    if b == [] {
      assert a + b == a;
    } else {
      var bi, last := b[..|b| - 1], b[|b| - 1];
      DropAppend(a, bi);
      var ab := a + b;
      assert ab[..|ab| - 1] == a + bi && ab[|ab| - 1] == last;
      var tail := if last == '_' then [] else [last];
      assert DropUnderscores(ab) == DropUnderscores(a + bi) + tail;
      assert DropUnderscores(b) == DropUnderscores(bi) + tail;
    }
  }
}
