/**
 * The two alias substitutions applied to text before speech synthesis.
 *
 * `pre_format` lowercases the whole text before each alias and matches the
 * lowercased key; the Fish Speech service replaces keys as written, without
 * any lowercasing.  Both apply the aliases one after another in map order,
 * so a later alias sees the output of the earlier ones.
 */
module Aliases {
  import opened PyStr
  import opened PyDict

  /** The text after the first `n` aliases of `pre_format`. */
  function Lowered(s: string, alias: Dict<string, string>, n: nat): string
    requires n <= |alias|
  {
    if n == 0 then s else Replace(Lower(Lowered(s, alias, n - 1)), Lower(alias[n - 1].0), alias[n - 1].1)
  }

  /** `pre_format`: without aliases the text is returned as is; otherwise every alias is applied in turn. */
  function PreFormatSpec(s: string, alias: Dict<string, string>): string {
    if alias == [] then s else Lowered(s, alias, |alias|)
  }

  /** The loop of `pre_format`. */
  method PreFormat(s: string, alias: Dict<string, string>) returns (r: string)
    ensures r == PreFormatSpec(s, alias)
    ensures alias == [] ==> r == s
    ensures |alias| == 1 ==> r == Replace(Lower(s), Lower(alias[0].0), alias[0].1)
  {
    if alias == [] {
      return s;
    }
    r := s;
    var i := 0;
    while i < |alias|
      invariant 0 <= i <= |alias|
      invariant r == Lowered(s, alias, i)
    {
      var (k, v) := alias[i];
      r := Replace(Lower(r), Lower(k), v);
      i := i + 1;
    }
  }

  /**
   * With a non-empty alias map none of whose (lowercased, non-empty) keys
   * occurs in the lowercased text, `pre_format` only lowercases it.
   */
  lemma {:induction false} PreFormatNoMatch(s: string, alias: Dict<string, string>)
    requires alias != []
    requires forall i :: 0 <= i < |alias| ==> Lower(alias[i].0) != [] && !Contains(Lower(s), Lower(alias[i].0))
    ensures PreFormatSpec(s, alias) == Lower(s)
  {
    LoweredNoMatch(s, alias, |alias|);
  }

  lemma {:induction false} LoweredNoMatch(s: string, alias: Dict<string, string>, n: nat)
    requires 1 <= n <= |alias|
    requires forall i :: 0 <= i < |alias| ==> Lower(alias[i].0) != [] && !Contains(Lower(s), Lower(alias[i].0))
    ensures Lowered(s, alias, n) == Lower(s)
  {
    LowerFacts(s);
    if n == 1 {
      ReplaceAbsent(Lower(s), Lower(alias[0].0), alias[0].1);
    } else {
      LoweredNoMatch(s, alias, n - 1);
      ReplaceAbsent(Lower(s), Lower(alias[n - 1].0), alias[n - 1].1);
    }
  }

  /**
   * Every alias pass lowercases the text first, so what earlier aliases
   * inserted is lowercased again: the result has no uppercase letter unless
   * the last alias's value has one.
   */
  lemma {:induction false} PreFormatOnlyLastKeepsCase(s: string, alias: Dict<string, string>)
    requires alias != [] && NoUpper(alias[|alias| - 1].1)
    ensures NoUpper(PreFormatSpec(s, alias))
  {
    var n := |alias|;
    var before := Lowered(s, alias, n - 1);
    LowerFacts(before);
    ReplaceNoUpper(Lower(before), Lower(alias[n - 1].0), alias[n - 1].1);
  }

  /** Key matching of `pre_format` ignores case: an alias for "abc" rewrites "ABC". */
  lemma PreFormatIgnoresCase()
    ensures PreFormatSpec("ABC", [("abc", "x")]) == "x"
  {
    var abc := "abc";
    assert Lower("ABC") == abc by {
      assert LowerChar('A') == 'a' && LowerChar('B') == 'b' && LowerChar('C') == 'c';
    }
    assert Lower(abc) == abc;
    assert abc[..|abc|] == abc && abc[|abc|..] == "";
    assert Replace(abc, abc, "x") == "x" + Replace("", abc, "x");
    assert Lowered("ABC", [("abc", "x")], 1) == Replace(Lower(Lowered("ABC", [("abc", "x")], 0)), Lower(abc), "x");
  }

  /** The text after the first `n` aliases of the Fish Speech service. */
  function Substituted(s: string, alias: Dict<string, string>, n: nat): string
    requires n <= |alias|
  {
    if n == 0 then s else Replace(Substituted(s, alias, n - 1), alias[n - 1].0, alias[n - 1].1)
  }

  /** The alias loop of the Fish Speech service: case-sensitive `str.replace`, one alias after another. */
  method Substitute(s: string, alias: Dict<string, string>) returns (r: string)
    ensures r == Substituted(s, alias, |alias|)
    ensures alias == [] ==> r == s
  {
    r := s;
    for i := 0 to |alias|
      invariant r == Substituted(s, alias, i)
    {
      r := Replace(r, alias[i].0, alias[i].1);
    }
  }

  /** A further alias works on the output of all earlier ones. */
  lemma {:induction false} SubstitutedChains(s: string, alias: Dict<string, string>, k: string, v: string)
    ensures Substituted(s, alias + [(k, v)], |alias| + 1) == Replace(Substituted(s, alias, |alias|), k, v)
  {
    SubstitutedPrefix(s, alias, [(k, v)], |alias|);
  }

  /** The first `n` aliases of a longer map act as the first `n` of any prefix. */
  lemma {:induction false} SubstitutedPrefix(s: string, alias: Dict<string, string>, more: Dict<string, string>, n: nat)
    requires n <= |alias|
    ensures Substituted(s, alias + more, n) == Substituted(s, alias, n)
  {
    if n > 0 {
      SubstitutedPrefix(s, alias, more, n - 1);
      assert (alias + more)[n - 1] == alias[n - 1];
    }
  }

  /** When no (non-empty) key occurs in the text exactly as written, the Fish Speech substitution changes nothing. */
  lemma {:induction false} SubstitutedNoMatch(s: string, alias: Dict<string, string>, n: nat)
    requires n <= |alias|
    requires forall i :: 0 <= i < |alias| ==> alias[i].0 != [] && !Contains(s, alias[i].0)
    ensures Substituted(s, alias, n) == s
  {
    if n > 0 {
      SubstitutedNoMatch(s, alias, n - 1);
      ReplaceAbsent(s, alias[n - 1].0, alias[n - 1].1);
    }
  }

  /** Key matching of the Fish Speech service is case-sensitive: an alias for "abc" leaves "ABC" alone. */
  lemma FishIsCaseSensitive()
    ensures Substituted("ABC", [("abc", "x")], 1) == "ABC"
  {
    var abc := "ABC";
    forall i | 0 <= i <= |abc|
      ensures !StartsWith(abc[i..], "abc")
    {
      if i == 0 {
        assert abc[0..][0] == 'A';
      }
    }
    SubstitutedNoMatch(abc, [("abc", "x")], 1);
  }
}
