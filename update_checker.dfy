/**
 * The update check: version strings are read as a `MAJOR.MINOR.PATCH`
 * prefix after any leading "v"s and compared as triples of numbers; the
 * check consults a cache of the last answer and asks the release API at
 * most once an hour.
 *
 * Times are milliseconds.  The cache file is a field holding its decoded
 * contents; the reply of the release API (or the way the request failed)
 * is an input.
 */
module UpdateChecker {
  import opened Wrappers
  import opened PyStr
  import opened JsonValue

  // ------------------------------------------------------------ versions

  /** `(major, minor, patch)`. */
  datatype Version = Version(major: nat, minor: nat, patch: nat)

  /** The length of the run of ASCII digits `s` starts with. */
  function DigitRun(s: string): (r: nat)
    ensures r <= |s|
    ensures forall i :: 0 <= i < r ==> IsDigit(s[i])
    ensures r < |s| ==> !IsDigit(s[r])
  {
    if s != [] && IsDigit(s[0]) then 1 + DigitRun(s[1..]) else 0
  }

  /** `\d+` at the start of `t`, which is greedy: the number it reads and what follows. */
  function Number(t: string): (r: Option<(nat, string)>)
    ensures r.None? <==> t == [] || !IsDigit(t[0])
  {
    var k := DigitRun(t);
    if k == 0 then None else Some((DigitsValue(t[..k]), t[k..]))
  }

  /** `\d+\.` at the start of `t`: the number and what follows the dot. */
  function NumberDot(t: string): Option<(nat, string)> {
    var n := Number(t);
    if n.Some? && n.value.1 != [] && n.value.1[0] == '.' then Some((n.value.0, n.value.1[1..])) else None
  }

  /**
   * `parse_version`: strip every leading 'v', then match
   * `(\d+)\.(\d+)\.(\d+)` at the start; whatever follows is ignored.  No
   * match raises ValueError.
   */
  function ParseVersion(s: string): (r: Res<Version>)
    ensures r.Err? ==> r.error == ValueError
    ensures var t := LStripChar(s, 'v'); t == [] || !IsDigit(t[0]) ==> r == Err(ValueError)
    ensures var t := LStripChar(s, 'v'); r.Ok? ==> r.value.major == DigitsValue(t[..DigitRun(t)])
  {
    var t := LStripChar(s, 'v');
    var a := NumberDot(t);
    if a.None? then Err(ValueError) else
    var b := NumberDot(a.value.1);
    if b.None? then Err(ValueError) else
    var c := Number(b.value.1);
    if c.None? then Err(ValueError) else
    Ok(Version(a.value.0, b.value.0, c.value.0))
  }

  /** The canonical rendering "MAJOR.MINOR.PATCH". */
  function Render(v: Version): string {
    NatToString(v.major) + "." + NatToString(v.minor) + "." + NatToString(v.patch)
  }

  /** Reading a number from its canonical rendering followed by a non-digit. */
  lemma NumberOfRendering(n: nat, rest: string)
    requires rest == [] || !IsDigit(rest[0])
    ensures Number(NatToString(n) + rest) == Some((n, rest))
  {
    var d := NatToString(n);
    NatToStringRoundTrip(n);
    var t := d + rest;
    DigitRunOf(d, rest);
    assert t[..|d|] == d && t[|d|..] == rest;
  }

  lemma NumberDotOfRendering(n: nat, rest: string)
    ensures NumberDot(NatToString(n) + "." + rest) == Some((n, rest))
  {
    assert NatToString(n) + "." + rest == NatToString(n) + ("." + rest);
    NumberOfRendering(n, "." + rest);
    assert ("." + rest)[1..] == rest;
  }

  lemma {:induction false} DigitRunOf(d: string, rest: string)
    requires forall i :: 0 <= i < |d| ==> IsDigit(d[i])
    requires rest == [] || !IsDigit(rest[0])
    ensures DigitRun(d + rest) == |d|
  {
    if d != [] {
      assert (d + rest)[1..] == d[1..] + rest;
      DigitRunOf(d[1..], rest);
    }
  }

  /**
   * A rendered version, with any text after it that does not continue the
   * last number ("-beta", " (build 7)", ...), reads back as that version.
   */
  lemma ParseRendered(v: Version, suffix: string)
    requires suffix == [] || !IsDigit(suffix[0])
    ensures ParseVersion(Render(v) + suffix) == Ok(v)
  {
    var a, b, c := NatToString(v.major), NatToString(v.minor), NatToString(v.patch);
    var t1, t2 := b + "." + (c + suffix), c + suffix;
    var s := a + "." + t1;
    RenderParts(v, suffix);
    NoLeadingV(v.major, "." + t1);
    assert a + "." + t1 == a + ("." + t1);
    NumberDotOfRendering(v.major, t1);
    NumberDotOfRendering(v.minor, t2);
    NumberOfRendering(v.patch, suffix);
    ParseOfParts(s, t1, t2, suffix, v);
  }

  /** `parse_version` from the three matches it makes. */
  lemma ParseOfParts(s: string, t1: string, t2: string, rest: string, v: Version)
    requires LStripChar(s, 'v') == s
    requires NumberDot(s) == Some((v.major, t1)) && NumberDot(t1) == Some((v.minor, t2))
    requires Number(t2) == Some((v.patch, rest))
    ensures ParseVersion(s) == Ok(v)
  {
  }

  /** The groups of a match of `(\d+)\.(\d+)\.(\d+)`: three digit strings, and a rest that the greedy last group leaves. */
  predicate VersionFields(a: string, b: string, c: string, rest: string) {
    IsDigits(a) && IsDigits(b) && IsDigits(c) && (rest == [] || !IsDigit(rest[0]))
  }

  /** The text such a match reads: "a.b.c" followed by the rest. */
  function Joined(a: string, b: string, c: string, rest: string): string {
    a + "." + b + "." + c + rest
  }

  /** `\d+` reads a whole digit string followed by a non-digit, with its value. */
  lemma NumberOfDigits(d: string, rest: string)
    requires IsDigits(d) && (rest == [] || !IsDigit(rest[0]))
    ensures Number(d + rest) == Some((DigitsValue(d), rest))
  {
    var t := d + rest;
    DigitRunOf(d, rest);
    assert t[..|d|] == d && t[|d|..] == rest;
  }

  /** `\d+\.` reads a whole digit string and the dot after it. */
  lemma NumberDotOfDigits(d: string, rest: string)
    requires IsDigits(d)
    ensures NumberDot(d + "." + rest) == Some((DigitsValue(d), rest))
  {
    assert d + "." + rest == d + ("." + rest);
    NumberOfDigits(d, "." + rest);
    assert ("." + rest)[1..] == rest;
  }

  /** How "a.b.c" followed by the rest splits at its first two dots. */
  lemma JoinedSplit(a: string, b: string, c: string, rest: string)
    ensures Joined(a, b, c, rest) == a + "." + (b + "." + (c + rest))
  {
  }

  /** `parse_version` from the three matches it makes on the text after the 'v's. */
  lemma ParseVia(s: string, t1: string, t2: string, rest: string, v: Version)
    requires NumberDot(LStripChar(s, 'v')) == Some((v.major, t1)) && NumberDot(t1) == Some((v.minor, t2))
    requires Number(t2) == Some((v.patch, rest))
    ensures ParseVersion(s) == Ok(v)
  {
  }

  /** Any text that the pattern matches after the 'v's reads as the values of its three groups, leading zeros and all. */
  lemma ParseMatched(s: string, a: string, b: string, c: string, rest: string)
    requires VersionFields(a, b, c, rest) && LStripChar(s, 'v') == Joined(a, b, c, rest)
    ensures ParseVersion(s) == Ok(Version(DigitsValue(a), DigitsValue(b), DigitsValue(c)))
  {
    var t2 := c + rest;
    var t1 := b + "." + t2;
    JoinedSplit(a, b, c, rest);
    NumberDotOfDigits(a, t1);
    NumberDotOfDigits(b, t2);
    NumberOfDigits(c, rest);
    ParseVia(s, t1, t2, rest, Version(DigitsValue(a), DigitsValue(b), DigitsValue(c)));
  }

  /** What `\d+` matched: a digit string, then the rest, which does not start with a digit. */
  lemma NumberParts(t: string) returns (d: string)
    requires Number(t).Some?
    ensures IsDigits(d) && t == d + Number(t).value.1
    ensures Number(t).value.1 == [] || !IsDigit(Number(t).value.1[0])
  {
    var k := DigitRun(t);
    d := t[..k];
    assert t == t[..k] + t[k..];
  }

  /** What `\d+\.` matched: a digit string, the dot, then the rest. */
  lemma NumberDotParts(t: string) returns (d: string)
    requires NumberDot(t).Some?
    ensures IsDigits(d) && t == d + "." + NumberDot(t).value.1
  {
    d := NumberParts(t);
    var r := Number(t).value.1;
    assert r == "." + r[1..];
  }

  /** A successful `parse_version` made its three matches. */
  lemma ParseSteps(s: string)
    requires ParseVersion(s).Ok?
    ensures var t := LStripChar(s, 'v'); NumberDot(t).Some? && NumberDot(NumberDot(t).value.1).Some?
    ensures var t1 := NumberDot(LStripChar(s, 'v')).value.1; Number(NumberDot(t1).value.1).Some?
  {
  }

  /** `parse_version` succeeds only on text that the pattern matches after the 'v's. */
  lemma ParseOnlyMatched(s: string)
    requires ParseVersion(s).Ok?
    ensures exists a, b, c, rest :: VersionFields(a, b, c, rest) && LStripChar(s, 'v') == Joined(a, b, c, rest)
  {
    ParseSteps(s);
    var t := LStripChar(s, 'v');
    var t1 := NumberDot(t).value.1;
    var t2 := NumberDot(t1).value.1;
    var rest := Number(t2).value.1;
    var a := NumberDotParts(t);
    var b := NumberDotParts(t1);
    var c := NumberParts(t2);
    JoinedSplit(a, b, c, rest);
    assert VersionFields(a, b, c, rest) && t == Joined(a, b, c, rest);
  }

  /**
   * `re.match(r"(\d+)\.(\d+)\.(\d+)", ...)` on the text after the 'v's, over
   * all inputs: `parse_version` succeeds exactly when the pattern matches,
   * and then returns the values of the three groups.
   */
  lemma ParseVersionRegex(s: string)
    ensures ParseVersion(s).Ok? <==>
      exists a, b, c, rest :: VersionFields(a, b, c, rest) && LStripChar(s, 'v') == Joined(a, b, c, rest)
    ensures forall a, b, c, rest :: VersionFields(a, b, c, rest) && LStripChar(s, 'v') == Joined(a, b, c, rest) ==>
      ParseVersion(s) == Ok(Version(DigitsValue(a), DigitsValue(b), DigitsValue(c)))
  {
    if ParseVersion(s).Ok? {
      ParseOnlyMatched(s);
    }
    forall a, b, c, rest | VersionFields(a, b, c, rest) && LStripChar(s, 'v') == Joined(a, b, c, rest)
      ensures ParseVersion(s) == Ok(Version(DigitsValue(a), DigitsValue(b), DigitsValue(c)))
    {
      ParseMatched(s, a, b, c, rest);
    }
  }

  /** Only two numbers, the second running to the end: the pattern fails at the second dot. */
  lemma TwoGroupsRejected(s: string, a: string, b: string)
    requires IsDigits(a) && IsDigits(b) && LStripChar(s, 'v') == a + "." + b
    ensures ParseVersion(s) == Err(ValueError)
  {
    NumberDotOfDigits(a, b);
    NumberOfDigits(b, "");
    assert b + "" == b;
  }

  /** A number and a dot, then no digit: the pattern fails at the second group. */
  lemma SecondGroupRejected(s: string, a: string, rest: string)
    requires IsDigits(a) && (rest == [] || !IsDigit(rest[0])) && LStripChar(s, 'v') == a + "." + rest
    ensures ParseVersion(s) == Err(ValueError)
  {
    NumberDotOfDigits(a, rest);
  }

  /** The example texts read as themselves after stripping 'v's, and split at their first dot. */
  lemma RejectedTexts()
    ensures LStripChar("1.2", 'v') == "1" + "." + "2"
    ensures LStripChar("1.x.3", 'v') == "1" + "." + "x.3"
    ensures LStripChar("1..3", 'v') == "1" + "." + ".3"
  {
    assert "1" + "." + "2" == "1.2";
    assert "1" + "." + "x.3" == "1.x.3";
    assert "1" + "." + ".3" == "1..3";
  }

  /** Two numbers raise ValueError: "1.2". */
  lemma TwoNumbersRejected()
    ensures ParseVersion("1.2") == Err(ValueError)
  {
    RejectedTexts();
    TwoGroupsRejected("1.2", "1", "2");
  }

  /** A group that is not a number raises ValueError: "1.x.3". */
  lemma LetterGroupRejected()
    ensures ParseVersion("1.x.3") == Err(ValueError)
  {
    RejectedTexts();
    SecondGroupRejected("1.x.3", "1", "x.3");
  }

  /** An empty group raises ValueError: "1..3". */
  lemma EmptyGroupRejected()
    ensures ParseVersion("1..3") == Err(ValueError)
  {
    RejectedTexts();
    SecondGroupRejected("1..3", "1", ".3");
  }

  /** The three groups of "01.02.03". */
  lemma ZeroLedGroups()
    ensures VersionFields("01", "02", "03", "")
    ensures DigitsValue("01") == 1 && DigitsValue("02") == 2 && DigitsValue("03") == 3
  {
    assert DigitsValue("0") == DigitsValue("") * 10;
    assert DigitsValue("01") == DigitsValue("0") * 10 + 1;
    assert DigitsValue("02") == DigitsValue("0") * 10 + 2;
    assert DigitsValue("03") == DigitsValue("0") * 10 + 3;
  }

  /** Leading zeros are read away: "01.02.03" is 1.2.3. */
  lemma LeadingZerosRead()
    ensures ParseVersion("01.02.03") == Ok(Version(1, 2, 3))
  {
    ZeroLedGroups();
    var s := "01.02.03";
    assert s[0] == '0';
    assert LStripChar(s, 'v') == s;
    assert Joined("01", "02", "03", "") == s;
    ParseMatched(s, "01", "02", "03", "");
  }

  /** The rendering with a suffix, split at its two dots. */
  lemma RenderParts(v: Version, suffix: string)
    ensures Render(v) + suffix ==
      NatToString(v.major) + "." + (NatToString(v.minor) + "." + (NatToString(v.patch) + suffix))
  {
  }

  /** A rendered number does not start with 'v', so stripping 'v's keeps the text. */
  lemma NoLeadingV(n: nat, rest: string)
    ensures LStripChar(NatToString(n) + rest, 'v') == NatToString(n) + rest
  {
    NatToStringRoundTrip(n);
    assert (NatToString(n) + rest)[0] == NatToString(n)[0];
  }

  /** Leading 'v's do not matter. */
  lemma ParseIgnoresV(s: string)
    ensures ParseVersion("v" + s) == ParseVersion(s)
  {
    assert ("v" + s)[1..] == s;
  }

  /** Lexicographic order on triples; 1, 0 or -1. */
  function Compare(a: Version, b: Version): (r: int)
    ensures r == 0 <==> a == b
    ensures r == 1 || r == 0 || r == -1
  {
    if a.major != b.major then (if a.major > b.major then 1 else -1)
    else if a.minor != b.minor then (if a.minor > b.minor then 1 else -1)
    else if a.patch != b.patch then (if a.patch > b.patch then 1 else -1)
    else 0
  }

  /** Swapping the arguments negates the answer; a larger triple stays larger across a chain. */
  lemma CompareOrder(a: Version, b: Version, c: Version)
    ensures Compare(b, a) == -Compare(a, b)
    ensures Compare(a, b) > 0 && Compare(b, c) > 0 ==> Compare(a, c) > 0
  {
  }

  /** `compare_versions`: parse both (either may raise) and compare the triples. */
  function CompareVersions(v1: string, v2: string): (r: Res<int>)
    ensures r.Ok? <==> ParseVersion(v1).Ok? && ParseVersion(v2).Ok?
    ensures r.Err? ==> r.error == ValueError
    ensures r.Ok? ==> r.value == Compare(ParseVersion(v1).value, ParseVersion(v2).value)
  {
    var a :- ParseVersion(v1);
    var b :- ParseVersion(v2);
    Ok(Compare(a, b))
  }

  /** The comparison is antisymmetric, and 0 exactly for equal triples. */
  lemma CompareVersionsAntisymmetric(v1: string, v2: string)
    requires CompareVersions(v1, v2).Ok?
    ensures CompareVersions(v2, v1) == Ok(-CompareVersions(v1, v2).value)
    ensures CompareVersions(v1, v2).value == 0 <==> ParseVersion(v1).value == ParseVersion(v2).value
  {
    var p1, p2 := ParseVersion(v1), ParseVersion(v2);
    ComparedParsed(v1, v2, p1.value, p2.value);
    ComparedParsed(v2, v1, p2.value, p1.value);
    CompareOrder(p1.value, p2.value, p1.value);
  }

  /** Comparing two parsable versions compares what they parse to. */
  lemma ComparedParsed(v1: string, v2: string, a: Version, b: Version)
    requires ParseVersion(v1) == Ok(a) && ParseVersion(v2) == Ok(b)
    ensures CompareVersions(v1, v2) == Ok(Compare(a, b))
  {
  }

  /** "1.2.3" reads as 1.2.3. */
  lemma OneTwoThree()
    ensures ParseVersion("1.2.3") == Ok(Version(1, 2, 3))
  {
    var s := "1.2.3";
    assert DigitsValue("1") == 1 && DigitsValue("2") == 2 && DigitsValue("3") == 3;
    assert VersionFields("1", "2", "3", "");
    assert s[0] == '1' && LStripChar(s, 'v') == s;
    assert Joined("1", "2", "3", "") == s;
    ParseMatched(s, "1", "2", "3", "");
  }

  /** A version and the same text with a 'v' in front compare equal. */
  lemma SameAfterV(s: string)
    requires ParseVersion(s).Ok?
    ensures CompareVersions("v" + s, s) == Ok(0)
  {
    ParseIgnoresV(s);
  }

  /** The text of the example with its 'v'. */
  lemma WithV()
    ensures "v" + "1.2.3" == "v1.2.3"
  {
  }

  /** "v1.2.3" and "1.2.3" are the same version. */
  lemma LeadingVExample()
    ensures CompareVersions("v1.2.3", "1.2.3") == Ok(0)
  {
    OneTwoThree();
    SameAfterV("1.2.3");
    WithV();
  }

  /** "3.0.0-beta" reads as 3.0.0: what follows the third number is ignored. */
  lemma SuffixExample()
    ensures ParseVersion("3.0.0-beta") == Ok(Version(3, 0, 0))
  {
    var v := Version(3, 0, 0);
    ParseRendered(v, "-beta");
    RenderedText(v, "-beta", "3.0.0-beta");
  }

  /** The text of the two example versions. */
  lemma RenderedText(v: Version, suffix: string, text: string)
    requires (v, suffix, text) == (Version(1, 2, 3), "", "1.2.3") || (v, suffix, text) == (Version(3, 0, 0), "-beta", "3.0.0-beta")
    ensures Render(v) + suffix == text
  {
    assert NatToString(0) == "0" && NatToString(1) == "1" && NatToString(2) == "2" && NatToString(3) == "3";
  }

  // ------------------------------------------------------------ the cache

  /** `VersionInfo`: the release's URLs and notes are whatever the release information holds. */
  datatype VersionInfo = VersionInfo(version: string, downloadUrl: Json, releaseNotes: Json, releaseUrl: Json)

  /** The `VersionInfo` built from a cached version and cached release information, missing fields read as "". */
  function CachedRelease(version: string, info: Json): (v: VersionInfo)
    requires info.Obj?
    ensures v.version == version
    ensures v.downloadUrl == Get(info, "download_url", Str("")).value
    ensures v.releaseNotes == Get(info, "release_notes", Str("")).value
    ensures v.releaseUrl == Get(info, "release_url", Str("")).value
  {
    VersionInfo(version, Get(info, "download_url", Str("")).value,
                Get(info, "release_notes", Str("")).value, Get(info, "release_url", Str("")).value)
  }

  /**
   * `_check_version_from_cache`: nothing when no version is cached or the
   * cached one is not newer; a `VersionInfo` only when it is newer and
   * release information is cached.  A cached version that is not a string,
   * or that does not parse, raises, and so does release information that is
   * not a dict.
   */
  function FromCache(current: string, cachedLatest: Json, cachedInfo: Json): (r: Res<Option<VersionInfo>>)
    ensures !Truthy(cachedLatest) ==> r == Ok(None)
    ensures r.Ok? && r.value.Some? ==>
      cachedLatest == Str(r.value.value.version) && CompareVersions(r.value.value.version, current) == Ok(1) &&
      Truthy(cachedInfo) && cachedInfo.Obj? && r.value.value == CachedRelease(cachedLatest.s, cachedInfo)
    ensures Truthy(cachedLatest) && !cachedLatest.Str? ==> r == Err(AttributeError)
    ensures Truthy(cachedLatest) && cachedLatest.Str? ==>
      var cmp := CompareVersions(cachedLatest.s, current);
      (cmp.Err? ==> r == Err(ValueError)) &&
      (cmp.Ok? && cmp.value <= 0 ==> r == Ok(None)) &&
      (cmp == Ok(1) && !Truthy(cachedInfo) ==> r == Ok(None)) &&
      (cmp == Ok(1) && Truthy(cachedInfo) && !cachedInfo.Obj? ==> r == Err(AttributeError)) &&
      (cmp == Ok(1) && Truthy(cachedInfo) && cachedInfo.Obj? ==> r == Ok(Some(CachedRelease(cachedLatest.s, cachedInfo))))
  {
    if !Truthy(cachedLatest) then Ok(None)
    else if !cachedLatest.Str? then Err(AttributeError)
    else
      var cmp :- CompareVersions(cachedLatest.s, current);
      if cmp > 0 && Truthy(cachedInfo) then
        if !cachedInfo.Obj? then Err(AttributeError)
        else Ok(Some(CachedRelease(cachedLatest.s, cachedInfo)))
      else Ok(None)
  }

  /** The saved cache; a missing or unreadable file reads as the defaults. */
  datatype Cache = Cache(etag: Option<string>, lastCheckMs: int, latestVersion: Json, releaseInfo: Json)

  const EmptyCache := Cache(None, 0, Null, Null)

  /** `CHECK_INTERVAL`: one hour. */
  const CheckIntervalMs := 3600 * 1000

  /** How the request to the release API ended. */
  datatype Outcome =
    | Timeout
    | NetworkFailure
    /** A reply: its status, its `etag` header if any, and its body (None when it is not JSON). */
    | Reply(status: int, etagHeader: Option<string>, body: Option<Json>)

  /** Does the outcome reach the fresh-release branch with a dict body? */
  predicate Fresh(o: Outcome) {
    o.Reply? && o.status != 403 && o.status != 304 && 200 <= o.status < 300 && o.body.Some? && o.body.value.Obj?
  }

  /** The release information saved from a fresh reply. */
  function ReleaseInfo(data: Json): Json
    requires data.Obj?
  {
    Obj([("download_url", Get(data, "html_url", Str("")).value),
         ("release_notes", Get(data, "body", Str("")).value),
         ("release_url", Get(data, "html_url", Str("")).value)])
  }

  class UpdateChecker {
    /** The decoded cache file. */
    var cache: Cache

    constructor(saved: Cache)
      ensures cache == saved
    {
      cache := saved;
    }

    /**
     * `check_update`: within the hour and not forced, answer from the cache
     * without a request.  Otherwise ask, with `If-None-Match` when an etag
     * is cached: 403, network failures and every other error answer from
     * the cache; 304 only refreshes the check time; a fresh release with an
     * empty tag gives nothing; any other fresh release is saved and is the
     * answer when it is newer than `current`.
     */
    method CheckUpdate(force: bool, now: int, current: string, outcome: Outcome)
      returns (asked: bool, ifNoneMatch: Option<string>, r: Res<Option<VersionInfo>>)
      modifies this
      ensures asked <==> force || now - old(cache).lastCheckMs >= CheckIntervalMs
      ensures asked ==> ifNoneMatch == (if old(cache).etag.Some? && old(cache).etag.value != [] then old(cache).etag else None)
      ensures !asked ==> cache == old(cache) && r == FromCache(current, old(cache).latestVersion, old(cache).releaseInfo)
      ensures asked && (outcome.Timeout? || outcome.NetworkFailure? || outcome.status == 403 ||
                        (outcome.status != 304 && !Fresh(outcome))) ==>
        cache == old(cache) && r == FromCache(current, old(cache).latestVersion, old(cache).releaseInfo)
      ensures asked && outcome.Reply? && outcome.status == 304 ==>
        cache == old(cache).(lastCheckMs := now) && r == FromCache(current, old(cache).latestVersion, old(cache).releaseInfo)
      ensures asked && Fresh(outcome) && !Truthy(Get(outcome.body.value, "tag_name", Str("")).value) ==>
        cache == old(cache) && r == Ok(None)
      ensures asked && Fresh(outcome) && Truthy(Get(outcome.body.value, "tag_name", Str("")).value) ==>
        var data := outcome.body.value;
        var tag := Get(data, "tag_name", Str("")).value;
        cache == Cache(if outcome.etagHeader.Some? then outcome.etagHeader else old(cache).etag, now, tag, ReleaseInfo(data)) &&
        (tag.Str? && CompareVersions(tag.s, current).Ok? ==>
          r == if CompareVersions(tag.s, current).value <= 0 then Ok(None)
               else Ok(Some(VersionInfo(tag.s, Get(data, "html_url", Str("")).value, Get(data, "body", Str("")).value,
                                        Get(data, "html_url", Str("")).value)))) &&
        (!(tag.Str? && CompareVersions(tag.s, current).Ok?) ==>
          r == FromCache(current, old(cache).latestVersion, old(cache).releaseInfo))
    {
      var etag := cache.etag;
      var cachedLatest := cache.latestVersion;
      var cachedInfo := cache.releaseInfo;
      if !force && now - cache.lastCheckMs < CheckIntervalMs {
        return false, None, FromCache(current, cachedLatest, cachedInfo);
      }
      asked := true;
      ifNoneMatch := if etag.Some? && etag.value != [] then etag else None;
      var fallback := FromCache(current, cachedLatest, cachedInfo);
      if !outcome.Reply? {
        return asked, ifNoneMatch, fallback;
      }
      if outcome.status == 403 {
        return asked, ifNoneMatch, fallback;
      }
      if outcome.status == 304 {
        cache := cache.(lastCheckMs := now);
        return asked, ifNoneMatch, fallback;
      }
      if !(200 <= outcome.status < 300) || outcome.body.None? || !outcome.body.value.Obj? {
        // raise_for_status, a body that is not JSON, or `.get` on a non-dict: all caught.
        return asked, ifNoneMatch, fallback;
      }
      var data := outcome.body.value;
      var latest := Get(data, "tag_name", Str("")).value;
      if !Truthy(latest) {
        return asked, ifNoneMatch, Ok(None);
      }
      var newEtag := if outcome.etagHeader.Some? then outcome.etagHeader else etag;
      var info := ReleaseInfo(data);
      cache := Cache(newEtag, now, latest, info);
      if !latest.Str? {
        // `lstrip` on a non-string raises inside the try.
        return asked, ifNoneMatch, fallback;
      }
      var cmp := CompareVersions(latest.s, current);
      if cmp.Err? {
        return asked, ifNoneMatch, fallback;
      }
      if cmp.value <= 0 {
        return asked, ifNoneMatch, Ok(None);
      }
      r := Ok(Some(VersionInfo(latest.s, Get(data, "html_url", Str("")).value, Get(data, "body", Str("")).value,
                               Get(data, "html_url", Str("")).value)));
    }
  }
}
