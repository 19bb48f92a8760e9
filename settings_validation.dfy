/**
 * The text rules the settings screens apply before a value reaches syncthing: the SOCKS
 * and HTTP proxy address patterns, the environment-variable line pattern, the
 * comma-separated address lists and the kbps integers. Each pattern is written twice:
 * as the decision the screens compute and as a direct reading of the regular expression,
 * with a lemma that the two agree.
 */
module SettingsValidation {
  import opened Wrappers
  import opened Strings
  import Preferences

  // ---------------------------------------------------------------------------
  // Proxy addresses: `^socks5://.*:\d{1,5}$` and `^http://.*:\d{1,5}$`, matched against the
  // whole input. `.` excludes line terminators and `\d` is `[0-9]`.

  const SOCKS_SCHEME: string := "socks5://"
  const HTTP_SCHEME: string := "http://"

  /** No line terminator at positions `a` up to, not including, `b`. */
  predicate NoLineTerminatorIn(s: string, a: int, b: int) {
    forall i :: a <= i < b && 0 <= i < |s| ==> !IsLineTerminator(s[i])
  }

  /** Every position from `a` to the end holds a decimal digit. */
  predicate DigitsFrom(s: string, a: int) {
    forall i :: a <= i < |s| && 0 <= i ==> IsAsciiDigit(s[i])
  }

  /** Length of the longest suffix of `s` made of decimal digits. */
  function TrailingDigitCount(s: string): (t: nat)
    ensures t <= |s| && DigitsFrom(s, |s| - t)
    ensures t < |s| ==> !IsAsciiDigit(s[|s| - t - 1])
  {
    if |s| == 0 || !IsAsciiDigit(s[|s| - 1]) then 0
    else TrailingDigitCount(s[..|s| - 1]) + 1
  }

  /** The two proxy preferences, with their schemes and preference keys. */
  datatype ProxyKind = Socks | Http

  function SchemeOf(kind: ProxyKind): string {
    match kind
    case Socks => SOCKS_SCHEME
    case Http => HTTP_SCHEME
  }

  function PrefKeyOf(kind: ProxyKind): string {
    match kind
    case Socks => Preferences.PREF_SOCKS_PROXY_ADDRESS
    case Http => Preferences.PREF_HTTP_PROXY_ADDRESS
  }

  /**
   * The decision: after the scheme, no line terminator, and the text ends in ':' followed
   * by the maximal run of one to five digits.
   */
  predicate ProxyMatches(s: string, scheme: string) {
    StartsWith(s, scheme) && NoLineTerminatorIn(s, |scheme|, |s|) &&
    var t := TrailingDigitCount(s);
    1 <= t <= 5 && |scheme| + t + 1 <= |s| && s[|s| - t - 1] == ':'
  }

  /** `.*:\d{n}` matches the text after the scheme, with `n` digits at the end. */
  predicate ProxyTail(s: string, scheme: string, n: int) {
    1 <= n <= 5 && |scheme| + n + 1 <= |s| && s[|s| - n - 1] == ':' &&
    DigitsFrom(s, |s| - n) && NoLineTerminatorIn(s, |scheme|, |s| - n - 1)
  }

  /** The regular expression read directly: scheme, any text, ':', one to five digits. */
  ghost predicate ProxyPattern(s: string, scheme: string) {
    StartsWith(s, scheme) && exists n :: ProxyTail(s, scheme, n)
  }

  /** The decision and the pattern accept the same inputs. */
  lemma ProxyMatchesIffPattern(s: string, scheme: string)
    ensures ProxyMatches(s, scheme) <==> ProxyPattern(s, scheme)
  {
    var t := TrailingDigitCount(s);
    if ProxyMatches(s, scheme) {
      assert ProxyTail(s, scheme, t);
    }
    if ProxyPattern(s, scheme) {
      var n :| ProxyTail(s, scheme, n);
      assert t == n;
    }
  }

  /** Valid proxy input: empty, which turns the proxy off, or an address of the scheme. */
  predicate ProxyAccepted(s: string, scheme: string) {
    s == [] || ProxyMatches(s, scheme)
  }

  /** A few inputs and what the SOCKS rule makes of them. */
  lemma SocksExamples()
    ensures ProxyAccepted("socks5://127.0.0.1:9050", SOCKS_SCHEME)
    ensures !ProxyAccepted("socks5://host:123456", SOCKS_SCHEME)
    ensures !ProxyAccepted("socks5://host", SOCKS_SCHEME)
    ensures !ProxyAccepted("http://host:8118", SOCKS_SCHEME)
    ensures ProxyAccepted("http://host:8118", HTTP_SCHEME)
  {
    var a := "socks5://127.0.0.1:9050";
    assert TrailingDigitCount(a[..|a| - 4]) == 0;
    assert TrailingDigitCount(a) == 4;
    var b := "socks5://host:123456";
    assert TrailingDigitCount(b[..|b| - 6]) == 0;
    assert TrailingDigitCount(b) == 6;
    var c := "socks5://host";
    assert TrailingDigitCount(c) == 0;
    var d := "http://host:8118";
    assert d[..|SOCKS_SCHEME|][0] != SOCKS_SCHEME[0];
    assert TrailingDigitCount(d[..|d| - 4]) == 0;
    assert TrailingDigitCount(d) == 4;
  }

  // ---------------------------------------------------------------------------
  // Environment variables: `^(\w+=[\w:/.]+)?( \w+=[\w:/.]+)*$`, matched against the whole input.

  predicate IsValueChar(c: char) {
    IsWordChar(c) || c == ':' || c == '/' || c == '.'
  }

  predicate AllWordChars(s: string) {
    forall i :: 0 <= i < |s| ==> IsWordChar(s[i])
  }

  predicate AllValueChars(s: string) {
    forall i :: 0 <= i < |s| ==> IsValueChar(s[i])
  }

  /** `\w+=[\w:/.]+`: a non-empty name, '=', a non-empty value. */
  predicate IsEnvPair(p: string) {
    exists k :: 0 < k < |p| - 1 && p[k] == '=' && AllWordChars(p[..k]) && AllValueChars(p[k + 1..])
  }

  /**
   * The decision on a whole line: cut at every blank; the first field is empty or a pair,
   * every later field a pair.
   */
  predicate EnvVarsMatch(s: string) {
    var f := SplitAll(s, ' ');
    (f[0] == [] || IsEnvPair(f[0])) && forall i :: 1 <= i < |f| ==> IsEnvPair(f[i])
  }

  lemma EnvPairHasNoBlank(p: string)
    requires IsEnvPair(p)
    ensures ' ' !in p
  {
    var k :| 0 < k < |p| - 1 && p[k] == '=' && AllWordChars(p[..k]) && AllValueChars(p[k + 1..]);
    forall i | 0 <= i < |p|
      ensures p[i] != ' '
    {
      if i < k {
        assert p[..k][i] == p[i];
      } else if i > k {
        assert p[k + 1..][i - k - 1] == p[i];
      }
    }
  }

  /**
   * The pattern's language: pairs joined by single blanks, optionally led by one blank,
   * and the empty line. Every such line is accepted.
   */
  lemma {:induction false} EnvVarsAcceptsPairs(ps: seq<string>)
    requires forall i :: 0 <= i < |ps| ==> IsEnvPair(ps[i])
    ensures |ps| >= 1 ==> EnvVarsMatch(Join(ps, " "))
    ensures EnvVarsMatch(Join([[]] + ps, " "))
  {
    forall i | 0 <= i < |ps|
      ensures ' ' !in ps[i]
    {
      EnvPairHasNoBlank(ps[i]);
    }
    if |ps| >= 1 {
      SplitAllJoin(ps, ' ');
    }
    var qs := [[]] + ps;
    assert qs[1..] == ps;
    SplitAllJoin(qs, ' ');
  }

  /** ... and every accepted line is of that form: its blank-separated fields are pairs. */
  lemma EnvVarsMatchIsPairs(s: string)
    requires EnvVarsMatch(s)
    ensures var f := SplitAll(s, ' ');
            Join(f, " ") == s && (f[0] == [] || IsEnvPair(f[0])) &&
            forall i :: 1 <= i < |f| ==> IsEnvPair(f[i])
  {
    JoinSplitAll(s, ' ');
  }

  /** Doubled, trailing and leading-twice blanks are rejected. */
  lemma EnvVarsRejectsEmptyFields(s: string)
    requires exists i :: 1 <= i < |SplitAll(s, ' ')| && SplitAll(s, ' ')[i] == []
    ensures !EnvVarsMatch(s)
  {
    assert !IsEnvPair([]);
  }

  // ---------------------------------------------------------------------------
  // Comma-separated lists: split on ',', trim every field, omit the empty ones.

  /** Each field trimmed, empty results dropped, order kept. */
  function TrimNonEmpty(fields: seq<string>, kind: Whitespace): (r: seq<string>)
    ensures |r| <= |fields|
    ensures forall i :: 0 <= i < |r| ==> r[i] != [] && Unpadded(r[i], kind)
  {
    if fields == [] then []
    else
      var t := Trim(fields[0], kind);
      TrimSpec(fields[0], kind);
      if t == [] then TrimNonEmpty(fields[1..], kind) else [t] + TrimNonEmpty(fields[1..], kind)
  }

  /** A character absent from every field is absent from every trimmed entry. */
  lemma {:induction false} TrimNonEmptyKeepsOut(fields: seq<string>, kind: Whitespace, c: char)
    requires forall j :: 0 <= j < |fields| ==> c !in fields[j]
    ensures forall i :: 0 <= i < |TrimNonEmpty(fields, kind)| ==> c !in TrimNonEmpty(fields, kind)[i]
  {
    if fields != [] {
      var t, rest := Trim(fields[0], kind), TrimNonEmpty(fields[1..], kind);
      var tail := fields[1..];
      forall j | 0 <= j < |tail|
        ensures c !in tail[j]
      {
        assert tail[j] == fields[j + 1];
      }
      TrimNonEmptyKeepsOut(tail, kind, c);
      TrimKeepsOut(fields[0], kind, c);
      if t != [] {
        var r := [t] + rest;
        assert forall i :: 1 <= i < |r| ==> r[i] == rest[i - 1];
      }
    }
  }

  lemma TrimKeepsOut(s: string, kind: Whitespace, c: char)
    requires c !in s
    ensures c !in Trim(s, kind)
  {
  }

  /**
   * Guava `Splitter.on(",").trimResults().omitEmptyStrings()` (kind GuavaSpace) and Kotlin
   * `split(",").map { it.trim() }.filter { it.isNotEmpty() }` (kind KotlinSpace).
   */
  function ParseCommaList(s: string, kind: Whitespace): seq<string> {
    TrimNonEmpty(SplitAll(s, ','), kind)
  }

  /** The entries a list may hold to survive a print-and-parse round: non-empty, comma-free, unpadded. */
  predicate WellFormedEntries(xs: seq<string>, kind: Whitespace) {
    forall i :: 0 <= i < |xs| ==> xs[i] != [] && ',' !in xs[i] && Unpadded(xs[i], kind)
  }

  /** Every parsed entry is non-empty, unpadded and free of commas. */
  lemma ParseCommaListWellFormed(s: string, kind: Whitespace)
    ensures WellFormedEntries(ParseCommaList(s, kind), kind)
  {
    TrimNonEmptyKeepsOut(SplitAll(s, ','), kind, ',');
  }

  /** The list as the screens print it: entries joined with ", ". */
  function PrintCommaList(xs: seq<string>): string {
    Join(xs, ", ")
  }

  /** Printing with ", " is joining with "," the entries after the first, each led by a blank. */
  lemma {:induction false} PrintAsCommaJoin(xs: seq<string>)
    requires |xs| >= 1
    ensures PrintCommaList(xs) == Join([xs[0]] + Led(xs[1..]), ",")
  {
    if |xs| > 1 {
      PrintAsCommaJoin(xs[1..]);
      var ys := Led(xs[2..]);
      assert Led(xs[1..]) == [" " + xs[1]] + ys;
      assert ([xs[0]] + ([" " + xs[1]] + ys))[1..] == [" " + xs[1]] + ys;
      assert ([" " + xs[1]] + ys)[1..] == ys;
      assert Join([xs[1]] + ys, ",") == PrintCommaList(xs[1..]);
      if ys == [] {
        assert xs[0] + ", " + xs[1] == xs[0] + "," + (" " + xs[1]);
      } else {
        assert Join([" " + xs[1]] + ys, ",") == " " + xs[1] + "," + Join(ys, ",");
        assert Join([xs[1]] + ys, ",") == xs[1] + "," + Join(ys, ",");
      }
    } else {
      assert Led(xs[1..]) == [];
    }
  }

  /** Every entry led by one blank. */
  function Led(xs: seq<string>): (r: seq<string>)
    ensures |r| == |xs| && forall i :: 0 <= i < |xs| ==> r[i] == " " + xs[i]
  {
    if xs == [] then [] else [" " + xs[0]] + Led(xs[1..])
  }

  /** Parsing the printed form of well-formed entries gives them back. */
  lemma PrintParseRoundTrip(xs: seq<string>, kind: Whitespace)
    requires WellFormedEntries(xs, kind)
    ensures ParseCommaList(PrintCommaList(xs), kind) == xs
  {
    if xs == [] {
      assert SplitAll([], ',') == [[]];
    } else {
      var fields := [xs[0]] + Led(xs[1..]);
      PrintAsCommaJoin(xs);
      forall i | 0 <= i < |fields|
        ensures ',' !in fields[i]
      {
        if i > 0 {
          assert fields[i] == " " + xs[i];
        }
      }
      SplitAllJoin(fields, ',');
      TrimFieldsBack(xs, fields, kind);
    }
  }

  lemma {:induction false} TrimFieldsBack(xs: seq<string>, fields: seq<string>, kind: Whitespace)
    requires WellFormedEntries(xs, kind) && |xs| == |fields|
    requires forall i :: 0 <= i < |xs| ==> fields[i] == xs[i] || fields[i] == " " + xs[i]
    ensures TrimNonEmpty(fields, kind) == xs
  {
    if xs != [] {
      TrimFieldsBack(xs[1..], fields[1..], kind);
      if fields[0] == xs[0] {
        TrimSpec(xs[0], kind);
      } else {
        TrimAfterBlank(xs[0], kind);
      }
    }
  }

  /** Parsing is idempotent over one print: the parsed list is a fixed point. */
  lemma ParsePrintParse(s: string, kind: Whitespace)
    ensures ParseCommaList(PrintCommaList(ParseCommaList(s, kind)), kind) == ParseCommaList(s, kind)
  {
    ParseCommaListWellFormed(s, kind);
    PrintParseRoundTrip(ParseCommaList(s, kind), kind);
  }

  // ---------------------------------------------------------------------------
  // kbps values

  /** The Compose screen: `toIntOrNull() ?: 0`, so text that is not an integer becomes 0. */
  function ComposeKbps(s: string): (r: int)
    ensures ParseInt32(s).None? ==> r == 0
    ensures ParseInt32(s).Some? ==> r == ParseInt32(s).value
    ensures INT32_MIN <= r <= INT32_MAX
  {
    ParseInt32(s).GetOr(0)
  }
}
