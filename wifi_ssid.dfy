/**
 * The Wi-Fi network whitelist (WifiSsidUtil): the networks offered are the stored
 * selection plus the network the device is connected to, and a network name as the
 * platform reports it is shown without its surrounding double quotes.
 */
module WifiSsid {
  import opened Wrappers
  import opened Strings
  import opened Preferences

  // ---------------------------------------------------------------------------
  // Quotes

  const QUOTE: char := '"'

  /** `replaceFirst("^\"", "")`: a leading quote is removed. */
  function StripLeadingQuote(s: string): (r: string)
    ensures StartsWith(s, [QUOTE]) ==> [QUOTE] + r == s
    ensures !StartsWith(s, [QUOTE]) ==> r == s
  {
    if s != [] && s[0] == QUOTE then s[1..] else s
  }

  /**
   * `replaceFirst("\"$", "")`: Java's `$` matches at the end of the text and also before
   * a line terminator that ends it ("\r\n" counting as one), so the quote removed is the
   * last character or the one just before such a terminator.
   */
  function StripTrailingQuote(t: string): (r: string)
    ensures EndsWith(t, [QUOTE]) ==> r + [QUOTE] == t
    ensures |r| == |t| || |r| == |t| - 1
    ensures |r| == |t| - 1 ==> exists q :: 0 <= q < |t| && t[q] == QUOTE && r == t[..q] + t[q + 1..]
    ensures (forall i :: 0 <= i < |t| ==> !IsLineTerminator(t[i])) && !EndsWith(t, [QUOTE]) ==> r == t
  {
    var n := |t|;
    if n >= 1 && t[n - 1] == QUOTE then
      assert t[n - 1 + 1..] == [];
      t[..n - 1]
    else if n >= 2 && t[n - 2] == QUOTE && IsLineTerminator(t[n - 1]) then t[..n - 2] + t[n - 1..]
    else if n >= 3 && t[n - 3] == QUOTE && t[n - 2] == '\r' && t[n - 1] == '\n' then t[..n - 3] + t[n - 2..]
    else t
  }

  /** Removing the character at `q` takes exactly that character out of the multiset. */
  lemma RemoveAtMultiset(t: string, q: nat)
    requires q < |t|
    ensures multiset(t) == multiset(t[..q] + t[q + 1..]) + multiset{t[q]}
  {
    assert t == t[..q] + [t[q]] + t[q + 1..];
  }

  /** `stripQuotes(String)`: a leading quote, then a trailing one, are removed. */
  function StripQuotes(s: string): (r: string)
    ensures |s| - 2 <= |r| <= |s|
  {
    StripTrailingQuote(StripLeadingQuote(s))
  }

  lemma StripLeadingQuoteMultiset(s: string)
    ensures var t := StripLeadingQuote(s);
            multiset(s) == multiset(t) || multiset(s) == multiset(t) + multiset{QUOTE}
  {
    if s != [] && s[0] == QUOTE {
      RemoveAtMultiset(s, 0);
      assert s[..0] + s[1..] == StripLeadingQuote(s);
    }
  }

  lemma StripTrailingQuoteMultiset(t: string)
    ensures var r := StripTrailingQuote(t);
            multiset(t) == multiset(r) || multiset(t) == multiset(r) + multiset{QUOTE}
  {
    var r := StripTrailingQuote(t);
    if |r| < |t| {
      var q :| 0 <= q < |t| && t[q] == QUOTE && r == t[..q] + t[q + 1..];
      RemoveAtMultiset(t, q);
    }
  }

  /** Stripping takes out at most two quotes and nothing else. */
  lemma StripQuotesRemovesOnlyQuotes(s: string)
    ensures multiset(StripQuotes(s)) <= multiset(s)
    ensures multiset(s) - multiset(StripQuotes(s)) <= multiset{QUOTE, QUOTE}
  {
    StripLeadingQuoteMultiset(s);
    StripTrailingQuoteMultiset(StripLeadingQuote(s));
  }

  /** A quoted name loses exactly its quotes, whatever it contains. */
  lemma StripQuotesOfQuoted(name: string)
    ensures StripQuotes([QUOTE] + name + [QUOTE]) == name
  {
    assert ([QUOTE] + name + [QUOTE])[1..] == name + [QUOTE];
    assert (name + [QUOTE])[..|name|] == name;
  }

  /** Text without quotes and line terminators is left alone. */
  lemma StripQuotesOfPlain(name: string)
    requires QUOTE !in name && forall i :: 0 <= i < |name| ==> !IsLineTerminator(name[i])
    ensures StripQuotes(name) == name
  {
  }

  /** Java's `$`: a quote before a final newline goes, the newline stays. */
  lemma StripQuotesBeforeNewline()
    ensures StripQuotes("\"Home\"\n") == "Home\n"
  {
    var t := "Home\"\n";
    assert StripLeadingQuote("\"Home\"\n") == t;
    assert t[4] == QUOTE && IsLineTerminator(t[5]);
    assert StripTrailingQuote(t) == t[..4] + t[5..];
    assert t[..4] + t[5..] == "Home\n";
  }

  /** The same before a final "\r\n", which counts as one line terminator. */
  lemma StripQuotesBeforeCrLf()
    ensures StripQuotes("\"Home\"\r\n") == "Home\r\n"
  {
    var t := "Home\"\r\n";
    assert StripLeadingQuote("\"Home\"\r\n") == t;
    assert t[4] == QUOTE && t[5] == '\r' && t[6] == '\n' && !IsLineTerminator(t[5]) == false;
    assert StripTrailingQuote(t) == t[..4] + t[5..];
    assert t[..4] + t[5..] == "Home\r\n";
  }

  /**
   * `stripQuotes(list)`: a new array, entry by entry the stripped names; a null entry
   * throws.
   */
  method StripQuotesAll(ssids: seq<Option<string>>) returns (r: Result<array<string>, ()>)
    ensures r.Err? <==> exists i :: 0 <= i < |ssids| && ssids[i].None?
    ensures r.Ok? ==> fresh(r.value) && r.value.Length == |ssids| &&
                      forall i :: 0 <= i < |ssids| ==> ssids[i].Some? && r.value[i] == StripQuotes(ssids[i].value)
  {
    var result := new string[|ssids|];
    for i := 0 to |ssids|
      invariant forall k :: 0 <= k < i ==> ssids[k].Some? && result[k] == StripQuotes(ssids[k].value)
    {
      if ssids[i].None? {
        return Err(());
      }
      result[i] := StripQuotes(ssids[i].value);
    }
    return Ok(result);
  }

  // ---------------------------------------------------------------------------
  // Valid network names

  const UNKNOWN_SSID: string := "unknown ssid"

  /**
   * Kotlin's `Char.equals(other, ignoreCase = true)` against a lower-case ASCII letter or
   * a blank: the letter itself, its upper case, and the characters whose case mapping
   * lands on it (the long s, the Kelvin sign, the dotted and the dotless i).
   */
  predicate EqualsIgnoreCase(c: char, p: char)
    requires p == ' ' || 'a' <= p <= 'z'
  {
    c == p || (p != ' ' && c as int == p as int - 32) ||
    (p == 's' && c == '\U{017F}') || (p == 'k' && c == '\U{212A}') ||
    (p == 'i' && (c == '\U{0130}' || c == '\U{0131}'))
  }

  predicate IsLowerPattern(p: string) {
    forall j :: 0 <= j < |p| ==> p[j] == ' ' || 'a' <= p[j] <= 'z'
  }

  predicate MatchesIgnoreCaseAt(s: string, p: string, i: nat)
    requires IsLowerPattern(p)
  {
    i + |p| <= |s| && forall j :: 0 <= j < |p| ==> EqualsIgnoreCase(s[i + j], p[j])
  }

  /** `contains(p, ignoreCase = true)`, by scanning from the left. */
  function ContainsIgnoreCase(s: string, p: string, from: nat): (found: bool)
    requires IsLowerPattern(p)
    ensures found <==> exists i: nat :: from <= i && MatchesIgnoreCaseAt(s, p, i)
    decreases |s| - from
  {
    if from + |p| > |s| then false
    else if MatchesIgnoreCaseAt(s, p, from) then true
    else ContainsIgnoreCase(s, p, from + 1)
  }

  /** `isValidSsid`: not null, not empty, and no "unknown ssid" in any letter case. */
  function IsValidSsid(ssid: Option<string>): (valid: bool)
    ensures valid <==> ssid.Some? && ssid.value != [] &&
                       !exists i: nat :: MatchesIgnoreCaseAt(ssid.value, UNKNOWN_SSID, i)
  {
    ssid.Some? && ssid.value != [] && !ContainsIgnoreCase(ssid.value, UNKNOWN_SSID, 0)
  }

  /** The platform's placeholder for a hidden network name is rejected. */
  lemma PlaceholderRejected()
    ensures !IsValidSsid(Some("<unknown ssid>"))
  {
    assert MatchesIgnoreCaseAt("<unknown ssid>", UNKNOWN_SSID, 1);
  }

  /** The placeholder is rejected in capitals too. */
  lemma UpperPlaceholderRejected()
    ensures !IsValidSsid(Some("<UNKNOWN SSID>"))
  {
    assert MatchesIgnoreCaseAt("<UNKNOWN SSID>", UNKNOWN_SSID, 1);
  }

  /** Case folding reaches beyond ASCII: the Kelvin sign and the long s count as k and s. */
  lemma FoldedPlaceholderRejected()
    ensures !IsValidSsid(Some("UN\U{212A}NOWN \U{017F}SID"))
  {
    assert MatchesIgnoreCaseAt("UN\U{212A}NOWN \U{017F}SID", UNKNOWN_SSID, 0);
  }

  /** Null and empty names are rejected; an ordinary quoted name is accepted. */
  lemma EmptyRejected()
    ensures !IsValidSsid(Some("")) && !IsValidSsid(None)
    ensures IsValidSsid(Some("\"Home\""))
  {
  }

  // ---------------------------------------------------------------------------
  // The list offered to the user

  datatype Message = NeedLocationPermission | ConnectToWifi

  datatype WifiListResult = WifiListResult(
    displayEntries: seq<string>,
    entryValues: seq<string>,
    messageId: Option<Message>,
    needsPermissionRequest: bool)

  /**
   * `calculateWifiList`: the stored selection and, when it is valid, the current network
   * (null when it could not be read), in the order of a hash set, shown without quotes.
   * Without a current network the message asks for the location permission when it is
   * missing and for a Wi-Fi connection otherwise.
   */
  method CalculateWifiList(prefs: SharedPreferences, key: string, currentSsid: Option<string>, hasPerms: bool)
    returns (result: WifiListResult)
    ensures var selected := prefs.GetStringSet(key, {});
            var offered := if IsValidSsid(currentSsid) then selected + {currentSsid.value} else selected;
            (forall x :: x in result.entryValues <==> x in offered) &&
            |result.entryValues| == |offered|
    ensures |result.displayEntries| == |result.entryValues|
    ensures forall i :: 0 <= i < |result.entryValues| ==> result.displayEntries[i] == StripQuotes(result.entryValues[i])
    ensures result.messageId.None? <==> IsValidSsid(currentSsid)
    ensures result.messageId == Some(NeedLocationPermission) <==> !IsValidSsid(currentSsid) && !hasPerms
    ensures result.needsPermissionRequest == (!hasPerms && !IsValidSsid(currentSsid))
  {
    var allSsids := prefs.GetStringSet(key, {});
    var connected := false;
    if IsValidSsid(currentSsid) {
      allSsids := allSsids + {currentSsid.value};
      connected := true;
    }
    var messageId: Option<Message> := None;
    if !connected {
      messageId := if !hasPerms then Some(NeedLocationPermission) else Some(ConnectToWifi);
    }
    // The hash set's iteration order is not specified: any order of its elements.
    var ordered: seq<string> := [];
    var rest := allSsids;
    while rest != {}
      invariant rest <= allSsids
      invariant forall x :: x in ordered <==> x in allSsids && x !in rest
      invariant |ordered| + |rest| == |allSsids|
      decreases |rest|
    {
      var x :| x in rest;
      ordered := ordered + [x];
      rest := rest - {x};
    }
    var display := StripQuotesAll(Somes(ordered));
    if display.Err? {
      assert false;
    }
    result := WifiListResult(display.value[..], ordered, messageId, !hasPerms && !connected);
  }
}
