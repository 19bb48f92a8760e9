/**
 * The debug facilities offered for syncthing's STTRACE variable (SttraceUtil): a stored
 * list is consumed and discarded, otherwise the facilities of syncthing v2.0.13 are offered,
 * and the result is sorted.
 */
module Sttrace {
  import opened Strings
  import opened Preferences

  /** The debug facilities of syncthing v2.0.13, in the order they are added. */
  const FACILITIES: seq<string> := [
    "api", "beacon", "config", "connections", "db/sqlite", "dialer", "discover", "events",
    "fs", "main", "model", "nat", "pmp", "protocol", "relay/client", "scanner", "stun",
    "syncthing", "upgrade", "upnp", "ur", "versioner", "watchaggregator"]

  /** Insert `x` into a sorted list of names. */
  function InsertName(x: string, s: seq<string>): (r: seq<string>)
    requires NamesSorted(s)
    ensures NamesSorted(r) && multiset(r) == multiset(s) + multiset{x}
    ensures r[0] == x || (s != [] && r[0] == s[0])
  {
    if s == [] then [x]
    else if NameLe(x, s[0]) then [x] + s
    else
      NameLeTotal(x, s[0]);
      assert s == [s[0]] + s[1..];
      [s[0]] + InsertName(x, s[1..])
  }

  /** `ArrayList.sort()` with the natural order of strings: the same names, in order. */
  function SortNames(s: seq<string>): (r: seq<string>)
    ensures NamesSorted(r) && multiset(r) == multiset(s)
  {
    if s == [] then []
    else
      assert s == [s[0]] + s[1..];
      InsertName(s[0], SortNames(s[1..]))
  }

  /** Sorting a list that is already sorted leaves it as it is. */
  lemma {:induction false} SortNamesOfSorted(s: seq<string>)
    requires NamesSorted(s)
    ensures SortNames(s) == s
  {
    if s != [] {
      SortNamesOfSorted(s[1..]);
      assert s == [s[0]] + s[1..];
    }
  }

  // The order of the hard-coded list: each facility is below the next one, told apart at
  // the first character where they differ.

  /** Facilities 0 to 8, each below the next. */
  lemma FacilitiesAdjacentLow(k: nat)
    requires 0 <= k < 8
    ensures NameLe(FACILITIES[k], FACILITIES[k + 1]) && FACILITIES[k] != FACILITIES[k + 1]
  {
    if k == 0 {
      NameLtAt("api", "beacon", 0);
    } else if k == 1 {
      NameLtAt("beacon", "config", 0);
    } else if k == 2 {
      NameLtAt("config", "connections", 3);
    } else if k == 3 {
      NameLtAt("connections", "db/sqlite", 0);
    } else if k == 4 {
      NameLtAt("db/sqlite", "dialer", 1);
    } else if k == 5 {
      NameLtAt("dialer", "discover", 2);
    } else if k == 6 {
      NameLtAt("discover", "events", 0);
    } else {
      NameLtAt("events", "fs", 0);
    }
  }

  /** Facilities 8 to 15, each below the next. */
  lemma FacilitiesAdjacentMid(k: nat)
    requires 8 <= k < 15
    ensures NameLe(FACILITIES[k], FACILITIES[k + 1]) && FACILITIES[k] != FACILITIES[k + 1]
  {
    if k == 8 {
      NameLtAt("fs", "main", 0);
    } else if k == 9 {
      NameLtAt("main", "model", 1);
    } else if k == 10 {
      NameLtAt("model", "nat", 0);
    } else if k == 11 {
      NameLtAt("nat", "pmp", 0);
    } else if k == 12 {
      NameLtAt("pmp", "protocol", 1);
    } else if k == 13 {
      NameLtAt("protocol", "relay/client", 0);
    } else {
      NameLtAt("relay/client", "scanner", 0);
    }
  }

  /** Facilities 15 to 22, each below the next. */
  lemma FacilitiesAdjacentHigh(k: nat)
    requires 15 <= k < 22
    ensures NameLe(FACILITIES[k], FACILITIES[k + 1]) && FACILITIES[k] != FACILITIES[k + 1]
  {
    if k == 15 {
      NameLtAt("scanner", "stun", 1);
    } else if k == 16 {
      NameLtAt("stun", "syncthing", 1);
    } else if k == 17 {
      NameLtAt("syncthing", "upgrade", 0);
    } else if k == 18 {
      NameLtAt("upgrade", "upnp", 2);
    } else if k == 19 {
      NameLtAt("upnp", "ur", 1);
    } else if k == 20 {
      NameLtAt("ur", "versioner", 0);
    } else {
      NameLtAt("versioner", "watchaggregator", 0);
    }
  }

  /** Every tail of the list is strictly increasing. */
  lemma {:induction false} FacilitiesFromSorted(k: nat)
    requires k < |FACILITIES|
    ensures StrictlySorted(FACILITIES[k..])
    decreases |FACILITIES| - k
  {
    if k + 1 < |FACILITIES| {
      FacilitiesFromSorted(k + 1);
      if k < 8 {
        FacilitiesAdjacentLow(k);
      } else if k < 15 {
        FacilitiesAdjacentMid(k);
      } else {
        FacilitiesAdjacentHigh(k);
      }
      StrictlySortedCons(FACILITIES[k], FACILITIES[k + 1..]);
      ConsSlice(FACILITIES, k);
    }
  }

  lemma ConsSlice<T>(s: seq<T>, k: nat)
    requires k < |s|
    ensures s[k..] == [s[k]] + s[k + 1..]
  {
  }

  /** Consecutive facilities differ, the earlier one first. */
  lemma FacilitiesStrictlySorted()
    ensures StrictlySorted(FACILITIES)
  {
    FacilitiesFromSorted(0);
    assert FACILITIES[0..] == FACILITIES;
  }

  /** The hard-coded list is sorted and names each facility once. */
  lemma FacilitiesDistinct()
    ensures NamesSorted(FACILITIES)
    ensures forall i, j :: 0 <= i < j < |FACILITIES| ==> FACILITIES[i] != FACILITIES[j]
  {
    FacilitiesStrictlySorted();
    forall i, j | 0 <= i < j < |FACILITIES|
      ensures FACILITIES[i] != FACILITIES[j]
    {
      StrictlySortedDistinct(FACILITIES, i, j);
    }
  }

  /** Sorting the v2.0.13 list, appended to an empty list, leaves it as it is. */
  lemma FacilitiesSortedFixed(s: seq<string>)
    requires s == [] + FACILITIES
    ensures SortNames(s) == FACILITIES
  {
    assert s == FACILITIES;
    FacilitiesDistinct();
    SortNamesOfSorted(FACILITIES);
  }

  /**
   * `getDebugFacilities`: a non-empty stored set of available facilities is removed and
   * nothing is offered (adding its entries is commented out); an absent or empty one makes
   * the v2.0.13 list be offered. Either way the list is sorted and no other key changes.
   */
  method GetDebugFacilities(prefs: SharedPreferences) returns (facilities: seq<string>)
    modifies prefs
    ensures NamesSorted(facilities)
    ensures old(prefs.GetStringSet(PREF_DEBUG_FACILITIES_AVAILABLE, {})) != {} ==>
              facilities == [] &&
              prefs.bools == old(prefs.bools) - {PREF_DEBUG_FACILITIES_AVAILABLE} &&
              prefs.strings == old(prefs.strings) - {PREF_DEBUG_FACILITIES_AVAILABLE} &&
              prefs.stringSets == old(prefs.stringSets) - {PREF_DEBUG_FACILITIES_AVAILABLE}
    ensures old(prefs.GetStringSet(PREF_DEBUG_FACILITIES_AVAILABLE, {})) == {} ==>
              facilities == FACILITIES &&
              prefs.bools == old(prefs.bools) && prefs.strings == old(prefs.strings) &&
              prefs.stringSets == old(prefs.stringSets)
  {
    var ret: seq<string> := [];
    var available := prefs.GetStringSet(PREF_DEBUG_FACILITIES_AVAILABLE, {});
    if available != {} {
      prefs.Remove(PREF_DEBUG_FACILITIES_AVAILABLE);
      facilities := SortNames(ret);
    } else {
      ret := ret + FACILITIES;
      FacilitiesSortedFixed(ret);
      facilities := SortNames(ret);
    }
  }
}
