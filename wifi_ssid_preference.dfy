/**
 * The whitelist preference on the settings screen (WifiSsidPreference): whether it can be
 * edited, how a stored network name is shown, and which summary line it carries.
 */
module WifiSsidPreference {
  import opened Wrappers
  import opened Strings
  import opened WifiSsid

  /** Nothing selected: every network is allowed. */
  const DEFAULT_SELECTION: set<string> := {}

  /** The whitelist can be edited only when the device is on a network whose name is known. */
  predicate IsWifiReady(state: WifiListResult) {
    state.messageId.None?
  }

  /**
   * The `enabled` lambda: the caller's condition on the current selection, and only when the
   * list is ready.
   */
  function PreferenceEnabled(state: WifiListResult, callerEnabled: bool): (enabled: bool)
    ensures enabled ==> state.messageId.None?
    ensures state.messageId.None? ==> enabled == callerEnabled
  {
    IsWifiReady(state) && callerEnabled
  }

  /** `valueToText`: a stored name is shown without its surrounding quotes, and nothing else is dropped. */
  function ValueText(value: string): (text: string)
    ensures multiset(text) <= multiset(value)
    ensures multiset(value) - multiset(text) <= multiset{QUOTE, QUOTE}
  {
    StripQuotesRemovesOnlyQuotes(value);
    StripQuotes(value)
  }

  datatype Summary = ErrorMessage(id: Message) | AllNetworks | Whitelisted(names: string)

  /** The quote-stripped form of every entry, in order. */
  function StripAll(values: seq<string>): (r: seq<string>)
    ensures |r| == |values| && forall i :: 0 <= i < |values| ==> r[i] == StripQuotes(values[i])
  {
    if values == [] then [] else [StripQuotes(values[0])] + StripAll(values[1..])
  }

  /**
   * The summary line for the selection, given in the iteration order of the selected set:
   * the list's message when it is not ready, "all networks" for an empty selection, and the
   * names without quotes, separated by ", ", otherwise.
   */
  function SummaryOf(state: WifiListResult, selected: seq<string>): (s: Summary)
    ensures s.ErrorMessage? <==> !IsWifiReady(state)
    ensures s.ErrorMessage? ==> state.messageId == Some(s.id)
    ensures s == AllNetworks <==> IsWifiReady(state) && selected == []
  {
    match state.messageId
    case Some(id) => ErrorMessage(id)
    case None =>
      if selected == [] then AllNetworks
      else
        Whitelisted(Join(StripAll(selected), ", "))
  }

  /** A whitelist summary names every selected network, without its quotes. */
  lemma SummaryNamesEverySelected(state: WifiListResult, selected: seq<string>, i: nat)
    requires IsWifiReady(state) && i < |selected|
    ensures SummaryOf(state, selected).Whitelisted?
    ensures Contains(SummaryOf(state, selected).names, StripQuotes(selected[i]))
  {
    JoinContainsEach(StripAll(selected), ", ", i);
  }

  /** While the list is not ready the preference is disabled and shows the list's message, whatever is selected. */
  lemma NotReadyShowsMessage(state: WifiListResult, selected: seq<string>, callerEnabled: bool)
    requires state.messageId.Some?
    ensures !PreferenceEnabled(state, callerEnabled)
    ensures SummaryOf(state, selected) == ErrorMessage(state.messageId.value)
  {
  }

  lemma StripTwoQuoted()
    ensures StripAll(["\"Home\"", "\"Work\""]) == ["Home", "Work"]
  {
    var selected := ["\"Home\"", "\"Work\""];
    assert selected[0] == "\"" + "Home" + "\"" && selected[1] == "\"" + "Work" + "\"";
    StripQuotesOfQuoted("Home");
    StripQuotesOfQuoted("Work");
  }

  /** Two quoted network names are summarised as "Home, Work". */
  lemma SummaryOfTwoNetworks(state: WifiListResult)
    requires IsWifiReady(state)
    ensures SummaryOf(state, ["\"Home\"", "\"Work\""]) == Whitelisted("Home" + ", " + "Work")
  {
    StripTwoQuoted();
    JoinTwo("Home", "Work", ", ");
  }
}
