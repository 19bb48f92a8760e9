/**
 * The preference-screen settings (SettingsActivity and its SettingsFragment, written once
 * in Kotlin and once in Java with the same rules). The fragment keeps the options and GUI
 * sections it last read from the REST client, edits them as preferences change, and
 * remembers in `pendingConfig` that syncthing must restart when the screen is left; run
 * condition changes set `pendingRunConditions` instead.
 *
 * Preference values arrive untyped; `Value` records which type the framework passed.
 * Calls on the REST client and the service are recorded in `effects`; toasts, summaries'
 * wording and dialogs are not modelled.
 */
module LegacySettings {
  import opened Wrappers
  import opened Strings
  import opened Preferences
  import opened SettingsValidation
  import opened SyncthingConfig

  /** A new preference value as handed to a change listener. */
  datatype Value = BoolValue(b: bool) | TextValue(text: string) | TextSetValue(items: seq<string>) | NullValue

  /** Exceptions that escape a handler. */
  datatype Failure = InvalidParameter | NullPointer

  /** Summary of a proxy preference. */
  datatype ProxySummary = Unset | NoProxy | UsesProxy(address: string)

  /** Summary of the SSID whitelist preference. */
  datatype WhitelistSummary = AllWifiNetworks | WhitelistedNetworks(joined: string)

  /** Texts shown by the syncthing-options preferences and the version summary. */
  datatype ShownOptions = ShownOptions(
    version: string,
    deviceName: Option<string>,
    listenAddresses: string,
    maxRecvKbps: string,
    maxSendKbps: string,
    globalAnnounceServers: string,
    address: Option<string>)

  // Keys of the syncthing-options category.
  const KEY_DEVICE_NAME: string := "deviceName"
  const KEY_LISTEN_ADDRESSES: string := "listenAddresses"
  const KEY_MAX_RECV_KBPS: string := "maxRecvKbps"
  const KEY_MAX_SEND_KBPS: string := "maxSendKbps"
  const KEY_NAT_ENABLED: string := "natEnabled"
  const KEY_LOCAL_ANNOUNCE_ENABLED: string := "localAnnounceEnabled"
  const KEY_GLOBAL_ANNOUNCE_ENABLED: string := "globalAnnounceEnabled"
  const KEY_RELAYS_ENABLED: string := "relaysEnabled"
  const KEY_GLOBAL_ANNOUNCE_SERVERS: string := "globalAnnounceServers"
  const KEY_ADDRESS: string := "address"
  const KEY_UR_ACCEPTED: string := "urAccepted"

  predicate IsBooleanOptionKey(key: string) {
    key == KEY_NAT_ENABLED || key == KEY_LOCAL_ANNOUNCE_ENABLED ||
    key == KEY_GLOBAL_ANNOUNCE_ENABLED || key == KEY_RELAYS_ENABLED || key == KEY_UR_ACCEPTED
  }

  predicate IsKnownOptionKey(key: string) {
    IsBooleanOptionKey(key) || key == KEY_DEVICE_NAME || key == KEY_LISTEN_ADDRESSES ||
    key == KEY_MAX_RECV_KBPS || key == KEY_MAX_SEND_KBPS || key == KEY_GLOBAL_ANNOUNCE_SERVERS ||
    key == KEY_ADDRESS
  }

  /** Syncthing runs with a loaded configuration: the precondition for editing its options. */
  predicate Running(state: ServiceState, serviceApi: Option<Api>) {
    serviceApi.Some? && serviceApi.value.configLoaded && state == Active
  }

  /** The Android result code of a granted permission. */
  const PERMISSION_GRANTED: int := 0

  /**
   * `onRequestPermissionsResult` of the activity: a location request counts as granted iff
   * at least one result came back and every result is PERMISSION_GRANTED; a grant asks the
   * service to refresh its network information.
   */
  method OnRequestPermissionsResult(isLocationRequest: bool, grantResults: seq<int>)
    returns (granted: bool, effect: Option<Effect>)
    ensures isLocationRequest ==>
              (granted <==> |grantResults| > 0 && forall i :: 0 <= i < |grantResults| ==> grantResults[i] == PERMISSION_GRANTED)
    ensures isLocationRequest && granted ==> effect == Some(RefreshNetworkInfo)
    ensures !(isLocationRequest && granted) ==> effect == None
  {
    granted := false;
    effect := None;
    if isLocationRequest {
      granted := |grantResults| > 0;
      var i := 0;
      while i < |grantResults|
        invariant 0 <= i <= |grantResults|
        invariant granted <==> |grantResults| > 0 && forall k :: 0 <= k < i ==> grantResults[k] == PERMISSION_GRANTED
      {
        if grantResults[i] != PERMISSION_GRANTED {
          granted := false;
          break;
        }
        i := i + 1;
      }
      if granted {
        effect := Some(RefreshNetworkInfo);
      }
    }
  }

  /** The whitelist summary: all networks when the joined names are empty. */
  function WhitelistSummaryOf(items: seq<string>): (w: WhitelistSummary)
    ensures w == AllWifiNetworks <==> items == [] || items == [[]]
  {
    JoinEmpty(items, ", ");
    var joined := Join(items, ", ");
    if joined == [] then AllWifiNetworks else WhitelistedNetworks(joined)
  }

  class SettingsFragment {
    const prefs: SharedPreferences
    /** `isEnabled` of each preference of the run-conditions category, in order. */
    const runConditionItems: array<bool>
    /** Positions of "run on metered wifi" and of the SSID whitelist within that category. */
    const meteredWifiIndex: nat
    const ssidWhitelistIndex: nat
    var runOnWifiChecked: bool

    var servicePresent: bool
    var api: Option<Api>
    var options: Option<Options>
    var gui: Option<Gui>
    var syncthingOptionsEnabled: bool
    var backupEnabled: bool

    var socksProxyEnabled: bool
    var httpProxyEnabled: bool
    var socksSummary: ProxySummary
    var httpSummary: ProxySummary
    var whitelistSummary: WhitelistSummary
    var powerSource: string
    var useRootChecked: bool

    var shown: ShownOptions

    var pendingConfig: bool
    var pendingRunConditions: bool
    var effects: seq<Effect>

    ghost predicate Valid()
      reads this
    {
      1 <= meteredWifiIndex < runConditionItems.Length &&
      1 <= ssidWhitelistIndex < runConditionItems.Length &&
      meteredWifiIndex != ssidWhitelistIndex &&
      (syncthingOptionsEnabled ==> api.Some?)
    }

    /** The screen as created, before the service reports a state. */
    constructor (prefs: SharedPreferences, items: array<bool>, meteredWifiIndex: nat, ssidWhitelistIndex: nat,
                 runOnWifiChecked: bool, useRootChecked: bool, useTorChecked: bool)
      requires 1 <= meteredWifiIndex < items.Length && 1 <= ssidWhitelistIndex < items.Length
      requires meteredWifiIndex != ssidWhitelistIndex
      ensures Valid() && this.prefs == prefs && runConditionItems == items
      ensures this.meteredWifiIndex == meteredWifiIndex && this.ssidWhitelistIndex == ssidWhitelistIndex
      ensures this.runOnWifiChecked == runOnWifiChecked && this.useRootChecked == useRootChecked
      ensures socksProxyEnabled == !useTorChecked && httpProxyEnabled == !useTorChecked
      ensures api == None && options == None && gui == None && !servicePresent
      ensures !syncthingOptionsEnabled && !backupEnabled
      ensures !pendingConfig && !pendingRunConditions && effects == []
    {
      this.prefs := prefs;
      runConditionItems := items;
      this.meteredWifiIndex := meteredWifiIndex;
      this.ssidWhitelistIndex := ssidWhitelistIndex;
      this.runOnWifiChecked := runOnWifiChecked;
      this.useRootChecked := useRootChecked;
      servicePresent := false;
      api := None;
      options := None;
      gui := None;
      syncthingOptionsEnabled := false;
      backupEnabled := false;
      socksProxyEnabled := !useTorChecked;
      httpProxyEnabled := !useTorChecked;
      socksSummary := Unset;
      httpSummary := Unset;
      whitelistSummary := AllWifiNetworks;
      powerSource := "";
      shown := ShownOptions("", None, "", "", "", "", None);
      pendingConfig := false;
      pendingRunConditions := false;
      effects := [];
    }

    /**
     * The category set-up in `onCreatePreferences`: the wifi-dependent items follow "run on
     * wifi", and when run conditions are off every item after the first is disabled.
     */
    method InitRunConditionItems(runConditionsChecked: bool)
      requires Valid()
      modifies runConditionItems
      ensures forall i :: 0 <= i < runConditionItems.Length ==>
                runConditionItems[i] ==
                  if !runConditionsChecked && i >= 1 then false
                  else if i == meteredWifiIndex || i == ssidWhitelistIndex then runOnWifiChecked
                  else old(runConditionItems[i])
    {
      runConditionItems[meteredWifiIndex] := runOnWifiChecked;
      runConditionItems[ssidWhitelistIndex] := runOnWifiChecked;
      if !runConditionsChecked {
        var index := 1;
        while index < runConditionItems.Length
          invariant 1 <= index <= runConditionItems.Length
          invariant forall i :: 1 <= i < index ==> !runConditionItems[i]
          invariant forall i :: index <= i < runConditionItems.Length ==>
                      runConditionItems[i] ==
                        if i == meteredWifiIndex || i == ssidWhitelistIndex then runOnWifiChecked
                        else old(runConditionItems[i])
          invariant runConditionItems[0] == old(runConditionItems[0])
        {
          runConditionItems[index] := false;
          index := index + 1;
        }
      }
    }

    /**
     * `onServiceStateChange`: the syncthing-options and backup categories are enabled iff
     * the api is there, its configuration is loaded and the state is ACTIVE; only then are
     * the options and GUI sections taken over from the api and shown in the preferences
     * (lists joined with ", ", numbers in decimal), and the usage-reporting choice is
     * requested. A missing options or GUI section throws NullPointerException once taken over.
     */
    method OnServiceStateChange(state: ServiceState, serviceApi: Option<Api>) returns (r: Result<(), Failure>)
      requires Valid()
      modifies this
      ensures Valid()
      ensures api == serviceApi
      ensures syncthingOptionsEnabled == Running(state, serviceApi) && backupEnabled == Running(state, serviceApi)
      ensures Running(state, serviceApi) ==> options == serviceApi.value.options && gui == serviceApi.value.gui
      ensures !Running(state, serviceApi) ==> r.Ok? && options == old(options) && gui == old(gui) && effects == old(effects)
      ensures Running(state, serviceApi) && (serviceApi.value.localDevice.None? || options.None? || gui.None?) ==>
                r == Err(NullPointer) && effects == old(effects)
      ensures Running(state, serviceApi) && serviceApi.value.localDevice.Some? && options.Some? && gui.Some? ==>
                r.Ok? && effects == old(effects) + [RequestSystemInfo]
      ensures r.Ok? && syncthingOptionsEnabled ==>
                shown.version == api.value.version && shown.deviceName == api.value.localDevice.value.name &&
                shown.listenAddresses == PrintCommaList(options.value.listenAddresses) &&
                shown.globalAnnounceServers == PrintCommaList(options.value.globalAnnounceServers) &&
                shown.maxRecvKbps == IntToString(options.value.maxRecvKbps) &&
                shown.maxSendKbps == IntToString(options.value.maxSendKbps) &&
                shown.address == gui.value.address
      ensures pendingConfig == old(pendingConfig) && pendingRunConditions == old(pendingRunConditions)
      ensures servicePresent == old(servicePresent)
    {
      api := serviceApi;
      syncthingOptionsEnabled := Running(state, serviceApi);
      backupEnabled := syncthingOptionsEnabled;
      r := Ok(());
      if syncthingOptionsEnabled {
        var current := serviceApi.value;
        shown := shown.(version := current.version);
        options := current.options;
        gui := current.gui;
        match current.localDevice
        case None =>
          r := Err(NullPointer);
        case Some(device) =>
        shown := shown.(deviceName := device.name);
        match current.options
        case None =>
          r := Err(NullPointer);
        case Some(o) =>
          shown := shown.(listenAddresses := PrintCommaList(o.listenAddresses),
                          maxRecvKbps := IntToString(o.maxRecvKbps),
                          maxSendKbps := IntToString(o.maxSendKbps),
                          globalAnnounceServers := PrintCommaList(o.globalAnnounceServers));
          match current.gui
          case None =>
            r := Err(NullPointer);
          case Some(g) =>
            shown := shown.(address := g.address);
            effects := effects + [RequestSystemInfo];
      }
    }

    /**
     * The service became available to the fragment. A fragment that is no longer attached
     * to its activity returns early and does not take the service.
     */
    method OnServiceConnected(attached: bool)
      modifies this
      ensures servicePresent == (old(servicePresent) || attached)
      ensures api == old(api) && options == old(options) && gui == old(gui)
      ensures syncthingOptionsEnabled == old(syncthingOptionsEnabled)
      ensures pendingConfig == old(pendingConfig) && pendingRunConditions == old(pendingRunConditions)
      ensures effects == old(effects)
    {
      if !attached {
        return;
      }
      servicePresent := true;
    }

    /**
     * `onRunConditionPreferenceChange`. Toggling run conditions sets `isEnabled` of every
     * item but the first to the new value, and when enabling, the two wifi-dependent items
     * follow "run on wifi". Every change sets `pendingRunConditions` and is accepted, after
     * which a switch holds the value it was changed to.
     */
    method OnRunConditionPreferenceChange(key: string, value: Value) returns (accepted: bool)
      requires Valid()
      requires key == PREF_RUN_CONDITIONS || key == PREF_RUN_ON_WIFI ==> value.BoolValue?
      requires key == PREF_WIFI_SSID_WHITELIST ==> value.TextSetValue?
      requires key == PREF_POWER_SOURCE ==> value.TextValue?
      modifies this, runConditionItems
      ensures Valid()
      ensures accepted && pendingRunConditions
      ensures key == PREF_RUN_CONDITIONS ==>
                forall i :: 0 <= i < runConditionItems.Length ==>
                  runConditionItems[i] ==
                    if i == 0 then old(runConditionItems[0])
                    else if value.b && (i == meteredWifiIndex || i == ssidWhitelistIndex) then runOnWifiChecked
                    else value.b
      ensures key == PREF_RUN_ON_WIFI ==>
                forall i :: 0 <= i < runConditionItems.Length ==>
                  runConditionItems[i] ==
                    if i == meteredWifiIndex || i == ssidWhitelistIndex then value.b else old(runConditionItems[i])
      ensures key != PREF_RUN_CONDITIONS && key != PREF_RUN_ON_WIFI ==>
                runConditionItems[..] == old(runConditionItems[..])
      ensures key == PREF_POWER_SOURCE ==> powerSource == value.text
      ensures key == PREF_WIFI_SSID_WHITELIST ==> whitelistSummary == WhitelistSummaryOf(value.items)
      ensures key == PREF_RUN_ON_WIFI ==> runOnWifiChecked == value.b
      ensures key != PREF_RUN_ON_WIFI ==> runOnWifiChecked == old(runOnWifiChecked)
      ensures key != PREF_POWER_SOURCE ==> powerSource == old(powerSource)
      ensures key != PREF_WIFI_SSID_WHITELIST ==> whitelistSummary == old(whitelistSummary)
      ensures pendingConfig == old(pendingConfig) && effects == old(effects)
      ensures options == old(options) && gui == old(gui) && api == old(api)
      ensures servicePresent == old(servicePresent) && useRootChecked == old(useRootChecked)
      ensures syncthingOptionsEnabled == old(syncthingOptionsEnabled) && backupEnabled == old(backupEnabled)
      ensures shown == old(shown)
    {
      if key == PREF_RUN_CONDITIONS {
        var enabled := value.b;
        var index := 1;
        while index < runConditionItems.Length
          modifies runConditionItems
          invariant 1 <= index <= runConditionItems.Length
          invariant forall i :: 1 <= i < index ==> runConditionItems[i] == enabled
          invariant forall i :: i == 0 || index <= i < runConditionItems.Length ==>
                      runConditionItems[i] == old(runConditionItems[i])
        {
          runConditionItems[index] := enabled;
          index := index + 1;
        }
        if enabled {
          runConditionItems[meteredWifiIndex] := runOnWifiChecked;
          runConditionItems[ssidWhitelistIndex] := runOnWifiChecked;
        }
      } else if key == PREF_POWER_SOURCE {
        powerSource := value.text;
      } else if key == PREF_RUN_ON_WIFI {
        // The switch stores the new value once the change is accepted.
        runOnWifiChecked := value.b;
        runConditionItems[meteredWifiIndex] := value.b;
        runConditionItems[ssidWhitelistIndex] := value.b;
      } else if key == PREF_WIFI_SSID_WHITELIST {
        whitelistSummary := WhitelistSummaryOf(value.items);
      }
      pendingRunConditions := true;
      return true;
    }

    /**
     * `onSyncthingPreferenceChange`, for the syncthing-options category, which is only
     * enabled, and so only changes, while the api is there. An unknown key throws
     * InvalidParameterException; a kbps value that is not a 32-bit integer is refused and
     * nothing changes; every other accepted change edits the options or GUI section, sends
     * both with `editSettings` and sets `pendingConfig`. A missing options or GUI section,
     * or a null text where the source dereferences it, throws NullPointerException.
     */
    method OnSyncthingPreferenceChange(key: string, value: Value) returns (r: Result<bool, Failure>)
      requires Valid() && syncthingOptionsEnabled
      requires IsBooleanOptionKey(key) ==> value.BoolValue?
      requires IsKnownOptionKey(key) && !IsBooleanOptionKey(key) ==> value.TextValue? || value.NullValue?
      modifies this
      ensures Valid()
      ensures api == old(api) && syncthingOptionsEnabled
      ensures !IsKnownOptionKey(key) ==> r == Err(InvalidParameter)
      ensures ((key == KEY_MAX_RECV_KBPS || key == KEY_MAX_SEND_KBPS) &&
               (value.NullValue? || ParseInt32(value.text).None?)) ==> r == Ok(false)
      ensures key == KEY_DEVICE_NAME ==> (r.Ok? <==> api.value.localDevice.Some?)
      ensures r.Ok? && r.value ==>
                pendingConfig &&
                effects == old(effects) +
                  (if key == KEY_DEVICE_NAME
                   then [EditDevice(api.value.localDevice.value.(name := if value.TextValue? then Some(value.text) else None))]
                   else if key == KEY_UR_ACCEPTED then [RequestSystemInfo] else []) +
                  [EditSettings(gui, options)]
      ensures !(r.Ok? && r.value) ==>
                pendingConfig == old(pendingConfig) && effects == old(effects) &&
                options == old(options) && gui == old(gui)
      ensures r.Ok? && r.value && key == KEY_LISTEN_ADDRESSES ==>
                value.TextValue? && old(options).Some? && options == Some(old(options).value.(listenAddresses := ParseCommaList(value.text, GuavaSpace)))
      ensures r.Ok? && r.value && key == KEY_GLOBAL_ANNOUNCE_SERVERS ==>
                value.TextValue? && old(options).Some? && options == Some(old(options).value.(globalAnnounceServers := ParseCommaList(value.text, GuavaSpace)))
      ensures r.Ok? && r.value && key == KEY_MAX_RECV_KBPS ==>
                old(options).Some? && options == Some(old(options).value.(maxRecvKbps := ParseInt32(value.text).value))
      ensures r.Ok? && r.value && key == KEY_MAX_SEND_KBPS ==>
                old(options).Some? && options == Some(old(options).value.(maxSendKbps := ParseInt32(value.text).value))
      ensures r.Ok? && r.value && key == KEY_NAT_ENABLED ==> old(options).Some? && options == Some(old(options).value.(natEnabled := value.b))
      ensures r.Ok? && r.value && key == KEY_LOCAL_ANNOUNCE_ENABLED ==>
                old(options).Some? && options == Some(old(options).value.(localAnnounceEnabled := value.b))
      ensures r.Ok? && r.value && key == KEY_GLOBAL_ANNOUNCE_ENABLED ==>
                old(options).Some? && options == Some(old(options).value.(globalAnnounceEnabled := value.b))
      ensures r.Ok? && r.value && key == KEY_RELAYS_ENABLED ==> old(options).Some? && options == Some(old(options).value.(relaysEnabled := value.b))
      ensures r.Ok? && r.value && key == KEY_ADDRESS ==>
                gui == Some(Gui(if value.TextValue? then Some(value.text) else None)) && options == old(options)
      ensures r.Ok? && r.value && (key == KEY_DEVICE_NAME || key == KEY_UR_ACCEPTED) ==>
                options == old(options) && gui == old(gui)
      ensures r.Ok? && r.value && key != KEY_ADDRESS ==> gui == old(gui)
      ensures r.Ok? ==> IsKnownOptionKey(key)
      ensures pendingRunConditions == old(pendingRunConditions)
    {
      if key == KEY_DEVICE_NAME {
        if api.value.localDevice.None? {
          return Err(NullPointer);
        }
        var name := if value.TextValue? then Some(value.text) else None;
        effects := effects + [EditDevice(api.value.localDevice.value.(name := name))];
      } else if key == KEY_LISTEN_ADDRESSES || key == KEY_GLOBAL_ANNOUNCE_SERVERS {
        if value.NullValue? || options.None? {
          return Err(NullPointer);
        }
        var list := ParseCommaList(value.text, GuavaSpace);
        if key == KEY_LISTEN_ADDRESSES {
          options := Some(options.value.(listenAddresses := list));
        } else {
          options := Some(options.value.(globalAnnounceServers := list));
        }
      } else if key == KEY_MAX_RECV_KBPS || key == KEY_MAX_SEND_KBPS {
        var parsed := if value.TextValue? then ParseInt32(value.text) else None;
        if parsed.None? {
          return Ok(false);
        }
        if options.None? {
          return Err(NullPointer);
        }
        if key == KEY_MAX_RECV_KBPS {
          options := Some(options.value.(maxRecvKbps := parsed.value));
        } else {
          options := Some(options.value.(maxSendKbps := parsed.value));
        }
      } else if key == KEY_NAT_ENABLED || key == KEY_LOCAL_ANNOUNCE_ENABLED ||
                key == KEY_GLOBAL_ANNOUNCE_ENABLED || key == KEY_RELAYS_ENABLED {
        if options.None? {
          return Err(NullPointer);
        }
        var o := options.value;
        if key == KEY_NAT_ENABLED {
          options := Some(o.(natEnabled := value.b));
        } else if key == KEY_LOCAL_ANNOUNCE_ENABLED {
          options := Some(o.(localAnnounceEnabled := value.b));
        } else if key == KEY_GLOBAL_ANNOUNCE_ENABLED {
          options := Some(o.(globalAnnounceEnabled := value.b));
        } else {
          options := Some(o.(relaysEnabled := value.b));
        }
      } else if key == KEY_ADDRESS {
        if gui.None? {
          return Err(NullPointer);
        }
        gui := Some(Gui(if value.TextValue? then Some(value.text) else None));
      } else if key == KEY_UR_ACCEPTED {
        effects := effects + [RequestSystemInfo];
      } else {
        return Err(InvalidParameter);
      }
      effects := effects + [EditSettings(gui, options)];
      pendingConfig := true;
      return Ok(true);
    }

    /**
     * The system-information callback requested for "urAccepted": it stores the choice in
     * the options section, after the edit was already sent, and sends nothing itself.
     */
    method OnUsageReportingSystemInfo(accept: bool, urVersionMax: int) returns (r: Result<(), Failure>)
      modifies this
      ensures options.None? ==> r == Err(NullPointer)
      ensures old(options).Some? ==>
                r.Ok? && options == Some(old(options).value.(urAccepted := if accept then urVersionMax else USAGE_REPORTING_DENIED))
      ensures effects == old(effects) && pendingConfig == old(pendingConfig)
      ensures old(options).None? ==> options == old(options)
      ensures api == old(api) && gui == old(gui) && syncthingOptionsEnabled == old(syncthingOptionsEnabled)
    {
      if options.None? {
        return Err(NullPointer);
      }
      options := Some(options.value.(urAccepted := if accept then urVersionMax else USAGE_REPORTING_DENIED));
      return Ok(());
    }

    /**
     * `handleSocksProxyPreferenceChange` and `handleHttpProxyPreferenceChange`: an empty
     * value turns the proxy off, an address of the scheme is used, anything else is
     * refused; the summary follows an accepted value.
     */
    method HandleProxyPreferenceChange(kind: ProxyKind, newValue: string) returns (accepted: bool)
      modifies this
      ensures accepted <==> ProxyAccepted(newValue, SchemeOf(kind))
      ensures accepted && kind == Socks ==> socksSummary == (if newValue == [] then NoProxy else UsesProxy(newValue))
      ensures accepted && kind == Http ==> httpSummary == (if newValue == [] then NoProxy else UsesProxy(newValue))
      ensures !accepted || kind == Http ==> socksSummary == old(socksSummary)
      ensures !accepted || kind == Socks ==> httpSummary == old(httpSummary)
      ensures pendingConfig == old(pendingConfig) && effects == old(effects)
      ensures api == old(api) && options == old(options) && gui == old(gui)
      ensures syncthingOptionsEnabled == old(syncthingOptionsEnabled)
      ensures socksProxyEnabled == old(socksProxyEnabled) && httpProxyEnabled == old(httpProxyEnabled)
      ensures pendingRunConditions == old(pendingRunConditions)
    {
      var summary := if newValue == [] then NoProxy else UsesProxy(newValue);
      accepted := ProxyAccepted(newValue, SchemeOf(kind));
      if accepted {
        if kind == Socks {
          socksSummary := summary;
        } else {
          httpSummary := summary;
        }
      }
    }

    /**
     * `onPreferenceChange` for the remaining preferences. Environment variables outside the
     * pattern are refused; a proxy value whose trimmed form equals the stored one is
     * refused; otherwise the trimmed value goes through the proxy handler. Accepted changes
     * of these keys, the debug facilities, the wake lock and Tor set `pendingConfig`; Tor
     * also disables both proxy preferences while it is on.
     */
    method OnPreferenceChange(key: string, value: Value) returns (accepted: bool)
      requires Valid()
      requires (key == PREF_ENVIRONMENT_VARIABLES || key == PREF_SOCKS_PROXY_ADDRESS ||
                key == PREF_HTTP_PROXY_ADDRESS) ==> value.TextValue?
      requires key == PREF_USE_TOR ==> value.BoolValue?
      modifies this
      ensures Valid()
      ensures key == PREF_ENVIRONMENT_VARIABLES ==>
                (accepted <==> EnvVarsMatch(value.text)) && pendingConfig == (old(pendingConfig) || accepted)
      ensures key == PREF_SOCKS_PROXY_ADDRESS || key == PREF_HTTP_PROXY_ADDRESS ==>
                var kind := if key == PREF_SOCKS_PROXY_ADDRESS then Socks else Http;
                var trimmed := Trim(value.text, JavaTrim);
                (accepted <==> trimmed != old(prefs.GetString(key, "")) && ProxyAccepted(trimmed, SchemeOf(kind))) &&
                pendingConfig == (old(pendingConfig) || accepted)
      ensures key == PREF_USE_TOR ==>
                accepted && pendingConfig && socksProxyEnabled == !value.b && httpProxyEnabled == !value.b
      ensures key == PREF_DEBUG_FACILITIES_ENABLED || key == PREF_USE_WAKE_LOCK ==> accepted && pendingConfig
      ensures key == PREF_APP_THEME ==> accepted && effects == old(effects) + [RecreateActivities]
      ensures key != PREF_APP_THEME ==> effects == old(effects)
      ensures key != PREF_USE_TOR ==> socksProxyEnabled == old(socksProxyEnabled) && httpProxyEnabled == old(httpProxyEnabled)
      ensures (key != PREF_ENVIRONMENT_VARIABLES && key != PREF_SOCKS_PROXY_ADDRESS &&
               key != PREF_HTTP_PROXY_ADDRESS) ==> accepted
      ensures (key != PREF_ENVIRONMENT_VARIABLES && key != PREF_SOCKS_PROXY_ADDRESS &&
               key != PREF_HTTP_PROXY_ADDRESS && key != PREF_USE_TOR && key != PREF_DEBUG_FACILITIES_ENABLED &&
               key != PREF_USE_WAKE_LOCK) ==> pendingConfig == old(pendingConfig)
      ensures api == old(api) && options == old(options) && gui == old(gui)
      ensures pendingRunConditions == old(pendingRunConditions)
    {
      if key == PREF_DEBUG_FACILITIES_ENABLED {
        pendingConfig := true;
      } else if key == PREF_ENVIRONMENT_VARIABLES {
        if EnvVarsMatch(value.text) {
          pendingConfig := true;
        } else {
          return false;
        }
      } else if key == PREF_USE_WAKE_LOCK {
        pendingConfig := true;
      } else if key == PREF_USE_TOR {
        socksProxyEnabled := !value.b;
        httpProxyEnabled := !value.b;
        pendingConfig := true;
      } else if key == PREF_SOCKS_PROXY_ADDRESS || key == PREF_HTTP_PROXY_ADDRESS {
        var kind := if key == PREF_SOCKS_PROXY_ADDRESS then Socks else Http;
        var trimmed := Trim(value.text, JavaTrim);
        if trimmed == prefs.GetString(key, "") {
          return false;
        }
        var ok := HandleProxyPreferenceChange(kind, trimmed);
        if ok {
          pendingConfig := true;
        } else {
          return false;
        }
      } else if key == PREF_APP_THEME {
        effects := effects + [RecreateActivities];
      }
      return true;
    }

    /**
     * "Use root" was clicked. When it shows checked, it is unchecked again until a root
     * test confirms access; when it shows unchecked, the app-data permissions are fixed and
     * a restart becomes pending.
     */
    method OnUseRootClick() returns (handled: bool)
      modifies this
      ensures handled
      ensures old(useRootChecked) ==>
                !useRootChecked && effects == old(effects) + [TestRootAccess] && pendingConfig == old(pendingConfig)
      ensures !old(useRootChecked) ==>
                !useRootChecked && effects == old(effects) + [FixAppDataPermissions] && pendingConfig
      ensures api == old(api) && options == old(options) && gui == old(gui)
    {
      if useRootChecked {
        useRootChecked := false;
        effects := effects + [TestRootAccess];
      } else {
        effects := effects + [FixAppDataPermissions];
        pendingConfig := true;
      }
      return true;
    }

    /** The root test finished: with root, "use root" is checked and a restart becomes pending. */
    method OnRootTestResult(haveRoot: bool)
      modifies this
      ensures haveRoot ==> useRootChecked && pendingConfig
      ensures !haveRoot ==> useRootChecked == old(useRootChecked) && pendingConfig == old(pendingConfig)
      ensures effects == old(effects) && api == old(api)
    {
      if haveRoot {
        pendingConfig := true;
        useRootChecked := true;
      }
    }

    /** The undo-ignored dialog was confirmed: with an api, the ignore lists are cleared. */
    method OnUndoIgnoredConfirmed()
      modifies this
      ensures api.Some? ==> effects == old(effects) + [UndoIgnoredDevicesAndFolders] && pendingConfig
      ensures api.None? ==> effects == old(effects) && pendingConfig == old(pendingConfig)
      ensures api == old(api)
    {
      if api.Some? {
        effects := effects + [UndoIgnoredDevicesAndFolders];
        pendingConfig := true;
      }
    }

    /**
     * `onStop`: with the service bound, the notification is refreshed; a pending config is
     * saved with a restart only when the api is there and the service is not DISABLED, and
     * only then cleared; pending run conditions are re-evaluated (and stay pending).
     */
    method OnStop(state: ServiceState)
      modifies this
      ensures var restart := servicePresent && old(pendingConfig) && api.Some? && state != Disabled;
              effects == old(effects) +
                (if servicePresent then [UpdatePersistentNotification] else []) +
                (if restart then [SaveConfigAndRestart] else []) +
                (if servicePresent && pendingRunConditions then [EvaluateRunConditions] else []) &&
              pendingConfig == (old(pendingConfig) && !restart)
      ensures pendingRunConditions == old(pendingRunConditions) && servicePresent == old(servicePresent)
      ensures api == old(api) && options == old(options) && gui == old(gui)
    {
      if servicePresent {
        effects := effects + [UpdatePersistentNotification];
        if pendingConfig {
          if api.Some? && state != Disabled {
            effects := effects + [SaveConfigAndRestart];
            pendingConfig := false;
          }
        }
        if pendingRunConditions {
          effects := effects + [EvaluateRunConditions];
        }
      }
    }
  }

  /**
   * Confirming the texts a state change displayed changes nothing: the lists parse back to
   * the options' lists when their entries are trimmed and non-empty (for either trimming
   * rule), and the numbers parse back to the 32-bit values.
   */
  lemma DisplayedOptionsParseBack(o: Options, kind: Whitespace)
    requires WellFormedEntries(o.listenAddresses, kind) && WellFormedEntries(o.globalAnnounceServers, kind)
    requires INT32_MIN <= o.maxRecvKbps <= INT32_MAX && INT32_MIN <= o.maxSendKbps <= INT32_MAX
    ensures ParseCommaList(PrintCommaList(o.listenAddresses), kind) == o.listenAddresses
    ensures ParseCommaList(PrintCommaList(o.globalAnnounceServers), kind) == o.globalAnnounceServers
    ensures ParseInt32(IntToString(o.maxRecvKbps)) == Some(o.maxRecvKbps)
    ensures ParseInt32(IntToString(o.maxSendKbps)) == Some(o.maxSendKbps)
  {
    PrintParseRoundTrip(o.listenAddresses, kind);
    PrintParseRoundTrip(o.globalAnnounceServers, kind);
    ParseIntToString(o.maxRecvKbps, 0);
    ParseIntToString(o.maxSendKbps, 0);
  }
}
