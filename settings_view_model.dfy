/**
 * The Compose settings screen's view model (SettingsViewModel). It keeps the texts of the
 * editable fields as state, reads them from the REST client's configuration, and writes
 * changes back with `editSettings`/`editDevice` followed by a restart. Its background
 * coroutines are modelled as running to completion at the call; the one-second delays and
 * toasts are not modelled.
 *
 * The REST client's configuration is the value `config`: `editDevice` and `editSettings`
 * replace the device and sections they are given, and every call is also recorded in
 * `effects`.
 */
module SettingsViewModelModule {
  import opened Wrappers
  import opened Strings
  import opened Preferences
  import opened SettingsValidation
  import opened SyncthingConfig
  import LegacySettings

  /**
   * The options after `updateSettings` applied the given texts: each list split at ',',
   * trimmed with empties dropped, each number parsed (0 when not an integer); a text not
   * given leaves its option, and no other option changes.
   */
  function ApplyOptionTexts(o: Options, newListenAddresses: Option<string>, newMaxRecv: Option<string>,
                            newMaxSend: Option<string>, newAnnounceServers: Option<string>): (n: Options)
    ensures newListenAddresses.Some? ==> n.listenAddresses == ParseCommaList(newListenAddresses.value, KotlinSpace)
    ensures newListenAddresses.None? ==> n.listenAddresses == o.listenAddresses
    ensures newMaxRecv.Some? ==> n.maxRecvKbps == ComposeKbps(newMaxRecv.value)
    ensures newMaxRecv.None? ==> n.maxRecvKbps == o.maxRecvKbps
    ensures newMaxSend.Some? ==> n.maxSendKbps == ComposeKbps(newMaxSend.value)
    ensures newMaxSend.None? ==> n.maxSendKbps == o.maxSendKbps
    ensures newAnnounceServers.Some? ==> n.globalAnnounceServers == ParseCommaList(newAnnounceServers.value, KotlinSpace)
    ensures newAnnounceServers.None? ==> n.globalAnnounceServers == o.globalAnnounceServers
    ensures n.natEnabled == o.natEnabled && n.localAnnounceEnabled == o.localAnnounceEnabled &&
            n.globalAnnounceEnabled == o.globalAnnounceEnabled && n.relaysEnabled == o.relaysEnabled &&
            n.urAccepted == o.urAccepted
  {
    var listen := if newListenAddresses.Some? then ParseCommaList(newListenAddresses.value, KotlinSpace) else o.listenAddresses;
    o.(listenAddresses := listen,
       maxRecvKbps := if newMaxRecv.Some? then ComposeKbps(newMaxRecv.value) else o.maxRecvKbps,
       maxSendKbps := if newMaxSend.Some? then ComposeKbps(newMaxSend.value) else o.maxSendKbps,
       globalAnnounceServers :=
         if newAnnounceServers.Some? then ParseCommaList(newAnnounceServers.value, KotlinSpace) else o.globalAnnounceServers)
  }

  /** The options section after `updateSettings`, when there is one. */
  function AppliedOptions(options: Option<Options>, newListenAddresses: Option<string>, newMaxRecv: Option<string>,
                          newMaxSend: Option<string>, newAnnounceServers: Option<string>): Option<Options>
  {
    match options
    case Some(o) => Some(ApplyOptionTexts(o, newListenAddresses, newMaxRecv, newMaxSend, newAnnounceServers))
    case None => None
  }

  /** The GUI section after `updateSettings`: a given address replaces the section's. */
  function AppliedGui(gui: Option<Gui>, newGuiAddress: Option<string>): Option<Gui> {
    match gui
    case Some(g) => Some(if newGuiAddress.Some? then Gui(newGuiAddress) else g)
    case None => None
  }

  const VERSION_UNKNOWN: string := "Couldn't get version. Is syncthing running?"

  class SettingsViewModel {
    const prefs: SharedPreferences
    var config: Option<Api>
    var isServiceConnected: bool

    var deviceName: string
    var listenAddresses: string
    var maxRecvKbps: string
    var maxSendKbps: string
    var globalAnnounceServers: string
    var guiAddress: string
    var environmentVariables: string
    var httpProxyAddress: string
    var socksProxyAddress: string
    var syncthingVersion: string
    var syncthingAppVersion: string
    var useTor: bool

    var effects: seq<Effect>

    /** The field holding the text typed for a proxy. */
    function ProxyField(kind: ProxyKind): string
      reads this
    {
      match kind
      case Socks => socksProxyAddress
      case Http => httpProxyAddress
    }

    /** The stored proxy address of `kind` is empty or of its pattern. */
    predicate StoredProxyAccepted(kind: ProxyKind)
      reads this, prefs
    {
      ProxyAccepted(prefs.GetString(PrefKeyOf(kind), ""), SchemeOf(kind))
    }

    /** The stored environment variables match the line pattern. */
    predicate StoredEnvironmentAccepted()
      reads this, prefs
    {
      EnvVarsMatch(prefs.GetString(PREF_ENVIRONMENT_VARIABLES, ""))
    }

    constructor (prefs: SharedPreferences)
      ensures this.prefs == prefs && config == None && !isServiceConnected && effects == []
      ensures deviceName == ".." && listenAddresses == "" && maxRecvKbps == "0" && maxSendKbps == "0"
      ensures globalAnnounceServers == "" && guiAddress == "" && environmentVariables == ""
      ensures httpProxyAddress == "" && socksProxyAddress == "" && syncthingVersion == VERSION_UNKNOWN
      ensures !useTor
    {
      this.prefs := prefs;
      config := None;
      isServiceConnected := false;
      deviceName := "..";
      listenAddresses := "";
      maxRecvKbps := "0";
      maxSendKbps := "0";
      globalAnnounceServers := "";
      guiAddress := "";
      environmentVariables := "";
      httpProxyAddress := "";
      socksProxyAddress := "";
      syncthingVersion := VERSION_UNKNOWN;
      syncthingAppVersion := "";
      useTor := false;
      effects := [];
    }

    /** `loadInitialValues`: the stored texts, the syncthing version when known, the Tor switch. */
    method LoadInitialValues(appVersion: string)
      modifies this
      ensures environmentVariables == prefs.GetString(PREF_ENVIRONMENT_VARIABLES, "")
      ensures httpProxyAddress == prefs.GetString(PREF_HTTP_PROXY_ADDRESS, "")
      ensures socksProxyAddress == prefs.GetString(PREF_SOCKS_PROXY_ADDRESS, "")
      ensures syncthingVersion == (if config.Some? then config.value.version else old(syncthingVersion))
      ensures syncthingAppVersion == appVersion && useTor == prefs.GetBoolean(PREF_USE_TOR, false)
      ensures config == old(config) && effects == old(effects)
      ensures deviceName == old(deviceName) && listenAddresses == old(listenAddresses)
    {
      environmentVariables := prefs.GetString(PREF_ENVIRONMENT_VARIABLES, "");
      httpProxyAddress := prefs.GetString(PREF_HTTP_PROXY_ADDRESS, "");
      socksProxyAddress := prefs.GetString(PREF_SOCKS_PROXY_ADDRESS, "");
      if config.Some? {
        syncthingVersion := config.value.version;
      }
      syncthingAppVersion := appVersion;
      useTor := prefs.GetBoolean(PREF_USE_TOR, false);
    }

    /**
     * `refreshValues`: with a configuration, the device name (empty when there is no
     * device or no name), the option texts when the options section is there (lists joined
     * with ", ", numbers in decimal) and the GUI address (empty when null) when the GUI
     * section is there.
     */
    method RefreshValues()
      modifies this
      ensures config.Some? ==>
                deviceName == (match config.value.localDevice
                               case Some(d) => d.name.GetOr("")
                               case None => "")
      ensures config.Some? && config.value.options.Some? ==>
                var o := config.value.options.value;
                listenAddresses == PrintCommaList(o.listenAddresses) &&
                maxRecvKbps == IntToString(o.maxRecvKbps) && maxSendKbps == IntToString(o.maxSendKbps) &&
                globalAnnounceServers == PrintCommaList(o.globalAnnounceServers)
      ensures config.Some? && config.value.gui.Some? ==> guiAddress == config.value.gui.value.address.GetOr("")
      ensures config.None? ==> deviceName == old(deviceName) && guiAddress == old(guiAddress)
      ensures (config.None? || config.value.options.None?) ==>
                listenAddresses == old(listenAddresses) && maxRecvKbps == old(maxRecvKbps) &&
                maxSendKbps == old(maxSendKbps) && globalAnnounceServers == old(globalAnnounceServers)
      ensures config.Some? && config.value.gui.None? ==> guiAddress == old(guiAddress)
      ensures config == old(config) && effects == old(effects) && isServiceConnected == old(isServiceConnected)
      ensures environmentVariables == old(environmentVariables)
      ensures socksProxyAddress == old(socksProxyAddress) && httpProxyAddress == old(httpProxyAddress)
    {
      if config.Some? {
        var current := config.value;
        deviceName := match current.localDevice
                      case Some(d) => d.name.GetOr("")
                      case None => "";
        if current.options.Some? {
          var o := current.options.value;
          listenAddresses := PrintCommaList(o.listenAddresses);
          maxRecvKbps := IntToString(o.maxRecvKbps);
          maxSendKbps := IntToString(o.maxSendKbps);
          globalAnnounceServers := PrintCommaList(o.globalAnnounceServers);
        }
        if current.gui.Some? {
          guiAddress := current.gui.value.address.GetOr("");
        }
      }
    }

    /** `setService`: take the service's REST client, mark the service connected, refresh. */
    method SetService(serviceApi: Option<Api>)
      modifies this
      ensures config == serviceApi && isServiceConnected && effects == old(effects)
      ensures config.Some? ==>
                deviceName == (match config.value.localDevice
                               case Some(d) => d.name.GetOr("")
                               case None => "")
      ensures config.Some? && config.value.options.Some? ==>
                var o := config.value.options.value;
                listenAddresses == PrintCommaList(o.listenAddresses) &&
                maxRecvKbps == IntToString(o.maxRecvKbps) && maxSendKbps == IntToString(o.maxSendKbps) &&
                globalAnnounceServers == PrintCommaList(o.globalAnnounceServers)
      ensures config.Some? && config.value.gui.Some? ==> guiAddress == config.value.gui.value.address.GetOr("")
      ensures config.None? ==> deviceName == old(deviceName) && guiAddress == old(guiAddress)
      ensures (config.None? || config.value.options.None?) ==>
                listenAddresses == old(listenAddresses) && maxRecvKbps == old(maxRecvKbps) &&
                maxSendKbps == old(maxSendKbps) && globalAnnounceServers == old(globalAnnounceServers)
      ensures config.Some? && config.value.gui.None? ==> guiAddress == old(guiAddress)
      ensures environmentVariables == old(environmentVariables)
      ensures socksProxyAddress == old(socksProxyAddress) && httpProxyAddress == old(httpProxyAddress)
    {
      config := serviceApi;
      isServiceConnected := true;
      RefreshValues();
    }

    /** `restartSyncthing`: a restart when there is a REST client. */
    method RestartSyncthing()
      modifies this
      ensures effects == old(effects) + (if config.Some? then [SaveConfigAndRestart] else [])
      ensures config == old(config)
    {
      if config.Some? {
        effects := effects + [SaveConfigAndRestart];
      }
    }

    /**
     * `updateDeviceName`: only when there is a REST client with a local device whose name
     * differs from the new one is the device renamed, followed by a restart.
     */
    method UpdateDeviceName(newName: string)
      modifies this
      ensures var renames := old(config).Some? && old(config).value.localDevice.Some? &&
                             old(config).value.localDevice.value.name != Some(newName);
              (renames ==>
                 var d := old(config).value.localDevice.value.(name := Some(newName));
                 config == Some(old(config).value.(localDevice := Some(d))) &&
                 effects == old(effects) + [EditDevice(d), SaveConfigAndRestart]) &&
              (!renames ==> config == old(config) && effects == old(effects))
      ensures deviceName == old(deviceName) && listenAddresses == old(listenAddresses)
    {
      if config.None? {
        return;
      }
      var current := config.value;
      if current.localDevice.Some? && current.localDevice.value.name != Some(newName) {
        var d := current.localDevice.value.(name := Some(newName));
        config := Some(current.(localDevice := Some(d)));
        effects := effects + [EditDevice(d), SaveConfigAndRestart];
      }
    }

    /**
     * `updateSettings`: each given text is applied to the options section when there is
     * one (lists split at ',', trimmed, empties dropped; numbers parsed, 0 when not an
     * integer), a given GUI address to the GUI section when there is one. When anything was
     * applied both sections are sent and syncthing restarts.
     */
    method UpdateSettings(newListenAddresses: Option<string>, newMaxRecv: Option<string>, newMaxSend: Option<string>,
                          newAnnounceServers: Option<string>, newGuiAddress: Option<string>)
      returns (changed: bool)
      modifies this
      ensures old(config).None? ==> !changed && config == old(config) && effects == old(effects)
      ensures old(config).Some? ==>
                var c := old(config).value;
                (changed <==> (c.options.Some? && (newListenAddresses.Some? || newMaxRecv.Some? || newMaxSend.Some? ||
                                                   newAnnounceServers.Some?)) ||
                              (c.gui.Some? && newGuiAddress.Some?))
      ensures changed ==>
                var c := old(config).value;
                config.Some? && config.value.version == c.version && config.value.localDevice == c.localDevice &&
                effects == old(effects) + [EditSettings(config.value.gui, config.value.options), SaveConfigAndRestart]
      ensures !changed ==> config == old(config) && effects == old(effects)
      ensures changed ==>
                config.value.options ==
                  AppliedOptions(old(config).value.options, newListenAddresses, newMaxRecv, newMaxSend, newAnnounceServers)
      ensures changed ==> config.value.gui == AppliedGui(old(config).value.gui, newGuiAddress)
      ensures deviceName == old(deviceName) && listenAddresses == old(listenAddresses)
    {
      changed := false;
      if config.None? {
        return;
      }
      var current := config.value;
      var options, gui;
      changed, options, gui := ApplySections(current.options, current.gui, newListenAddresses, newMaxRecv, newMaxSend,
                                             newAnnounceServers, newGuiAddress);
      if changed {
        config := Some(current.(options := options, gui := gui));
        effects := effects + [EditSettings(gui, options), SaveConfigAndRestart];
      }
    }

    /**
     * The edits `updateSettings` makes to the two sections it reads, and whether it made
     * any.
     */
    static method ApplySections(options: Option<Options>, gui: Option<Gui>, newListenAddresses: Option<string>,
                                newMaxRecv: Option<string>, newMaxSend: Option<string>, newAnnounceServers: Option<string>,
                                newGuiAddress: Option<string>)
      returns (changed: bool, options': Option<Options>, gui': Option<Gui>)
      ensures changed <==> (options.Some? && (newListenAddresses.Some? || newMaxRecv.Some? || newMaxSend.Some? ||
                                              newAnnounceServers.Some?)) ||
                           (gui.Some? && newGuiAddress.Some?)
      ensures options' == AppliedOptions(options, newListenAddresses, newMaxRecv, newMaxSend, newAnnounceServers)
      ensures gui' == AppliedGui(gui, newGuiAddress)
    {
      changed := false;
      options', gui' := options, gui;
      if options'.Some? {
        changed := newListenAddresses.Some? || newMaxRecv.Some? || newMaxSend.Some? || newAnnounceServers.Some?;
        options' := Some(ApplyOptionTexts(options'.value, newListenAddresses, newMaxRecv, newMaxSend, newAnnounceServers));
      }
      if gui'.Some? && newGuiAddress.Some? {
        gui' := Some(Gui(newGuiAddress));
        changed := true;
      }
    }

    /** `resetIgnored`: with a REST client, clear the ignore lists and restart. */
    method ResetIgnored()
      modifies this
      ensures effects == old(effects) + (if config.Some? then [UndoIgnoredDevicesAndFolders, SaveConfigAndRestart] else [])
      ensures config == old(config)
    {
      if config.Some? {
        effects := effects + [UndoIgnoredDevicesAndFolders, SaveConfigAndRestart];
      }
    }

    /**
     * `updateEnvironmentVariables`: a field matching the pattern is stored and syncthing
     * restarts (when there is a REST client); otherwise the field reverts to the stored
     * value. Either way the stored value keeps matching the pattern.
     */
    method UpdateEnvironmentVariables()
      modifies this, prefs
      ensures EnvVarsMatch(old(environmentVariables)) ==>
                prefs.strings == old(prefs.strings)[PREF_ENVIRONMENT_VARIABLES := old(environmentVariables)] &&
                environmentVariables == old(environmentVariables) &&
                effects == old(effects) + (if config.Some? then [SaveConfigAndRestart] else [])
      ensures !EnvVarsMatch(old(environmentVariables)) ==>
                prefs.strings == old(prefs.strings) &&
                environmentVariables == prefs.GetString(PREF_ENVIRONMENT_VARIABLES, "") &&
                effects == old(effects)
      ensures old(StoredEnvironmentAccepted()) ==> StoredEnvironmentAccepted()
      ensures prefs.bools == old(prefs.bools) && config == old(config)
      ensures socksProxyAddress == old(socksProxyAddress) && httpProxyAddress == old(httpProxyAddress)
    {
      if EnvVarsMatch(environmentVariables) {
        prefs.PutString(PREF_ENVIRONMENT_VARIABLES, environmentVariables);
        if config.Some? {
          effects := effects + [SaveConfigAndRestart];
        }
      } else {
        environmentVariables := prefs.GetString(PREF_ENVIRONMENT_VARIABLES, "");
      }
    }

    /**
     * `onRootChanged`, with the outcome of the root check as `hasRoot`: enabling without
     * root stores "use root" as off; enabling with root restarts; disabling fixes the
     * app-data permissions and restarts. Restarts need a REST client.
     */
    method OnRootChanged(enabled: bool, hasRoot: bool)
      modifies this, prefs
      ensures enabled && !hasRoot ==>
                prefs.bools == old(prefs.bools)[PREF_USE_ROOT := false] && effects == old(effects)
      ensures enabled && hasRoot ==>
                prefs.bools == old(prefs.bools) && effects == old(effects) + (if config.Some? then [SaveConfigAndRestart] else [])
      ensures !enabled ==>
                prefs.bools == old(prefs.bools) &&
                effects == old(effects) + [FixAppDataPermissions] + (if config.Some? then [SaveConfigAndRestart] else [])
      ensures prefs.strings == old(prefs.strings) && config == old(config)
    {
      if enabled {
        if !hasRoot {
          prefs.PutBoolean(PREF_USE_ROOT, false);
        } else if config.Some? {
          effects := effects + [SaveConfigAndRestart];
        }
      } else {
        effects := effects + [FixAppDataPermissions];
        if config.Some? {
          effects := effects + [SaveConfigAndRestart];
        }
      }
    }

    /**
     * `updateSocksProxy` and `updateHttpProxy`: without a REST client nothing happens. With
     * one, the trimmed field is stored and syncthing restarts when it is empty or of the
     * proxy pattern; otherwise the field reverts to the stored value. Either way the stored
     * address stays empty or of the pattern.
     */
    method UpdateProxy(kind: ProxyKind)
      modifies this, prefs
      ensures var input := Trim(old(ProxyField(kind)), KotlinSpace);
              (old(config).None? ==> prefs.strings == old(prefs.strings) && effects == old(effects) &&
                                     ProxyField(kind) == old(ProxyField(kind))) &&
              (old(config).Some? && ProxyAccepted(input, SchemeOf(kind)) ==>
                 prefs.strings == old(prefs.strings)[PrefKeyOf(kind) := input] &&
                 effects == old(effects) + [SaveConfigAndRestart] && ProxyField(kind) == old(ProxyField(kind))) &&
              (old(config).Some? && !ProxyAccepted(input, SchemeOf(kind)) ==>
                 prefs.strings == old(prefs.strings) && effects == old(effects) &&
                 ProxyField(kind) == prefs.GetString(PrefKeyOf(kind), ""))
      ensures old(StoredProxyAccepted(kind)) ==> StoredProxyAccepted(kind)
      ensures kind == Socks ==> httpProxyAddress == old(httpProxyAddress)
      ensures kind == Http ==> socksProxyAddress == old(socksProxyAddress)
      ensures prefs.bools == old(prefs.bools) && config == old(config)
      ensures environmentVariables == old(environmentVariables)
    {
      var input := Trim(ProxyField(kind), KotlinSpace);
      if config.None? {
        return;
      }
      if ProxyAccepted(input, SchemeOf(kind)) {
        prefs.PutString(PrefKeyOf(kind), input);
        effects := effects + [SaveConfigAndRestart];
        assert prefs.GetString(PrefKeyOf(kind), "") == input;
        return;
      }
      var stored := prefs.GetString(PrefKeyOf(kind), "");
      if kind == Socks {
        socksProxyAddress := stored;
      } else {
        httpProxyAddress := stored;
      }
    }
  }

  /**
   * Saving the texts a refresh displayed leaves the options as they were: the lists come
   * back when their entries are trimmed and non-empty, and the numbers come back.
   */
  lemma RefreshedTextsSaveBack(o: Options)
    requires WellFormedEntries(o.listenAddresses, KotlinSpace) && WellFormedEntries(o.globalAnnounceServers, KotlinSpace)
    requires INT32_MIN <= o.maxRecvKbps <= INT32_MAX && INT32_MIN <= o.maxSendKbps <= INT32_MAX
    ensures ParseCommaList(PrintCommaList(o.listenAddresses), KotlinSpace) == o.listenAddresses
    ensures ParseCommaList(PrintCommaList(o.globalAnnounceServers), KotlinSpace) == o.globalAnnounceServers
    ensures ComposeKbps(IntToString(o.maxRecvKbps)) == o.maxRecvKbps
    ensures ComposeKbps(IntToString(o.maxSendKbps)) == o.maxSendKbps
  {
    LegacySettings.DisplayedOptionsParseBack(o, KotlinSpace);
  }
}
