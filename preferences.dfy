/**
 * Android SharedPreferences as an object holding one map per value type. A read of an
 * absent key yields the caller's default; writes replace the map they touch.
 */
module Preferences {

  // Keys shared by several screens. The class that defines them is not part of this
  // model; only their being distinct matters here.
  const PREF_FIRST_START: string := "first_start"
  const PREF_UPGRADED_TO_API_LEVEL_30: string := "upgraded_to_api_level_30"
  const PREF_USE_ROOT: string := "use_root"
  const PREF_START_INTO_WEB_GUI: string := "start_into_web_gui"
  const PREF_ENVIRONMENT_VARIABLES: string := "environment_variables"
  const PREF_DEBUG_FACILITIES_AVAILABLE: string := "debug_facilities_available"
  const PREF_RUN_CONDITIONS: string := "run_conditions"
  const PREF_POWER_SOURCE: string := "power_source"
  const PREF_RUN_ON_WIFI: string := "run_on_wifi"
  const PREF_RUN_ON_METERED_WIFI: string := "run_on_metered_wifi"
  const PREF_WIFI_SSID_WHITELIST: string := "wifi_ssid_whitelist"
  const PREF_DEBUG_FACILITIES_ENABLED: string := "debug_facilities_enabled"
  const PREF_USE_WAKE_LOCK: string := "wakelock_while_binary_running"
  const PREF_USE_TOR: string := "use_tor"
  const PREF_SOCKS_PROXY_ADDRESS: string := "socks_proxy_address"
  const PREF_HTTP_PROXY_ADDRESS: string := "http_proxy_address"
  const PREF_APP_THEME: string := "theme"

  /** The stored value of `key`, or `default` when the key is absent. */
  function Lookup<V>(m: map<string, V>, key: string, default: V): V {
    if key in m then m[key] else default
  }

  class SharedPreferences {
    var bools: map<string, bool>
    var strings: map<string, string>
    var stringSets: map<string, set<string>>

    constructor (bools: map<string, bool>, strings: map<string, string>, stringSets: map<string, set<string>>)
      ensures this.bools == bools && this.strings == strings && this.stringSets == stringSets
    {
      this.bools := bools;
      this.strings := strings;
      this.stringSets := stringSets;
    }

    function GetBoolean(key: string, default: bool): bool
      reads this
    {
      Lookup(bools, key, default)
    }

    function GetString(key: string, default: string): string
      reads this
    {
      Lookup(strings, key, default)
    }

    function GetStringSet(key: string, default: set<string>): set<string>
      reads this
    {
      Lookup(stringSets, key, default)
    }

    method PutBoolean(key: string, value: bool)
      modifies this
      ensures bools == old(bools)[key := value]
      ensures strings == old(strings) && stringSets == old(stringSets)
    {
      bools := bools[key := value];
    }

    method PutString(key: string, value: string)
      modifies this
      ensures strings == old(strings)[key := value]
      ensures bools == old(bools) && stringSets == old(stringSets)
    {
      strings := strings[key := value];
    }

    /** `remove(key)` drops the key whatever type its value has. */
    method Remove(key: string)
      modifies this
      ensures bools == old(bools) - {key}
      ensures strings == old(strings) - {key}
      ensures stringSets == old(stringSets) - {key}
    {
      bools := bools - {key};
      strings := strings - {key};
      stringSets := stringSets - {key};
    }
  }
}
