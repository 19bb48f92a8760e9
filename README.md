# syncthing-android: the rules behind the screens, in Dafny

This project models the small, self-contained rules of the syncthing-android app and its
native build script, and proves what they promise. Permissions, stored preferences, the
file system and the syncthing REST client are inputs or recorded effects.

- **First-run wizard** (`FirstStartWizard`, `FirstStartScreen`). The view-based
  FirstStartActivity and the Compose FirstStartScreen share one specification:
  - five slides in a fixed order, a gate that can refuse Next, and a skip rule per slide;
  - a forward scan that lands on the next slide that is not skipped, or finishes;
  - the "upgraded to API level 30" flag.
- **Settings.** The preference-screen `SettingsFragment` is written twice, once in Kotlin
  and once in Java, with the same rules; it is modelled once, as `LegacySettings`.
  - The Compose `SettingsViewModel` is its own class (`SettingsViewModelModule`).
  - Both use `SettingsValidation`: the proxy and environment-variable patterns, each proved
    equal to a direct reading of its regular expression, the comma lists and the kbps
    integers.
  - REST calls (editSettings, editDevice, saveConfigAndRestart, undo ignored) are
    recorded in order as `Config.Effect` values.
- **Device editor** (`DeviceEditor`): the address line codec, with its dynamic address,
  proved to round-trip. Also dirty tracking and the edit that is sent on close.
- **Folder picker** (`FolderPicker`): the roots (filtered, de-duplicated, sorted), the
  directory-first listing, and the back, click, create and select actions, over a file
  system given as a value.
- **Storage Access Framework paths** (`SafPaths`): tree-URI document ids to absolute
  paths, and the external-files content URI.
- **Wi-Fi whitelist** (`WifiSsid`, `WifiSsidPreference`): quote stripping, SSID validity,
  the offered list and its message, and the preference's summary.
  - The default selection is the empty set, which allows every network.
- **Debug facilities** (`Sttrace`), **broadcast receiver registry** (`Receivers`), and the
  **web GUI** rules (`WebGui`):
  - TLS errors are overridden for local URL prefixes only.
  - Links stay in the WebView when their host matches.
  - The proxy properties are written.
  - The Basic authorization header follows section 2 of RFC 7617. It is built on UTF-8
    (`Utf8`) and on Base64 as in section 4 of RFC 4648 (`Base64`); both codecs are proved
    to round-trip.
- **Build script** (`BuildScript`, for syncthing/build-syncthing.py):
  - the minSdk line parser, the NDK rule, the platform and target tables;
  - compiler and artifact paths;
  - the whole build loop over a workspace of files, with its command log.
- Shared helpers:
  - `Strings`: the library semantics the source relies on. This covers Java and Kotlin
    split and trim, `Integer.parseInt` and `toIntOrNull`, Python `str.split` and `int`,
    and the name order of `sortWith`/`sorted`.
  - `Preferences`: SharedPreferences as a class with typed maps.
  - `Wrappers`: Option and Result.

## Model

| member | source | states |
|---|---|---|
| Strings.TrimStart | app/src/main/kotlin/dev/benedek/syncthingandroid/ui/SettingsViewModel.kt:140 | trimming the front removes exactly the leading whitespace of the chosen kind |
| Strings.TrimEnd | app/src/main/kotlin/dev/benedek/syncthingandroid/ui/SettingsViewModel.kt:140 | trimming the end removes exactly the trailing whitespace of the chosen kind |
| Strings.TrimSpec | app/src/main/kotlin/dev/benedek/syncthingandroid/ui/SettingsViewModel.kt:318 | a trimmed text is a slice of the input with no whitespace at either end, and an unpadded text is its own trim |
| Strings.TrimAfterBlank | app/src/main/kotlin/dev/benedek/syncthingandroid/ui/SettingsViewModel.kt:140 | a blank put in front of an unpadded entry is trimmed away again |
| Strings.SplitAll | app/src/main/kotlin/dev/benedek/syncthingandroid/activities/DeviceActivity.kt:446 | splitting at a character gives at least one field, none holding the separator |
| Strings.JoinSplitAll | app/src/main/kotlin/dev/benedek/syncthingandroid/activities/DeviceActivity.kt:446 | joining the fields of a split with the separator gives the text back |
| Strings.SplitAllJoin | app/src/main/kotlin/dev/benedek/syncthingandroid/activities/DeviceActivity.kt:446-456 | splitting a join of separator-free fields gives the fields back |
| Strings.DropTrailingEmpties | app/src/main/kotlin/dev/benedek/syncthingandroid/activities/DeviceActivity.kt:447 | dropLastWhile removes exactly the trailing empty fields |
| Strings.JavaSplitCases | app/src/main/java/com/nutomic/syncthingandroid/util/FileUtils.java:180 | Java's split gives [""] for the empty text, nothing for a text of separators only, and all fields for a text not ending in the separator |
| Strings.LastFieldOfSplit | app/src/main/kotlin/dev/benedek/syncthingandroid/activities/DeviceActivity.kt:446-447 | a text not ending in the separator ends in a non-empty field |
| Strings.NameLeTotal | app/src/main/kotlin/dev/benedek/syncthingandroid/activities/FolderPickerActivity.kt:233 | any two names are ordered one way or the other |
| Strings.NameLeTransitive | app/src/main/kotlin/dev/benedek/syncthingandroid/activities/FolderPickerActivity.kt:233 | the name order is transitive |
| Strings.NameLeAntisymmetric | app/src/main/kotlin/dev/benedek/syncthingandroid/activities/FolderPickerActivity.kt:233 | names ordered both ways are equal |
| Strings.StrictlySortedDistinct | app/src/main/kotlin/dev/benedek/syncthingandroid/activities/FolderPickerActivity.kt:144 | a strictly sorted list holds each path once, in increasing order |
| Strings.FirstIndex | app/src/main/kotlin/dev/benedek/syncthingandroid/activities/FolderPickerActivity.kt:116 | the index of the first occurrence, or the length when there is none |
| Strings.RemoveFirst | app/src/main/java/com/nutomic/syncthingandroid/util/FileUtils.java:154 | List.remove drops the first occurrence only, and nothing when there is none |
| Strings.NatToString | app/src/main/kotlin/dev/benedek/syncthingandroid/ui/SettingsViewModel.kt:88-89 | the decimal form of a number is a non-empty run of digits |
| Strings.NatToStringValue | app/src/main/kotlin/dev/benedek/syncthingandroid/ui/SettingsViewModel.kt:88-89 | the decimal form of a number has that number as its value |
| Strings.ParseInt32 | app/src/main/java/dev/benedek/syncthingandroid/activities/SettingsActivity.java:469 | Integer.parseInt accepts an optional sign and one or more decimal digits of any script (Character.digit in radix 10: the 37 digit blocks of the Basic Multilingual Plane) whose value fits in 32 bits; any 32-bit value it gives is in range |
| Strings.ParseIntToString | app/src/main/kotlin/dev/benedek/syncthingandroid/ui/SettingsViewModel.kt:144 | a 32-bit number printed in decimal parses back to itself, and so does its decimal form written with the digits of any other script |
| Strings.ParseIntRejectsNonDigit | app/src/main/java/dev/benedek/syncthingandroid/activities/SettingsActivity.java:469 | text with a character after the first that is not a decimal digit of any script is rejected |
| SettingsValidation.TrailingDigitCount | app/src/main/kotlin/dev/benedek/syncthingandroid/activities/SettingsActivity.kt:853 | counts the longest run of decimal digits at the end of the text: every counted character is a digit and the character before the run is not |
| SettingsValidation.ProxyMatchesIffPattern | app/src/main/kotlin/dev/benedek/syncthingandroid/activities/SettingsActivity.kt:841-895 | the proxy decision accepts exactly the texts of the form scheme, any text without a line terminator, ':' and one to five digits, that is the whole-input match of `^socks5://.*:\d{1,5}$` or `^http://.*:\d{1,5}$` |
| SettingsValidation.SocksExamples | app/src/main/java/dev/benedek/syncthingandroid/activities/SettingsActivity.java:732-764 | "socks5://127.0.0.1:9050" is a valid SOCKS address; a six-digit port, a missing port and an http:// address are not; "http://host:8118" is a valid HTTP address |
| SettingsValidation.EnvPairHasNoBlank | app/src/main/kotlin/dev/benedek/syncthingandroid/activities/SettingsActivity.kt:603 | a `\w+=[\w:/.]+` pair contains no blank |
| SettingsValidation.EnvVarsAcceptsPairs | app/src/main/kotlin/dev/benedek/syncthingandroid/activities/SettingsActivity.kt:603 | every line made of such pairs joined by single blanks, optionally led by one blank, and the empty line are accepted by `^(\w+=[\w:/.]+)?( \w+=[\w:/.]+)*$` |
| SettingsValidation.EnvVarsMatchIsPairs | app/src/main/java/dev/benedek/syncthingandroid/activities/SettingsActivity.java:549-558 | every accepted line is its blank-separated fields joined by blanks, the first empty or a pair and all later ones pairs |
| SettingsValidation.EnvVarsRejectsEmptyFields | app/src/main/java/dev/benedek/syncthingandroid/activities/SettingsActivity.java:549-558 | a doubled, trailing or doubled leading blank makes the line rejected |
| SettingsValidation.TrimNonEmpty | app/src/main/kotlin/dev/benedek/syncthingandroid/ui/SettingsViewModel.kt:140 | the trimmed non-empty fields are no more than the fields, and each is non-empty and unpadded |
| SettingsValidation.TrimNonEmptyKeepsOut | app/src/main/kotlin/dev/benedek/syncthingandroid/ui/SettingsViewModel.kt:140 | a character absent from every field is absent from every trimmed entry |
| SettingsValidation.ParseCommaListWellFormed | app/src/main/kotlin/dev/benedek/syncthingandroid/activities/SettingsActivity.kt:499 | every entry that Guava's `Splitter.on(",").trimResults().omitEmptyStrings()` or Kotlin's split/trim/filter yields is non-empty, unpadded and free of commas |
| SettingsValidation.PrintAsCommaJoin | app/src/main/kotlin/dev/benedek/syncthingandroid/ui/SettingsViewModel.kt:87 | joining with ", " is joining with "," the first entry and the later entries each led by one blank |
| SettingsValidation.PrintParseRoundTrip | app/src/main/kotlin/dev/benedek/syncthingandroid/ui/SettingsViewModel.kt:87-90 | parsing the ", "-joined form of non-empty, comma-free, unpadded entries gives those entries back |
| SettingsValidation.TrimFieldsBack | app/src/main/kotlin/dev/benedek/syncthingandroid/ui/SettingsViewModel.kt:140 | fields that are the entries, some led by one blank, trim back to the entries |
| SettingsValidation.ParsePrintParse | app/src/main/kotlin/dev/benedek/syncthingandroid/ui/SettingsViewModel.kt:87-90 | a list obtained by parsing survives printing and parsing again unchanged |
| SettingsValidation.ComposeKbps | app/src/main/kotlin/dev/benedek/syncthingandroid/ui/SettingsViewModel.kt:143-150 | text that is a 32-bit integer, in the decimal digits of any script, gives that integer; any other text gives 0 |
| LegacySettings.OnRequestPermissionsResult | app/src/main/java/dev/benedek/syncthingandroid/activities/SettingsActivity.java:78-98 | a location request counts as granted exactly when at least one result came back and every result is PERMISSION_GRANTED; only a grant asks the service to refresh its network information |
| LegacySettings.WhitelistSummaryOf | app/src/main/kotlin/dev/benedek/syncthingandroid/activities/SettingsActivity.kt:481-492 | the whitelist summary says "all networks" exactly when the names joined with ", " are empty: no names, or one empty name |
| LegacySettings.SettingsFragment.constructor | app/src/main/kotlin/dev/benedek/syncthingandroid/activities/SettingsActivity.kt:260-305 | the screen starts with no api and nothing pending, the options and backup categories disabled, and both proxy preferences enabled exactly when Tor is off |
| LegacySettings.SettingsFragment.InitRunConditionItems | app/src/main/kotlin/dev/benedek/syncthingandroid/activities/SettingsActivity.kt:260-286 | the metered-wifi and whitelist items follow "run on wifi"; when run conditions are off, every item after the first is disabled |
| LegacySettings.SettingsFragment.OnServiceStateChange | app/src/main/java/dev/benedek/syncthingandroid/activities/SettingsActivity.java:376-404 | the syncthing-options and backup categories are enabled exactly when the api is present, its config is loaded and the state is ACTIVE; only then are the options and GUI taken over and shown, lists joined with ", " and numbers in decimal; a missing section then throws NullPointerException |
| LegacySettings.SettingsFragment.OnServiceConnected | app/src/main/kotlin/dev/benedek/syncthingandroid/activities/SettingsActivity.kt:393-399 | an attached fragment now has the service; a detached one returns early and stays as it was; nothing else changes |
| LegacySettings.SettingsFragment.OnRunConditionPreferenceChange | app/src/main/kotlin/dev/benedek/syncthingandroid/activities/SettingsActivity.kt:450-496 | run conditions set every item but the first to the new value and, when enabling, the wifi-dependent items follow "run on wifi"; run on wifi sets both wifi-dependent items and the switch then holds its new value, which a later run-conditions change reads; every change is accepted and sets pending run conditions without touching pending config |
| LegacySettings.SettingsFragment.OnSyncthingPreferenceChange | app/src/main/java/dev/benedek/syncthingandroid/activities/SettingsActivity.java:455-519 | an unknown key throws InvalidParameterException; kbps text that is not a 32-bit integer (decimal digits of any script) is refused and nothing changes; every accepted key edits exactly its own field, sends the options and GUI with editSettings and sets pending config |
| LegacySettings.SettingsFragment.OnUsageReportingSystemInfo | app/src/main/kotlin/dev/benedek/syncthingandroid/activities/SettingsActivity.kt:563-568 | the usage-reporting answer stores the system's highest version when accepted and the denied value otherwise, and sends nothing |
| LegacySettings.SettingsFragment.HandleProxyPreferenceChange | app/src/main/kotlin/dev/benedek/syncthingandroid/activities/SettingsActivity.kt:841-895 | a proxy value is accepted exactly when it is empty or matches the scheme's pattern; an accepted value sets the summary (no proxy, or the address), and a refused one changes nothing |
| LegacySettings.SettingsFragment.OnPreferenceChange | app/src/main/kotlin/dev/benedek/syncthingandroid/activities/SettingsActivity.kt:600-660 | environment variables outside the pattern are refused and pending config is kept; a proxy value whose trimmed form equals the stored one is refused without setting pending config; otherwise the trimmed value goes to the proxy handler; Tor disables both proxy preferences while on; the accepted keys set pending config |
| LegacySettings.SettingsFragment.OnUseRootClick | app/src/main/kotlin/dev/benedek/syncthingandroid/activities/SettingsActivity.kt:665-675 | when "use root" shows checked it is unchecked and a root test starts; otherwise the app-data permissions are fixed and a restart becomes pending |
| LegacySettings.SettingsFragment.OnRootTestResult | app/src/main/kotlin/dev/benedek/syncthingandroid/activities/SettingsActivity.kt:820-834 | a root grant checks "use root" and sets pending config; a refusal changes nothing |
| LegacySettings.SettingsFragment.OnUndoIgnoredConfirmed | app/src/main/kotlin/dev/benedek/syncthingandroid/activities/SettingsActivity.kt:726-748 | with an api, the ignore lists are cleared and pending config is set; without one nothing changes |
| LegacySettings.SettingsFragment.OnStop | app/src/main/kotlin/dev/benedek/syncthingandroid/activities/SettingsActivity.kt:578-594 | the restart runs exactly when the service is bound, config is pending, the api is present and the state is not DISABLED, and pending config is cleared exactly then; pending run conditions are evaluated and stay pending |
| LegacySettings.DisplayedOptionsParseBack | app/src/main/kotlin/dev/benedek/syncthingandroid/activities/SettingsActivity.kt:415-424 | the option texts shown on a state change parse back to the same lists and numbers, for either trimming rule, when the entries are non-empty, comma-free and unpadded |
| SettingsViewModelModule.ApplyOptionTexts | app/src/main/kotlin/dev/benedek/syncthingandroid/ui/SettingsViewModel.kt:137-155 | each given list text becomes its comma-split, trimmed, non-empty entries, each given kbps text its integer or 0; options whose text is not given, and every other option, are unchanged |
| SettingsViewModelModule.SettingsViewModel.constructor | app/src/main/kotlin/dev/benedek/syncthingandroid/ui/SettingsViewModel.kt:29-47 | the fields start with the source's initial texts ("..", "0", "0", the unknown-version text), no REST client and nothing sent |
| SettingsViewModelModule.SettingsViewModel.LoadInitialValues | app/src/main/kotlin/dev/benedek/syncthingandroid/ui/SettingsViewModel.kt:50-61 | the environment and proxy fields show the stored texts, the version shows the client's when there is one, and the Tor switch shows the stored flag |
| SettingsViewModelModule.SettingsViewModel.RefreshValues | app/src/main/kotlin/dev/benedek/syncthingandroid/ui/SettingsViewModel.kt:78-98 | with a client, the device name is the device's name or empty; the option texts are the lists joined with ", " and the numbers in decimal when the options section exists; the GUI address is the section's or empty; any missing part leaves its fields unchanged |
| SettingsViewModelModule.SettingsViewModel.SetService | app/src/main/kotlin/dev/benedek/syncthingandroid/ui/SettingsViewModel.kt:63-70 | the client is taken over, the service is marked connected and the fields are refreshed from it |
| SettingsViewModelModule.SettingsViewModel.RestartSyncthing | app/src/main/kotlin/dev/benedek/syncthingandroid/ui/SettingsViewModel.kt:72-75 | a restart is requested exactly when there is a client |
| SettingsViewModelModule.SettingsViewModel.UpdateDeviceName | app/src/main/kotlin/dev/benedek/syncthingandroid/ui/SettingsViewModel.kt:99-117 | the device is renamed, sent with editDevice and followed by a restart exactly when there is a client with a local device whose name differs; otherwise nothing changes |
| SettingsViewModelModule.SettingsViewModel.UpdateSettings | app/src/main/kotlin/dev/benedek/syncthingandroid/ui/SettingsViewModel.kt:120-170 | with a client, a change happens exactly when some given text meets an existing options section or a given GUI address meets an existing GUI section; the sections then become the applied ones and are sent with editSettings, followed by a restart; otherwise nothing is sent |
| SettingsViewModelModule.SettingsViewModel.ApplySections | app/src/main/kotlin/dev/benedek/syncthingandroid/ui/SettingsViewModel.kt:135-160 | the if-chain of updateSettings: the changed flag holds exactly in the cases above, and the two sections come out as the applied options and GUI |
| SettingsViewModelModule.SettingsViewModel.ResetIgnored | app/src/main/kotlin/dev/benedek/syncthingandroid/ui/SettingsViewModel.kt:172-199 | with a client, the ignore lists are cleared and syncthing restarts; without one nothing is sent |
| SettingsViewModelModule.SettingsViewModel.UpdateEnvironmentVariables | app/src/main/kotlin/dev/benedek/syncthingandroid/ui/SettingsViewModel.kt:244-265 | matching text is stored and syncthing restarts when there is a client; other text reverts the field to the stored value and leaves the preferences untouched; a stored value that matched keeps matching |
| SettingsViewModelModule.SettingsViewModel.OnRootChanged | app/src/main/kotlin/dev/benedek/syncthingandroid/ui/SettingsViewModel.kt:288-312 | enabling without root stores "use root" as off; enabling with root restarts; disabling fixes the app-data permissions and restarts; restarts need a client |
| SettingsViewModelModule.SettingsViewModel.UpdateProxy | app/src/main/kotlin/dev/benedek/syncthingandroid/ui/SettingsViewModel.kt:317-384 | without a client nothing changes; with one, the trimmed field is stored and syncthing restarts when it is empty or of the proxy pattern, and otherwise the field reverts to the stored value; a stored address that was empty or of the pattern stays so, and the other proxy's field is untouched |
| SettingsViewModelModule.RefreshedTextsSaveBack | app/src/main/kotlin/dev/benedek/syncthingandroid/ui/SettingsViewModel.kt:87-90 | saving the texts a refresh shows gives back the same lists and numbers when the entries are non-empty, comma-free and unpadded |
| DeviceEditor.PersistableAddresses | app/src/main/kotlin/dev/benedek/syncthingandroid/activities/DeviceActivity.kt:442-449 | a null or empty line is the single dynamic address; any other line gives blank-free entries with no trailing empty entry |
| DeviceEditor.AddressesRoundTrip | app/src/main/kotlin/dev/benedek/syncthingandroid/activities/DeviceActivity.kt:442-457 | reading back the line shown for a non-empty list of blank-free entries that does not end in an empty entry gives the same list |
| DeviceEditor.LineRoundTrip | app/src/main/kotlin/dev/benedek/syncthingandroid/activities/DeviceActivity.kt:442-457 | showing what was read from a non-empty line that does not end in a blank gives that line back |
| DeviceEditor.DynamicLines | app/src/main/kotlin/dev/benedek/syncthingandroid/activities/DeviceActivity.kt:442-457 | an empty line and the line "dynamic" both store the dynamic address, which is shown as "dynamic" |
| DeviceEditor.DeviceActivity.constructor | app/src/main/kotlin/dev/benedek/syncthingandroid/activities/DeviceActivity.kt:39-45 | the editor starts with its mode and device, unmarked, nothing sent |
| DeviceEditor.DeviceActivity.InitDevice | app/src/main/kotlin/dev/benedek/syncthingandroid/activities/DeviceActivity.kt:412-420 | a new device carries the given name and identifier, the dynamic address, metadata compression, and is neither introducer nor paused |
| DeviceEditor.DeviceActivity.OnIdChanged | app/src/main/kotlin/dev/benedek/syncthingandroid/activities/DeviceActivity.kt:68-75 | a different identifier text is stored and marks the device; the same text changes nothing |
| DeviceEditor.DeviceActivity.OnNameChanged | app/src/main/kotlin/dev/benedek/syncthingandroid/activities/DeviceActivity.kt:77-84 | a different name text is stored and marks the device; the same text changes nothing |
| DeviceEditor.DeviceActivity.OnAddressesChanged | app/src/main/kotlin/dev/benedek/syncthingandroid/activities/DeviceActivity.kt:86-93 | a line other than the one shown is read into the address list and marks the device; the shown line changes nothing |
| DeviceEditor.DeviceActivity.OnIntroducerChecked | app/src/main/kotlin/dev/benedek/syncthingandroid/activities/DeviceActivity.kt:95-101 | the introducer switch is always stored and always marks the device |
| DeviceEditor.DeviceActivity.OnPauseChecked | app/src/main/kotlin/dev/benedek/syncthingandroid/activities/DeviceActivity.kt:95-106 | the pause switch is always stored and always marks the device |
| DeviceEditor.DeviceActivity.OnCompressionSelected | app/src/main/kotlin/dev/benedek/syncthingandroid/activities/DeviceActivity.kt:51-65 | only a different compression is stored and marks the device |
| DeviceEditor.DeviceActivity.UpdateDevice | app/src/main/kotlin/dev/benedek/syncthingandroid/activities/DeviceActivity.kt:436-440 | the device is sent with editDevice exactly when in edit mode, marked and present; nothing else changes |
| FirstStartWizard.NextTarget | app/src/main/kotlin/dev/benedek/syncthingandroid/activities/FirstStartActivity.kt:167-175 | the forward scan lands on the first later slide that is not skipped, every slide it passes is skipped, and it finds none exactly when every later slide is skipped |
| FirstStartWizard.AfterUpgradeCheckKeepsContext | app/src/main/kotlin/dev/benedek/syncthingandroid/activities/FirstStartActivity.kt:201-210 | writing the upgrade flag changes none of the values the skip rules read, is idempotent, happens only when the check answers true, and leaves the preferences alone when it answers false |
| FirstStartWizard.LabelAt | app/src/main/kotlin/dev/benedek/syncthingandroid/activities/FirstStartActivity.kt:268-273 | the Next button reads "finish" exactly on the last slide |
| FirstStartWizard.FirstStartActivity.constructor | app/src/main/kotlin/dev/benedek/syncthingandroid/activities/FirstStartActivity.kt:47-53 | the wizard starts on the first slide, back hidden, not shown and not started |
| FirstStartWizard.FirstStartActivity.UpgradedToApiLevel30 | app/src/main/kotlin/dev/benedek/syncthingandroid/activities/FirstStartActivity.kt:201-210 | answers true when the flag is stored or on first start, writing the flag in the latter case; otherwise false with nothing written |
| FirstStartWizard.FirstStartActivity.ShouldSkipSlide | app/src/main/kotlin/dev/benedek/syncthingandroid/activities/FirstStartActivity.kt:232-245 | the skip rule of each slide: intro unless first start, storage and location when granted, API 30 when upgraded or running as root, notification when granted or below SDK 33 |
| FirstStartWizard.FirstStartActivity.SetCurrentItem | app/src/main/kotlin/dev/benedek/syncthingandroid/activities/FirstStartActivity.kt:268-273 | moving the pager sets the position and relabels the Next button for it |
| FirstStartWizard.FirstStartActivity.StartApp | app/src/main/kotlin/dev/benedek/syncthingandroid/activities/FirstStartActivity.kt:346-360 | the main screen is started; the wizard's own state is unchanged |
| FirstStartWizard.FirstStartActivity.OnBtnBackClick | app/src/main/kotlin/dev/benedek/syncthingandroid/activities/FirstStartActivity.kt:129-138 | one slide back when there is one, hiding the back button on the first slide; nothing on the first slide |
| FirstStartWizard.FirstStartActivity.OnBtnNextClick | app/src/main/kotlin/dev/benedek/syncthingandroid/activities/FirstStartActivity.kt:140-182 | a refused gate (storage not granted, API 30 not upgraded) changes nothing; otherwise the pager lands on the next slide that is not skipped with back visible, or, when none is left, first start is cleared and the app started; the upgrade flag is written only when the scan asks for it |
| FirstStartWizard.FirstStartActivity.OnResetDatabaseClick | app/src/main/kotlin/dev/benedek/syncthingandroid/activities/FirstStartActivity.kt:308-314 | after the reset the upgrade flag is stored; from the API 30 slide the wizard then lands on the first later slide not skipped (back shown, Next relabelled) or, when every later slide is skipped, clears first start and starts the app; other preferences are unchanged |
| FirstStartWizard.FirstStartActivity.OnCreate | app/src/main/kotlin/dev/benedek/syncthingandroid/activities/FirstStartActivity.kt:64-126 | the wizard is bypassed and the app started exactly when it is not the first start, storage is granted and the device is upgraded; otherwise it is shown on the first slide, and when it is not the first start it moves on as one press of Next would, relabelling Next; no preference is changed |
| FirstStartScreen.Screen.constructor | app/src/main/kotlin/dev/benedek/syncthingandroid/ui/FirstStart.kt:84-95 | the permission states start as the platform reports them and the upgraded state is true exactly when the flag is stored or it is still the first start |
| FirstStartScreen.Screen.CanAdvance | app/src/main/kotlin/dev/benedek/syncthingandroid/ui/FirstStart.kt:135-151 | the gate refuses exactly on the storage slide without storage and on the API 30 slide when not upgraded |
| FirstStartScreen.Screen.ShouldSkip | app/src/main/kotlin/dev/benedek/syncthingandroid/ui/FirstStart.kt:154-167 | the skip rule of each slide read off the screen's state; notification by a live query, always skipped below SDK 33 |
| FirstStartScreen.Screen.BackEnabled | app/src/main/kotlin/dev/benedek/syncthingandroid/ui/FirstStart.kt:270-271 | the back button is enabled exactly past the first page |
| FirstStartScreen.Screen.NextEnabled | app/src/main/kotlin/dev/benedek/syncthingandroid/ui/FirstStart.kt:313 | the next button is enabled exactly when the lifecycle is resumed and the gate lets the page go |
| FirstStartScreen.Screen.OnNext | app/src/main/kotlin/dev/benedek/syncthingandroid/ui/FirstStart.kt:170-186 | a refused gate changes nothing; otherwise the pager scrolls to the wizard's next target, or the wizard finishes when there is none |
| FirstStartScreen.Screen.OnBack | app/src/main/kotlin/dev/benedek/syncthingandroid/ui/FirstStart.kt:188-193 | one page back when there is one, skip rules not consulted |
| FirstStartScreen.Screen.AutoSkipIntro | app/src/main/kotlin/dev/benedek/syncthingandroid/ui/FirstStart.kt:196-200 | Next is pressed on first composition exactly when the intro is to be skipped, landing where the wizard's scan says |
| FirstStartScreen.Screen.OnResume | app/src/main/kotlin/dev/benedek/syncthingandroid/ui/FirstStart.kt:98-103 | on resume the three permission states are re-read and nothing else changes |
| FirstStartScreen.Screen.OnLocationResult | app/src/main/kotlin/dev/benedek/syncthingandroid/ui/FirstStart.kt:118-123 | location counts as granted exactly when every requested permission was granted |
| FirstStartScreen.Screen.OnStorageResult | app/src/main/kotlin/dev/benedek/syncthingandroid/ui/FirstStart.kt:112-116 | the storage state is re-read from the platform and nothing else changes |
| FirstStartScreen.Screen.OnNotificationResult | app/src/main/kotlin/dev/benedek/syncthingandroid/ui/FirstStart.kt:125-130 | the notification state takes the launcher's answer and nothing else changes |
| FirstStartScreen.Screen.OnUpgradeDatabase | app/src/main/kotlin/dev/benedek/syncthingandroid/ui/FirstStart.kt:227-230 | the screen turns upgraded and the upgrade flag is stored, taking `performApi30Upgrade` to store it as `upgradeToApiLevel30` does |
| FirstStartScreen.NextLandsOnTarget | app/src/main/kotlin/dev/benedek/syncthingandroid/ui/FirstStart.kt:174-185 | where the scan stops is the wizard's next target |
| FirstStartScreen.ScreenAgreesWithActivity | app/src/main/kotlin/dev/benedek/syncthingandroid/ui/FirstStart.kt:154-167 | when the screen's state agrees with the platform and the stored flags, its skip rules are the activity's |
| FirstStartScreen.FinishLabelOnLastPage | app/src/main/kotlin/dev/benedek/syncthingandroid/ui/FirstStart.kt:317-319 | the finish label shows exactly on the notification slide, the last page |
| FolderPicker.FileName | app/src/main/kotlin/dev/benedek/syncthingandroid/activities/FolderPickerActivity.kt:262 | a file's name is the end of its path after the last '/' and holds no '/' |
| FolderPicker.ParentPath | app/src/main/kotlin/dev/benedek/syncthingandroid/activities/FolderPickerActivity.kt:82 | the parent of a path is a shorter prefix of it; there is none exactly for the root "/" and for a path without '/' |
| FolderPicker.SortListing | app/src/main/kotlin/dev/benedek/syncthingandroid/activities/FolderPickerActivity.kt:231-234 | the sorted listing holds the same entries, directories before files and each group by name |
| FolderPicker.ToSortedSet | app/src/main/kotlin/dev/benedek/syncthingandroid/activities/FolderPickerActivity.kt:144 | the roots are added as the distinct paths of the list, in increasing order |
| FolderPicker.CreateIntentExtras | app/src/main/kotlin/dev/benedek/syncthingandroid/activities/FolderPickerActivity.kt:329-345 | the initial and root directories are passed exactly when neither null nor empty, with their own values, and nothing else is passed |
| FolderPicker.RootCandidates | app/src/main/kotlin/dev/benedek/syncthingandroid/activities/FolderPickerActivity.kt:118-134 | a non-empty root directory passed in is the only candidate; otherwise the standard directories, and for the advanced picker also the entries of /storage/ and "/"; an unreadable /storage/ in the advanced picker is the error |
| FolderPicker.BackFromFilesystemRootCrashes | app/src/main/kotlin/dev/benedek/syncthingandroid/activities/FolderPickerActivity.kt:79-90 | the back callback as written, at "/" with one other root, asks to show the null parent folder |
| FolderPicker.BackAction | app/src/main/kotlin/dev/benedek/syncthingandroid/activities/FolderPickerActivity.kt:72-90 | back goes up to the parent when outside the roots, up to the roots when there is no parent or when at one of several roots, and cancels otherwise; it never shows a null folder and agrees with the callback as written wherever that one does not |
| FolderPicker.FolderPickerActivity.constructor | app/src/main/kotlin/dev/benedek/syncthingandroid/activities/FolderPickerActivity.kt:65-70 | the picker starts with no roots, no files, no location and no result |
| FolderPicker.FolderPickerActivity.PopulateRoots | app/src/main/kotlin/dev/benedek/syncthingandroid/activities/FolderPickerActivity.kt:113-145 | the roots are exactly the distinct existing directories among the external files dirs without the app's own and the root candidates, in sorted order; an unreadable /storage/ adds no roots |
| FolderPicker.FolderPickerActivity.ExistingDirectories | app/src/main/kotlin/dev/benedek/syncthingandroid/activities/FolderPickerActivity.kt:136-142 | the kept entries are exactly the candidates that are not null and are existing directories |
| FolderPicker.FolderPickerActivity.Contains | app/src/main/kotlin/dev/benedek/syncthingandroid/activities/FolderPickerActivity.kt:283-288 | a file is contained exactly when it is not null and equals a root |
| FolderPicker.FolderPickerActivity.DisplayFolder | app/src/main/kotlin/dev/benedek/syncthingandroid/activities/FolderPickerActivity.kt:224-240 | the folder becomes the location and its entries, sorted, the files list; an unreadable folder shows nothing |
| FolderPicker.FolderPickerActivity.AddFiles | app/src/main/kotlin/dev/benedek/syncthingandroid/activities/FolderPickerActivity.kt:236-238 | the entries are appended to the files list in order |
| FolderPicker.FolderPickerActivity.DisplayRoot | app/src/main/kotlin/dev/benedek/syncthingandroid/activities/FolderPickerActivity.kt:305-314 | with one root that root becomes the location and its listing, sorted, the files shown; otherwise the roots list with no location and no files |
| FolderPicker.FolderPickerActivity.OnCreate | app/src/main/kotlin/dev/benedek/syncthingandroid/activities/FolderPickerActivity.kt:92-98 | the roots are populated, then the initial directory is shown when given and the roots otherwise; the files shown are the location's listing, or none over the roots; the file system and the result are unchanged |
| FolderPicker.FolderPickerActivity.OnItemClick | app/src/main/kotlin/dev/benedek/syncthingandroid/activities/FolderPickerActivity.kt:242-249 | clicking a directory enters it and shows its listing; clicking anything else changes nothing |
| FolderPicker.FolderPickerActivity.OnBack | app/src/main/kotlin/dev/benedek/syncthingandroid/activities/FolderPickerActivity.kt:79-90 | the back callback follows the corrected back action: up one directory showing its listing, to the roots (or the single root's listing), or cancel with the list unchanged |
| FolderPicker.FolderPickerActivity.CreateFolder | app/src/main/kotlin/dev/benedek/syncthingandroid/activities/FolderPickerActivity.kt:212-219 | a folder that mkdir created joins the file system, is listed in its parent, and is entered empty; a failed mkdir changes nothing |
| FolderPicker.FolderPickerActivity.OnSelect | app/src/main/kotlin/dev/benedek/syncthingandroid/activities/FolderPickerActivity.kt:194-199 | the location is returned as the result; with no location the call fails and nothing changes |
| FolderPicker.FolderPickerActivity.OnServiceStateChange | app/src/main/kotlin/dev/benedek/syncthingandroid/activities/FolderPickerActivity.kt:294-299 | a state other than active cancels the picker unless it is already finishing |
| FolderPicker.DirectoriesFirst | app/src/main/kotlin/dev/benedek/syncthingandroid/activities/FolderPickerActivity.kt:231-234 | in a sorted listing every entry before a directory is a directory |
| FolderPicker.NamesInOrder | app/src/main/kotlin/dev/benedek/syncthingandroid/activities/FolderPickerActivity.kt:231-234 | in a sorted listing the directories, and likewise the files, are in name order |
| FolderPicker.ChildPath | app/src/main/kotlin/dev/benedek/syncthingandroid/activities/FolderPickerActivity.kt:213 | a new folder's path is its parent's path, a '/', then its name |
| FolderPicker.WithNewDirectory | app/src/main/kotlin/dev/benedek/syncthingandroid/activities/FolderPickerActivity.kt:214 | after mkdir the new folder is a directory, empty, and listed last in its parent |
| SafPaths.CutTrailingSlash | app/src/main/java/com/nutomic/syncthingandroid/util/FileUtils.java:195-201 | a path ending in '/' loses exactly that one '/'; any other path is returned unchanged |
| SafPaths.CutTrailingSlashOnce | app/src/main/java/com/nutomic/syncthingandroid/util/FileUtils.java:195-201 | only one slash goes: "/storage//" becomes "/storage/", "/" becomes "" and "/storage" stays |
| SafPaths.FirstFieldOfSplit | app/src/main/java/com/nutomic/syncthingandroid/util/FileUtils.java:180 | the first field of a split is a prefix of the text that ends at the first separator or at the end |
| SafPaths.VolumeId | app/src/main/java/com/nutomic/syncthingandroid/util/FileUtils.java:178-186 | the volume id is the text before the first ':', with no ':' in it; it is null exactly when the document id is non-empty and made only of ':' characters, which is when Java's split leaves no field |
| SafPaths.NotAllSeparators | app/src/main/java/com/nutomic/syncthingandroid/util/FileUtils.java:180-185 | a split from which Java drops every field came from a text made only of separators |
| SafPaths.DocumentPath | app/src/main/java/com/nutomic/syncthingandroid/util/FileUtils.java:188-193 | the second ':'-field when Java's split keeps at least two fields (it then holds no ':'), and "/" otherwise |
| SafPaths.AbsolutePathFromTreeUri | app/src/main/java/com/nutomic/syncthingandroid/util/FileUtils.java:42-76 | a null URI or a null volume id gives null; a volume with no known mount path gives "/"; otherwise the result starts with the volume's path without one trailing '/' |
| SafPaths.TreeUriPath | app/src/main/java/com/nutomic/syncthingandroid/util/FileUtils.java:56-72 | the document id "volume:path", with a non-empty path not starting with '/', gives the volume's path and the document path, each without one trailing '/', joined by exactly one '/' |
| SafPaths.SplitVolumeAndPath | app/src/main/java/com/nutomic/syncthingandroid/util/FileUtils.java:178-193 | "volume:path" with no other ':' splits into exactly the volume and the path, which are then the volume id and the document path |
| SafPaths.VolumeRootPath | app/src/main/java/com/nutomic/syncthingandroid/util/FileUtils.java:63-75 | a document id with nothing after the ':' gives the volume's own path, without one trailing '/' |
| SafPaths.SecondSeparatorDropsRest | app/src/main/java/com/nutomic/syncthingandroid/util/FileUtils.java:188-193 | text after a second ':' is dropped from the document path |
| SafPaths.ExternalFilesDirUri | app/src/main/java/com/nutomic/syncthingandroid/util/FileUtils.java:146-176 | the URI exists exactly when some external files dir other than the primary one remains and its path has at least three '/'-fields; it is then the externalstorage document URI of "volume:Android/data/package/files" with the third field as the volume |
| SafPaths.ExternalFilesDirVolume | app/src/main/java/com/nutomic/syncthingandroid/util/FileUtils.java:152-171 | for a secondary dir mounted at "/dir/volume..." the URI names exactly that volume, whatever follows in the path |
| SafPaths.VolumeField | app/src/main/java/com/nutomic/syncthingandroid/util/FileUtils.java:160-166 | Java's split of "/dir/volume..." keeps at least three fields and its third field is the volume |
| WifiSsid.StripLeadingQuote | app/src/main/kotlin/dev/benedek/syncthingandroid/logic/util/WifiSsidUtil.kt:135 | a text starting with a double quote loses exactly that quote; any other text is unchanged |
| WifiSsid.StripTrailingQuote | app/src/main/kotlin/dev/benedek/syncthingandroid/logic/util/WifiSsidUtil.kt:135 | a final double quote is removed; at most one character goes, and it is a quote; text with no final quote and no line terminator is unchanged |
| WifiSsid.StripQuotes | app/src/main/kotlin/dev/benedek/syncthingandroid/logic/util/WifiSsidUtil.kt:134-136 | the result is at most two characters shorter than the input |
| WifiSsid.StripQuotesRemovesOnlyQuotes | app/src/main/kotlin/dev/benedek/syncthingandroid/logic/util/WifiSsidUtil.kt:134-136 | stripping removes at most two double quotes and no other character |
| WifiSsid.StripQuotesOfQuoted | app/src/main/kotlin/dev/benedek/syncthingandroid/logic/util/WifiSsidUtil.kt:134-136 | a name wrapped in double quotes comes back as exactly that name, whatever it contains |
| WifiSsid.StripQuotesOfPlain | app/src/main/kotlin/dev/benedek/syncthingandroid/logic/util/WifiSsidUtil.kt:134-136 | text with no quote and no line terminator is returned unchanged |
| WifiSsid.StripQuotesBeforeNewline | app/src/main/kotlin/dev/benedek/syncthingandroid/logic/util/WifiSsidUtil.kt:135 | under the `$` anchor of java.util.regex, a quote just before a final newline is removed and the newline kept |
| WifiSsid.StripQuotesBeforeCrLf | app/src/main/kotlin/dev/benedek/syncthingandroid/logic/util/WifiSsidUtil.kt:135 | the same holds before a final "\r\n" |
| WifiSsid.StripQuotesAll | app/src/main/kotlin/dev/benedek/syncthingandroid/logic/util/WifiSsidUtil.kt:124-131 | a fresh array of the same length whose i-th entry is the i-th name with its quotes stripped; a null entry makes it fail |
| WifiSsid.ContainsIgnoreCase | app/src/main/kotlin/dev/benedek/syncthingandroid/logic/util/WifiSsidUtil.kt:116 | true exactly when the pattern occurs at some position, comparing characters case-insensitively |
| WifiSsid.IsValidSsid | app/src/main/kotlin/dev/benedek/syncthingandroid/logic/util/WifiSsidUtil.kt:115-117 | valid exactly when not null, not empty, and containing no "unknown ssid" in any letter case |
| WifiSsid.PlaceholderRejected | app/src/main/kotlin/dev/benedek/syncthingandroid/logic/util/WifiSsidUtil.kt:115-117 | the platform placeholder "<unknown ssid>" is not a valid network name |
| WifiSsid.UpperPlaceholderRejected | app/src/main/kotlin/dev/benedek/syncthingandroid/logic/util/WifiSsidUtil.kt:115-117 | neither is "<UNKNOWN SSID>" |
| WifiSsid.FoldedPlaceholderRejected | app/src/main/kotlin/dev/benedek/syncthingandroid/logic/util/WifiSsidUtil.kt:116 | Kotlin's case-insensitive comparison treats the Kelvin sign and the long s as k and s, so such a spelling is rejected too |
| WifiSsid.EmptyRejected | app/src/main/kotlin/dev/benedek/syncthingandroid/logic/util/WifiSsidUtil.kt:115-117 | null and empty names are invalid; an ordinary quoted name is valid |
| WifiSsid.CalculateWifiList | app/src/main/kotlin/dev/benedek/syncthingandroid/logic/util/WifiSsidUtil.kt:34-79 | the entry values are the stored selection, plus the current network exactly when it is valid, each once; the display entries match them position by position after quote stripping; there is no message exactly when connected, the location-permission message exactly when disconnected without permission; a permission request is needed exactly when neither permission nor connection holds |
| WifiSsidPreference.PreferenceEnabled | app/src/main/kotlin/dev/benedek/syncthingandroid/ui/reusable/WifiSsidPreference.kt:37-42 | the preference is enabled only when the list is ready (no message), and then exactly when the caller's condition holds |
| WifiSsidPreference.ValueText | app/src/main/kotlin/dev/benedek/syncthingandroid/ui/reusable/WifiSsidPreference.kt:46 | the displayed text of a stored name drops at most two double quotes and nothing else |
| WifiSsidPreference.StripAll | app/src/main/kotlin/dev/benedek/syncthingandroid/ui/reusable/WifiSsidPreference.kt:57 | the cleaned names correspond one to one, in order, to the selected names with their quotes stripped |
| WifiSsidPreference.SummaryOf | app/src/main/kotlin/dev/benedek/syncthingandroid/ui/reusable/WifiSsidPreference.kt:48-60 | the summary is the list's own message exactly when the list is not ready, and "all networks" exactly when it is ready and nothing is selected |
| WifiSsidPreference.SummaryNamesEverySelected | app/src/main/kotlin/dev/benedek/syncthingandroid/ui/reusable/WifiSsidPreference.kt:56-58 | with a ready list and a non-empty selection, the summary names every selected network without its quotes |
| WifiSsidPreference.NotReadyShowsMessage | app/src/main/kotlin/dev/benedek/syncthingandroid/ui/reusable/WifiSsidPreference.kt:37-53 | while the list is not ready, the preference is disabled and shows the list's message, whatever is selected |
| WifiSsidPreference.StripTwoQuoted | app/src/main/kotlin/dev/benedek/syncthingandroid/ui/reusable/WifiSsidPreference.kt:57 | the quoted names "Home" and "Work" are cleaned to Home and Work |
| WifiSsidPreference.SummaryOfTwoNetworks | app/src/main/kotlin/dev/benedek/syncthingandroid/ui/reusable/WifiSsidPreference.kt:56-58 | a ready list with the quoted names "Home" and "Work" selected is summarised as "Home, Work" |
| WebGui.OnReceivedSslError | app/src/main/java/dev/benedek/syncthingandroid/activities/WebGuiActivity.kt:74-80 | a certificate error is overridden exactly when the URL starts with "https://127.0.0.1" or "https://localhost"; otherwise the load is cancelled |
| WebGui.SslPrefixOnly | app/src/main/java/dev/benedek/syncthingandroid/activities/WebGuiActivity.kt:75 | the test is a pure prefix test: "https://localhost.example.com/" and "https://127.0.0.10/" pass, while plain HTTP and an upper-case scheme do not |
| WebGui.ShouldOverrideUrlLoading | app/src/main/java/dev/benedek/syncthingandroid/activities/WebGuiActivity.kt:82-89 | a link stays in the WebView exactly when its host equals the GUI's host; any other link goes, unchanged, to an external viewer |
| WebGui.AuthorizationValue | app/src/main/java/dev/benedek/syncthingandroid/activities/WebGuiActivity.kt:154-160 | the header value starts with "Basic " and the rest is Base64 text (without line breaks) that decodes to the UTF-8 bytes of user name, ':' and API key |
| WebGui.AuthorizationInjective | app/src/main/java/dev/benedek/syncthingandroid/activities/WebGuiActivity.kt:154-160 | two credential pairs that give the same header value have the same "user:key" text |
| WebGui.SetWebViewProxy | app/src/main/java/dev/benedek/syncthingandroid/activities/WebGuiActivity.kt:224-236 | HTTP and HTTPS get the same host and the same port in decimal, and both non-proxy lists get the same exclusion list; no other property changes |
| WebGui.WebGuiActivity.LoadCaCert | app/src/main/java/dev/benedek/syncthingandroid/activities/WebGuiActivity.kt:188-212 | a missing certificate file finishes the activity with nothing loaded; an unreadable certificate throws; otherwise the certificate is loaded |
| WebGui.WebGuiActivity.OnServiceStateChange | app/src/main/java/dev/benedek/syncthingandroid/activities/WebGuiActivity.kt:143-164 | when the new state is ACTIVE and no URL is loaded yet, the proxy is cleared for local addresses and the GUI URL is loaded once with the Authorization header; any other call changes nothing |
| Base64.Encode | app/src/main/java/dev/benedek/syncthingandroid/activities/WebGuiActivity.kt:155-158 | the encoding of section 4 of RFC 4648 without line breaks, four characters for each started group of three bytes |
| Base64.SextetRoundTrip | app/src/main/java/dev/benedek/syncthingandroid/activities/WebGuiActivity.kt:155-158 | every six-bit value maps to an alphabet character that maps back to it |
| Base64.CharRoundTrip | app/src/main/java/dev/benedek/syncthingandroid/activities/WebGuiActivity.kt:155-158 | every alphabet character maps to a six-bit value that maps back to it |
| Base64.DecodeEncodeOne | app/src/main/java/dev/benedek/syncthingandroid/activities/WebGuiActivity.kt:155-158 | a final group of one byte, padded with "==", decodes back to that byte |
| Base64.DecodeEncodeTwo | app/src/main/java/dev/benedek/syncthingandroid/activities/WebGuiActivity.kt:155-158 | a final group of two bytes, padded with "=", decodes back to those bytes |
| Base64.DecodeGroup | app/src/main/java/dev/benedek/syncthingandroid/activities/WebGuiActivity.kt:155-158 | a full group of three bytes followed by decodable text decodes to the three bytes followed by what that text decodes to |
| Base64.DecodeEncode | app/src/main/java/dev/benedek/syncthingandroid/activities/WebGuiActivity.kt:155-158 | decoding the encoding of any bytes gives the bytes back |
| Base64.EncodeDecodeOne | app/src/main/java/dev/benedek/syncthingandroid/activities/WebGuiActivity.kt:155-158 | a decodable final group ending in "==" is the encoding of what it decodes to |
| Base64.EncodeDecodeTwo | app/src/main/java/dev/benedek/syncthingandroid/activities/WebGuiActivity.kt:155-158 | a decodable final group ending in a single "=" is the encoding of what it decodes to |
| Base64.EncodeDecode | app/src/main/java/dev/benedek/syncthingandroid/activities/WebGuiActivity.kt:155-158 | every text that decodes is the encoding of what it decodes to, so the encoding is a bijection onto the decodable texts |
| Utf8.EncodeChar | app/src/main/java/dev/benedek/syncthingandroid/activities/WebGuiActivity.kt:156 | a character becomes one to four bytes, a single byte equal to its code exactly when it is ASCII, and continuation bytes after the first |
| Utf8.Encode | app/src/main/java/dev/benedek/syncthingandroid/activities/WebGuiActivity.kt:156 | the bytes of a text are between one and four per character |
| Utf8.DecodeEncodedChar | app/src/main/java/dev/benedek/syncthingandroid/activities/WebGuiActivity.kt:156 | the bytes of a character, followed by anything, decode first to that character and its length |
| Utf8.DecodeEncode | app/src/main/java/dev/benedek/syncthingandroid/activities/WebGuiActivity.kt:156 | decoding the UTF-8 bytes of any text gives the text back |
| Utf8.EncodeAscii | app/src/main/java/dev/benedek/syncthingandroid/activities/WebGuiActivity.kt:156 | ASCII text encodes to one byte per character, its code |
| Receivers.ReceiverManager.RegisterReceiver | app/src/main/java/com/nutomic/syncthingandroid/service/ReceiverManager.java:19-23 | the receiver is appended to the registry even when already listed, is then registered, and the context now delivers to it |
| Receivers.ReceiverManager.IsReceiverRegistered | app/src/main/java/com/nutomic/syncthingandroid/service/ReceiverManager.java:25-27 | true exactly when some registry position holds the receiver |
| Receivers.ReceiverManager.UnregisterAllReceivers | app/src/main/java/com/nutomic/syncthingandroid/service/ReceiverManager.java:29-49 | with a null context the registry is unchanged; otherwise every entry, repeats included, gets exactly one unregister call in registry order, the registry ends empty, and the context stops delivering to every listed receiver, including when the platform call threw |
| Receivers.Context.UnregisterReceiver | app/src/main/java/com/nutomic/syncthingandroid/service/ReceiverManager.java:38-45 | the platform call records the attempt and fails (IllegalArgumentException) exactly for a receiver the context does not deliver to |
| Receivers.ReceiverManager.constructor | app/src/main/java/com/nutomic/syncthingandroid/service/ReceiverManager.java:17 | the registry starts empty |
| Sttrace.SortNames | app/src/main/kotlin/dev/benedek/syncthingandroid/logic/util/SttraceUtil.kt:81 | `sort()` under the natural order of strings gives an ordered list holding the same names with the same multiplicities |
| Sttrace.InsertName | app/src/main/kotlin/dev/benedek/syncthingandroid/logic/util/SttraceUtil.kt:81 | inserting one name into an ordered list keeps it ordered and adds exactly that name |
| Sttrace.SortNamesOfSorted | app/src/main/kotlin/dev/benedek/syncthingandroid/logic/util/SttraceUtil.kt:81 | sorting a list that is already ordered returns it as it is |
| Sttrace.FacilitiesStrictlySorted | app/src/main/kotlin/dev/benedek/syncthingandroid/logic/util/SttraceUtil.kt:55-77 | the 23 v2.0.13 facilities are added in strictly increasing order |
| Sttrace.FacilitiesFromSorted | app/src/main/kotlin/dev/benedek/syncthingandroid/logic/util/SttraceUtil.kt:55-77 | every suffix of the hard-coded list is strictly increasing |
| Sttrace.FacilitiesAdjacentLow | app/src/main/kotlin/dev/benedek/syncthingandroid/logic/util/SttraceUtil.kt:55-63 | each of facilities 0 to 7 is below, and differs from, the next one |
| Sttrace.FacilitiesAdjacentMid | app/src/main/kotlin/dev/benedek/syncthingandroid/logic/util/SttraceUtil.kt:63-70 | facilities 8 to 14 are each below, and differ from, the next one |
| Sttrace.FacilitiesAdjacentHigh | app/src/main/kotlin/dev/benedek/syncthingandroid/logic/util/SttraceUtil.kt:70-77 | facilities 15 to 21 are each below, and differ from, the next one |
| Sttrace.FacilitiesDistinct | app/src/main/kotlin/dev/benedek/syncthingandroid/logic/util/SttraceUtil.kt:55-77 | the hard-coded list is ordered and holds no name twice |
| Sttrace.FacilitiesSortedFixed | app/src/main/kotlin/dev/benedek/syncthingandroid/logic/util/SttraceUtil.kt:55-81 | sorting the hard-coded list appended to an empty list gives back the hard-coded list |
| Sttrace.GetDebugFacilities | app/src/main/kotlin/dev/benedek/syncthingandroid/logic/util/SttraceUtil.kt:14-83 | the result is always sorted; a non-empty stored set of available facilities is removed and the result is empty; an absent or empty one gives exactly the 23 v2.0.13 names; no other preference key changes |
| BuildScript.TokensAreWords | syncthing/build-syncthing.py:30 | every token of a line is a non-empty run of non-whitespace, so the filter around the split drops nothing |
| BuildScript.FirstToken | syncthing/build-syncthing.py:30 | a word followed by nothing or by whitespace is the first token of the text |
| BuildScript.LeadingSpace | syncthing/build-syncthing.py:30 | indentation does not change the tokens of a line |
| BuildScript.TokensOfJoin | syncthing/build-syncthing.py:30 | words joined with single blanks split back into the same words |
| BuildScript.TranslateNewlines | syncthing/build-syncthing.py:29 | lines read in text mode contain no carriage return |
| BuildScript.JoinPathEndsWith | syncthing/build-syncthing.py:28 | a joined path ends with the component joined on |
| BuildScript.JoinPathPlain | syncthing/build-syncthing.py:28 | a plain component is joined on with exactly one '/' |
| BuildScript.JoinPathAbsolute | syncthing/build-syncthing.py:64 | an absolute component discards the path in front of it |
| BuildScript.ParseInt | syncthing/build-syncthing.py:32 | an integer is read only from a token that holds a digit |
| BuildScript.ParseIntOfString | syncthing/build-syncthing.py:32 | the decimal form of any integer reads back as that integer |
| BuildScript.FirstMinSdkLine | syncthing/build-syncthing.py:29-31 | the first line of exactly three tokens starting with "minSdk", or the end when there is none; no earlier line is one |
| BuildScript.GetMinSdk | syncthing/build-syncthing.py:27-33 | the line loop returns the value of the first minSdk line's third token, raises ValueError when it is no integer, fails with "Failed to find minSdkVersion" when there is no such line, and raises FileNotFoundError without the file |
| BuildScript.FirstMinSdkLineAfter | syncthing/build-syncthing.py:29-32 | the first minSdk line decides, whatever lines follow it |
| BuildScript.MinSdkLineValue | syncthing/build-syncthing.py:30-32 | an indented line "minSdk = n" is a minSdk line whose third token reads as n |
| BuildScript.GradleMinSdk | app/build.gradle.kts:71 | the project's own Gradle line gives minimum SDK 23 |
| BuildScript.TrailingWordsIgnored | syncthing/build-syncthing.py:31 | a minSdk line with words after the value has more than three tokens and is passed over |
| BuildScript.MinSdkFromFile | syncthing/build-syncthing.py:27-32 | a file whose first minSdk line is an indented "minSdk = n" gives n |
| BuildScript.MinSdkMissing | syncthing/build-syncthing.py:33 | a file without a minSdk line fails with "Failed to find minSdkVersion" |
| BuildScript.PlatformDir | syncthing/build-syncthing.py:9-13 | a host system has a toolchain directory exactly when it is Windows, Linux or Darwin, and that directory is one relative component; any other system fails with the unsupported-platform message |
| BuildScript.UnsupportedPlatformMessage | syncthing/build-syncthing.py:74-75 | the failure message names the system and lists "Windows, Linux, Darwin" |
| BuildScript.TargetsDistinct | syncthing/build-syncthing.py:16-21 | the four targets have distinct Go architectures and distinct jniLibs directories, all plain path components |
| BuildScript.NdkHome | syncthing/build-syncthing.py:60-72 | the NDK is found exactly when NDK_VERSION and ANDROID_HOME are both set and non-empty; otherwise the script fails with the message naming the variables |
| BuildScript.NdkHomePlain | syncthing/build-syncthing.py:63-64 | with a plain version the NDK is ANDROID_HOME/ndk/NDK_VERSION |
| BuildScript.NdkHomeAbsoluteVersion | syncthing/build-syncthing.py:64 | an absolute NDK_VERSION is taken as the NDK directory itself |
| BuildScript.NdkHomeIgnoresAndroidNdkHome | syncthing/build-syncthing.py:43-59 | ANDROID_NDK_HOME has no effect, because its lookup sits inside a string literal |
| BuildScript.CompilerPathForm | syncthing/build-syncthing.py:102-104 | the compiler is NDK/toolchains/llvm/prebuilt/platform/bin/ followed by the target's clang at the minimum SDK |
| BuildScript.ArtifactPathForm | syncthing/build-syncthing.py:121-123 | the artifact is the jniLibs directory, then the ABI's directory, then libsyncthing.so |
| BuildScript.ArtifactsDistinct | syncthing/build-syncthing.py:121-123 | no two targets install to the same path |
| BuildScript.BuiltIsNotArtifact | syncthing/build-syncthing.py:121-125 | the built binary is never an artifact path |
| BuildScript.GoEnvironment | syncthing/build-syncthing.py:89-90 | the build environment is the script's environment with GO111MODULE=on and CGO_ENABLED=1, every other variable kept |
| BuildScript.Builds | syncthing/build-syncthing.py:108-119 | one build command per target |
| BuildScript.Rounds | syncthing/build-syncthing.py:87-119 | per build, two checks and the build are appended to the log |
| BuildScript.CommandLog | syncthing/build-syncthing.py:87-119 | three commands per target are appended to the log |
| BuildScript.CommandLogStep | syncthing/build-syncthing.py:87-119 | building one more target appends its go version, its build.go version and its build |
| BuildScript.RoundsKeeps | syncthing/build-syncthing.py:87-119 | commands already logged stay in place |
| BuildScript.RoundsAt | syncthing/build-syncthing.py:87-119 | round i is found at offset 3i after the old log: check, version, build |
| BuildScript.CommandLogAt | syncthing/build-syncthing.py:87-119 | the log of a full run keeps the old log and holds, for each target in order, go version, build.go version and its build |
| BuildScript.Workspace.constructor | syncthing/build-syncthing.py:77-82 | the workspace starts with the host's files and no commands |
| BuildScript.Workspace.Call | syncthing/build-syncthing.py:85 | a command that succeeds is logged and changes no file |
| BuildScript.Workspace.CallWriting | syncthing/build-syncthing.py:108-119 | the build command is logged and writes the binary |
| BuildScript.Workspace.ReplaceArtifact | syncthing/build-syncthing.py:124-125 | the old artifact is deleted and the built file moved onto it; a missing built file raises FileNotFoundError after the deletion |
| BuildScript.Artifacts | syncthing/build-syncthing.py:121-123 | one artifact path per target |
| BuildScript.InstalledStep | syncthing/build-syncthing.py:121-125 | one more target removes the built file and puts its binary at its artifact path |
| BuildScript.MovedFiles | syncthing/build-syncthing.py:124-125 | with distinct artifacts, none the built file, each artifact holds its binary, the built file is gone and other files are unchanged |
| BuildScript.InstalledFiles | syncthing/build-syncthing.py:121-125 | the same for the targets' artifact paths |
| BuildScript.InstallTarget | syncthing/build-syncthing.py:108-125 | one target's build is logged, and its binary ends up at the artifact while the built file is gone |
| BuildScript.BuildTarget | syncthing/build-syncthing.py:88-126 | one loop round: a failing or missing go stops after go version, a missing NDK stops after build.go version, and otherwise the target is built and installed |
| BuildScript.BuildTargets | syncthing/build-syncthing.py:87-126 | the loop: a failing go or a missing NDK stops the script in the first round with no file changed; otherwise the log is every target's round in order and every binary is installed |
| BuildScript.BuildSyncthing | syncthing/build-syncthing.py:74-128 | the whole script: an unsupported platform and a bad minimum SDK stop it before any command; then the tags are fetched and the targets built as above |
| BuildScript.FetchAndBuild | syncthing/build-syncthing.py:85-126 | the tags are fetched into the syncthing checkout before the loop |
| BuildScript.BuiltIsNoArtifact | syncthing/build-syncthing.py:121-125 | no target's artifact is the built binary |
| BuildScript.EveryTargetInstalled | syncthing/build-syncthing.py:87-128 | after a finished run each ABI's jniLibs directory holds the library built for it and the built binary is gone |

## Left out

- The platform is an input to every member, not modelled. This covers:
  - permission queries and the SDK level;
  - the SSID the device is connected to (`getCurrentSsid`);
  - the listing of a directory, and whether `mkdir` succeeds;
  - the SAF volume-to-path table (`getVolumePath`/`volumeToPath`) and `DocumentsContract`/`Environment` path lookups.
- REST calls (`editSettings`, `editDevice`, `saveConfigAndRestart`, `undoIgnoredDevicesAndFolders`, the restart) are recorded as effects; the client's own behaviour is not modelled.
- Coroutines (`viewModelScope.launch`, `Dispatchers.IO`) run to completion at the call. The one-second delays are left out; they are timing only.
- Toasts, dialogs, summaries' wording, insets, bottom dots, colours and dp sizes are presentation only.
- The asynchronous root test (`TestRootTask`, `Shell.SU.available`) is left out; its answer is a parameter of `LegacySettings.SettingsFragment.OnRootTestResult`.
- `synchronized` in ReceiverManager is left out. `ReceiverManager`'s static list is modelled as one object's field.
- In `setWebViewProxy`, only the system-property writes are modelled. Poking the WebView's receivers through reflection calls into code not shown.
- For `loadCaCert`, certificate parsing is an input (a parsed certificate or a parse failure); only the file-missing and load decisions are modelled.
- The database deletion in `upgradeToApiLevel30` is file I/O; only the stored upgrade flag is modelled.
- OnUpgradeDatabase: the body of `performApi30Upgrade` is not part of this model. `FirstStartScreen.Screen.OnUpgradeDatabase` assumes it does what `upgradeToApiLevel30` (FirstStartActivity.kt:212-225) does: delete the database, then store `PREF_UPGRADED_TO_API_LEVEL_30`.
- `startApp` starting the main screen (and the web GUI) is recorded as one flag; the intents are not modelled.
- `FolderPicker.FolderPickerActivity.OnSelect` returns the raw location; `Util.formatPath` on the result is not part of this model.
- `WifiSsid.CalculateWifiList` picks the hash set's iteration order arbitrarily. Its contract fixes the set of entries and their pairing, not their order, because Java's HashSet order is unspecified.
- Strings are sequences of Unicode scalar values (Dafny `char`), not of UTF-16 code units: a supplementary character counts as one character rather than a surrogate pair, so a string length or index that reaches past one differs from the source's. Case-insensitive matching is written out only for the letters of the SSID pattern, not for all of Unicode.
- NameLe: names are ordered by code point, while `String.compareTo` and `File.compareTo` order by UTF-16 code unit. A supplementary character therefore sorts after U+E000–U+FFFF in the model and before them in the source. This affects `FolderPicker.SortListing`, `FolderPicker.ToSortedSet` and `Sttrace.SortNames` on such names.
- ParseInt32: the digit blocks are those of the Basic Multilingual Plane as of Unicode 16. A platform whose Unicode tables are older accepts fewer of them. Digits outside the BMP are never single `char`s, so `Character.digit` on a `char` rejects them, as the model does.
- Build script:
  - `print` output and the braces in `fail`'s format string are not modelled (no message passed has braces).
  - `os.makedirs` and directories are not modelled: a workspace is a map of files.
  - `os.path.realpath` and `__file__` give the module and project directories, which are parameters.
  - Command failures other than `go version` are not modelled: `check_call` raises, and every other command is taken to succeed.
  - Windows path joining is not modelled: `JoinPath` is POSIX `os.path.join`.
  - Python `int()` accepting non-ASCII digits and surrounding whitespace is not modelled; tokens have no whitespace.
  - The ANDROID_NDK_HOME and local.properties branch sits inside a string literal, so it is modelled as never running.
- `SafPaths.ExternalFilesDirUri`: the source guards with "fewer than 2 segments" but reads segment 2. The resulting exception is caught and yields null, the same result as the guard, so the model states the observable rule: at least three segments.
- MainActivity, Settings.kt and the slide and component files are layout glue and are not part of this model. So are LogActivity, QRScannerActivity, SyncthingApp, AppConfigReceiver, the dialog fragments and the Gradle files (apart from the one `minSdk` line).
- `Compression` is modelled as its three values; the Compression class itself is not part of this model.

## Findings

| source | as written | input that shows it | evidently intended | confidence | as-written member | corrected member |
|---|---|---|---|---|---|---|
| app/src/main/kotlin/dev/benedek/syncthingandroid/activities/FolderPickerActivity.kt:79-90 | back from a location that is not a root calls `displayFolder(mLocation!!.getParentFile())`; for "/" the parent is null, and `displayFolder` then dereferences it | initial directory "/" with roots ["/storage/emulated/0"], then back | go up to the list of roots, as the callback's own description says | not executed | FolderPicker.BackFromFilesystemRootCrashes | FolderPicker.BackAction |
