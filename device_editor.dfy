/**
 * The device editor (DeviceActivity). The device being edited is a value the activity
 * replaces field by field as the user types; `needsUpdate` records that something really
 * changed, and only an edited (not a new) device with such a change is sent to the REST
 * client when the editor closes.
 *
 * Addresses are kept as a list and shown as one line: an empty line stands for the single
 * address "dynamic", otherwise the line is split at single blanks with trailing empty
 * entries dropped, and the list is shown joined with single blanks.
 */
module DeviceEditor {
  import opened Wrappers
  import opened Strings

  /** The compression settings a device can have. */
  datatype Compression = Metadata | Always | Never

  /** A device's editable configuration; identifier and name may be null. */
  datatype DeviceConfig = DeviceConfig(
    deviceId: Option<string>,
    name: Option<string>,
    addresses: seq<string>,
    compression: Compression,
    introducer: bool,
    paused: bool)

  const DYNAMIC: string := "dynamic"
  const DYNAMIC_ADDRESS: seq<string> := [DYNAMIC]

  /**
   * `persistableAddresses`: null or empty input is the dynamic address; otherwise the
   * fields between blanks without the trailing empty ones.
   */
  function PersistableAddresses(input: Option<string>): (r: seq<string>)
    ensures input.None? || input.value == [] ==> r == DYNAMIC_ADDRESS
    ensures input.Some? && input.value != [] ==>
              (forall i :: 0 <= i < |r| ==> ' ' !in r[i]) && (r == [] || r[|r| - 1] != [])
  {
    if input.None? || input.value == [] then DYNAMIC_ADDRESS
    else DropTrailingEmpties(SplitAll(input.value, ' '))
  }

  /** `displayableAddresses`: the list joined with single blanks. */
  function DisplayableAddresses(addresses: seq<string>): string {
    Join(if addresses == DYNAMIC_ADDRESS then DYNAMIC_ADDRESS else addresses, " ")
  }

  /** A list the editor can show and read back unchanged. */
  predicate Displayable(xs: seq<string>) {
    |xs| >= 1 && xs[|xs| - 1] != [] && forall i :: 0 <= i < |xs| ==> ' ' !in xs[i]
  }

  /**
   * Reading back the shown line gives the same list, for a non-empty list of blank-free
   * entries whose last entry is not empty (interior empty entries survive).
   */
  lemma AddressesRoundTrip(xs: seq<string>)
    requires Displayable(xs)
    ensures PersistableAddresses(Some(DisplayableAddresses(xs))) == xs
  {
    JoinEmpty(xs, " ");
    SplitAllJoin(xs, ' ');
    assert DropTrailingEmpties(xs) == xs;
  }

  /**
   * Showing what was read from a line gives the line back when it is not empty and does
   * not end in a blank: such a line leaves no trace in the dirty flag.
   */
  lemma LineRoundTrip(s: string)
    requires s != [] && s[|s| - 1] != ' '
    ensures DisplayableAddresses(PersistableAddresses(Some(s))) == s
  {
    LastFieldOfSplit(s, ' ');
    var fields := SplitAll(s, ' ');
    assert DropTrailingEmpties(fields) == fields;
    JoinSplitAll(s, ' ');
  }

  /** An empty line and the line "dynamic" both store the dynamic address. */
  lemma DynamicLines()
    ensures PersistableAddresses(Some("")) == DYNAMIC_ADDRESS
    ensures PersistableAddresses(Some(DYNAMIC)) == DYNAMIC_ADDRESS
    ensures DisplayableAddresses(DYNAMIC_ADDRESS) == DYNAMIC
  {
    SplitAllNoSeparator(DYNAMIC, ' ');
  }

  class DeviceActivity {
    const isCreateMode: bool
    var device: Option<DeviceConfig>
    var needsUpdate: bool
    /** The devices sent with `editDevice`, in order. */
    var sentEdits: seq<DeviceConfig>

    constructor (isCreateMode: bool, device: Option<DeviceConfig>)
      ensures this.isCreateMode == isCreateMode && this.device == device
      ensures !needsUpdate && sentEdits == []
    {
      this.isCreateMode := isCreateMode;
      this.device := device;
      needsUpdate := false;
      sentEdits := [];
    }

    /**
     * `initDevice`: a new device with the name and identifier passed in, the dynamic
     * address, metadata compression, not an introducer and not paused.
     */
    method InitDevice(name: Option<string>, deviceId: Option<string>)
      modifies this
      ensures device == Some(DeviceConfig(deviceId, name, DYNAMIC_ADDRESS, Metadata, false, false))
      ensures needsUpdate == old(needsUpdate) && sentEdits == old(sentEdits)
    {
      device := Some(DeviceConfig(deviceId, name, DYNAMIC_ADDRESS, Metadata, false, false));
    }

    /** The identifier watcher: a different text becomes the identifier and marks the device. */
    method OnIdChanged(text: string)
      requires device.Some?
      modifies this
      ensures old(device.value.deviceId) != Some(text) ==>
                needsUpdate && device == Some(old(device.value).(deviceId := Some(text)))
      ensures old(device.value.deviceId) == Some(text) ==> needsUpdate == old(needsUpdate) && device == old(device)
      ensures sentEdits == old(sentEdits)
    {
      if Some(text) != device.value.deviceId {
        needsUpdate := true;
        device := Some(device.value.(deviceId := Some(text)));
      }
    }

    /** The name watcher: a different text becomes the name and marks the device. */
    method OnNameChanged(text: string)
      requires device.Some?
      modifies this
      ensures old(device.value.name) != Some(text) ==>
                needsUpdate && device == Some(old(device.value).(name := Some(text)))
      ensures old(device.value.name) == Some(text) ==> needsUpdate == old(needsUpdate) && device == old(device)
      ensures sentEdits == old(sentEdits)
    {
      if Some(text) != device.value.name {
        needsUpdate := true;
        device := Some(device.value.(name := Some(text)));
      }
    }

    /**
     * The address watcher: a line other than the one shown for the current addresses is
     * read into the address list and marks the device.
     */
    method OnAddressesChanged(text: string)
      requires device.Some?
      modifies this
      ensures text != DisplayableAddresses(old(device.value.addresses)) ==>
                needsUpdate && device == Some(old(device.value).(addresses := PersistableAddresses(Some(text))))
      ensures text == DisplayableAddresses(old(device.value.addresses)) ==>
                needsUpdate == old(needsUpdate) && device == old(device)
      ensures sentEdits == old(sentEdits)
    {
      if text != DisplayableAddresses(device.value.addresses) {
        needsUpdate := true;
        device := Some(device.value.(addresses := PersistableAddresses(Some(text))));
      }
    }

    /** The introducer switch: always stored and always marks the device. */
    method OnIntroducerChecked(isChecked: bool)
      requires device.Some?
      modifies this
      ensures needsUpdate && device == Some(old(device.value).(introducer := isChecked))
      ensures sentEdits == old(sentEdits)
    {
      device := Some(device.value.(introducer := isChecked));
      needsUpdate := true;
    }

    /** The pause switch: always stored and always marks the device. */
    method OnPauseChecked(isChecked: bool)
      requires device.Some?
      modifies this
      ensures needsUpdate && device == Some(old(device.value).(paused := isChecked))
      ensures sentEdits == old(sentEdits)
    {
      device := Some(device.value.(paused := isChecked));
      needsUpdate := true;
    }

    /** The compression dialog: only a different choice is stored and marks the device. */
    method OnCompressionSelected(compression: Compression)
      requires device.Some?
      modifies this
      ensures compression != old(device.value.compression) ==>
                needsUpdate && device == Some(old(device.value).(compression := compression))
      ensures compression == old(device.value.compression) ==> needsUpdate == old(needsUpdate) && device == old(device)
      ensures sentEdits == old(sentEdits)
    {
      if compression != device.value.compression {
        needsUpdate := true;
        device := Some(device.value.(compression := compression));
      }
    }

    /** `updateDevice`: an edit is sent only in edit mode, when marked, and with a device. */
    method UpdateDevice()
      modifies this
      ensures !isCreateMode && needsUpdate && device.Some? ==> sentEdits == old(sentEdits) + [device.value]
      ensures !(!isCreateMode && needsUpdate && device.Some?) ==> sentEdits == old(sentEdits)
      ensures device == old(device) && needsUpdate == old(needsUpdate)
    {
      if !isCreateMode && needsUpdate && device.Some? {
        sentEdits := sentEdits + [device.value];
      }
    }
  }
}
