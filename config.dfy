/**
 * The pieces of syncthing's configuration and service the settings screens touch, and the
 * calls they make on the REST client. The client itself is not modelled: each call is
 * recorded as an `Effect` in the order it is made.
 */
module SyncthingConfig {
  import opened Wrappers

  /** The lifecycle states of the background service. */
  datatype ServiceState = Init | Starting | Active | Disabled | Error

  /** Usage reporting declined; syncthing stores this as urAccepted. */
  const USAGE_REPORTING_DENIED: int := -1

  /** The options object of the syncthing configuration, as far as the screens edit it. */
  datatype Options = Options(
    listenAddresses: seq<string>,
    maxRecvKbps: int,
    maxSendKbps: int,
    natEnabled: bool,
    localAnnounceEnabled: bool,
    globalAnnounceEnabled: bool,
    relaysEnabled: bool,
    globalAnnounceServers: seq<string>,
    urAccepted: int)

  /** This device's entry in the configuration; the name may be null. */
  datatype Device = Device(id: string, name: Option<string>)

  /** The GUI section of the configuration; the address may be null. */
  datatype Gui = Gui(address: Option<string>)

  /** What the REST client reports when the screens read it. */
  datatype Api = Api(
    configLoaded: bool,
    version: string,
    options: Option<Options>,
    gui: Option<Gui>,
    localDevice: Option<Device>)

  /** Calls on the REST client and the service, in the order they are made. */
  datatype Effect =
    | EditDevice(device: Device)
    | EditSettings(gui: Option<Gui>, options: Option<Options>)
    | SaveConfigAndRestart
    | UndoIgnoredDevicesAndFolders
    | RequestSystemInfo
    | EvaluateRunConditions
    | UpdatePersistentNotification
    | RefreshNetworkInfo
    | FixAppDataPermissions
    | TestRootAccess
    | RecreateActivities
}
