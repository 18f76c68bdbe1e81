/**
 * The values the F&F Fox onboarding wizard works on: device records, the
 * field-scoped error maps its validators return, the one result each step
 * hands back to the host, and the payload of the configuration entry.
 */
module FlowTypes {
  import opened Wrappers

  /** One device candidate (the client library's DeviceData). */
  datatype DeviceRecord = DeviceRecord(
    name: Option<string>,
    host: string,
    apiKey: string,
    macAddr: string,
    devType: string,
    skip: bool)

  /** The form fields an error can be attached to. */
  datatype Field = HostField | MacField | ApiKeyField | UpdatePoolingField

  /** The error tags the wizard shows (translation keys of the source). */
  datatype ErrorCode =
    | InvalidHost     // "invalid_host"
    | InvalidMac      // "invalid_mac"
    | DeviceExists    // "device_exists"
    | WrongApiKey     // "wrong_api_key"
    | CannotConnect   // "cannot_connect"
    | InvalidZero     // "invalid_zero"
    | InvalidValue    // "invalid_value"

  /** A step's `errors` dictionary: at most one error per field. */
  type Errors = map<Field, ErrorCode>

  /** A dictionary holding one error is not the empty dictionary. */
  lemma OneErrorNotEmpty(f: Field, code: ErrorCode)
    ensures map[f := code] != map[]
  {
    assert f in map[f := code];
  }

  /** What fetching device information from a device can end in. */
  datatype FetchOutcome =
    | Fetched        // any return value other than the literal False
    | FetchedFalse   // the call returned False: the key was rejected
    | Raised         // the call raised, whatever the exception

  /** The step identifiers of the wizard. */
  datatype StepId = User | Manual | DiscoveringFinished | DiscoveringSummary | ConfigureDevice

  /** The payload of the configuration entry: every device, and an area when one is given. */
  datatype EntryData = EntryData(discoveredDevices: seq<DeviceRecord>, areaId: Option<string>)

  /**
   * The single result of one step: a form (only its step id, its errors and
   * its `last_step` flag are kept), a progress indicator, a created entry, an
   * abort, or an exception that escapes the step.
   */
  datatype FlowResult =
    | ShowForm(stepId: StepId, errors: Errors, lastStep: Option<bool>)
    | ShowProgress(stepId: StepId)
    | CreateEntry(title: string, data: EntryData)
    | Abort(reason: string)
    | Unhandled(exception: string)

  /** What a persisted configuration entry offers the wizard: the `mac_addr` of each stored device, if any. */
  type PersistedEntry = seq<Option<string>>

  const Title := "F&F Fox"
  const DefaultApiKey := "000"

  /**
   * Builds the entry payload: the devices in order, and the area identifier
   * only when it is truthy.
   */
  function Serialize(devices: seq<DeviceRecord>, areaId: Option<string>): (e: EntryData)
    ensures e.discoveredDevices == devices
    ensures e.areaId.Some? <==> Truthy(areaId)
    ensures e.areaId.Some? ==> e.areaId == areaId
  {
    EntryData(devices, if Truthy(areaId) then areaId else None)
  }

  /** The persisted form of an entry as the wizard reads it back: each device's `mac_addr`. */
  function StoredMacs(e: EntryData): (p: PersistedEntry)
    ensures |p| == |e.discoveredDevices|
    ensures forall i :: 0 <= i < |p| ==> p[i] == Some(e.discoveredDevices[i].macAddr)
  {
    seq(|e.discoveredDevices|, i requires 0 <= i < |e.discoveredDevices| => Some(e.discoveredDevices[i].macAddr))
  }
}
