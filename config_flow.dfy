/**
 * The onboarding wizard (`ConfigFlow`): one object per setup session, whose
 * step methods read the submitted form, update the session and return one
 * result to the host.
 */
module Flow {
  import opened Wrappers
  import opened FlowTypes
  import opened Validation
  import opened Dedup

  /** What the start form submits; every field may be missing. */
  datatype StartInput = StartInput(
    manual: Option<bool>,
    autoAdd: Option<bool>,
    apiKey: Option<string>,
    assignArea: Option<bool>,
    areaId: Option<string>)

  /** What the summary form submits. */
  datatype SummaryInput = SummaryInput(manual: Option<bool>)

  /** What the per-device form submits; `skip` and the key have schema defaults, the name is optional. */
  datatype DeviceInput = DeviceInput(name: Option<string>, apiKey: string, skip: bool)

  /** The record built from a manual entry: the MAC defaults to the host when absent or empty. */
  function ManualDevice(input: ManualInput): (d: DeviceRecord)
    ensures d.macAddr == if Truthy(input.mac) then input.mac.value else input.host
    ensures d.host == input.host && d.apiKey == input.apiKey && d.name == input.name
    ensures d.devType == input.devType && !d.skip
  {
    DeviceRecord(input.name, input.host, input.apiKey,
      if Truthy(input.mac) then input.mac.value else input.host,
      input.devType, false)
  }

  /**
   * The per-device form for device `d`. Its placeholders look the type code
   * up in the client library's device table (`knownType`), which raises
   * KeyError for a code the table does not hold.
   */
  function DeviceForm(d: DeviceRecord, errors: Errors, lastStep: bool, knownType: string -> bool): (r: FlowResult)
    ensures knownType(d.devType) ==> r == ShowForm(ConfigureDevice, errors, Some(lastStep))
    ensures !knownType(d.devType) ==> r == Unhandled("KeyError")
  {
    if knownType(d.devType) then ShowForm(ConfigureDevice, errors, Some(lastStep)) else Unhandled("KeyError")
  }

  class ConfigFlow {
    /** The session's devices, in discovery (then entry) order. */
    var discovered: seq<DeviceRecord>
    /** The cursor: the next device awaiting per-device configuration. */
    var deviceIndex: nat
    var summaryDisplayed: bool
    var autoAdd: bool
    var defaultApiKey: string
    var assignArea: bool
    var areaId: Option<string>
    /** The flow's unique id, as last set with the host. */
    ghost var uniqueId: Option<string>

    /** The cursor points into the device list or just past its end. */
    predicate CursorInRange()
      reads this
    {
      deviceIndex <= |discovered|
    }

    /** The area a completed entry carries: the session's area only when assignment was asked for. */
    function RequestedArea(): Option<string>
      reads this
    {
      if assignArea then areaId else None
    }

    constructor ()
      ensures discovered == [] && deviceIndex == 0 && !summaryDisplayed
      ensures autoAdd && defaultApiKey == DefaultApiKey && !assignArea && areaId == None
      ensures uniqueId == None
      ensures CursorInRange()
    {
      discovered := [];
      deviceIndex := 0;
      summaryDisplayed := false;
      autoAdd := true;
      defaultApiKey := DefaultApiKey;
      assignArea := false;
      areaId := None;
      uniqueId := None;
    }

    /**
     * The start step: refuses a second configuration, branches to manual
     * entry, or captures the session defaults and starts discovery.
     */
    method StepUser(input: Option<StartInput>, entries: seq<PersistedEntry>) returns (res: FlowResult)
      modifies this
      ensures |entries| > 0 ==> res == Abort("single_instance_allowed") && unchanged(this)
      ensures |entries| == 0 && input.None? ==> res == ShowForm(User, map[], None) && unchanged(this)
      ensures |entries| == 0 && input.Some? && input.value.manual == Some(true) ==>
        res == ShowForm(Manual, map[], None) && unchanged(this)
      ensures |entries| == 0 && input.Some? && input.value.manual != Some(true) ==>
        && res == ShowProgress(DiscoveringFinished)
        && autoAdd == input.value.autoAdd.GetOr(true)
        && defaultApiKey == input.value.apiKey.GetOr(DefaultApiKey)
        && assignArea == input.value.assignArea.GetOr(false)
        && areaId == input.value.areaId
        && discovered == old(discovered) && deviceIndex == old(deviceIndex)
        && summaryDisplayed == old(summaryDisplayed) && uniqueId == old(uniqueId)
    {
      if |entries| > 0 {
        return Abort("single_instance_allowed");
      }
      if input.Some? {
        var inp := input.value;
        if inp.manual.GetOr(false) {
          return ShowForm(Manual, map[], None);
        }
        autoAdd := inp.autoAdd.GetOr(true);
        defaultApiKey := inp.apiKey.GetOr(DefaultApiKey);
        assignArea := inp.assignArea.GetOr(false);
        areaId := inp.areaId;
        return ShowProgress(DiscoveringFinished);
      }
      return ShowForm(User, map[], None);
    }

    /**
     * Completion of the background discovery: the devices found, less those
     * whose MAC a persisted entry already holds.
     */
    method CompleteDiscovery(found: seq<DeviceRecord>, entries: seq<PersistedEntry>)
      modifies this`discovered
      ensures discovered == WithoutKnown(found, KnownMacs(entries))
      ensures old(deviceIndex) == 0 ==> CursorInRange()
    {
      var existing := ExistingMacs(entries);
      discovered := WithoutKnown(found, existing);
    }

    /**
     * The summary step: manual entry when nothing was found; with auto-add,
     * the default key on every device and the entry at once; otherwise the
     * summary and the first device's form on alternate visits.
     */
    method StepDiscoveringSummary(input: Option<SummaryInput>, knownType: string -> bool) returns (res: FlowResult)
      modifies this`discovered, this`summaryDisplayed
      ensures |old(discovered)| == 0 ==> res == ShowForm(Manual, map[], None) && unchanged(this)
      ensures |old(discovered)| > 0 && autoAdd ==>
        && |discovered| == |old(discovered)|
        && (forall i :: 0 <= i < |discovered| ==> discovered[i] == old(discovered)[i].(apiKey := defaultApiKey))
        && summaryDisplayed == old(summaryDisplayed)
        && res == CreateEntry(Title, Serialize(discovered, RequestedArea()))
      ensures |old(discovered)| > 0 && !autoAdd && input.Some? && input.value.manual == Some(true) ==>
        res == ShowForm(Manual, map[], None) && unchanged(this)
      ensures |old(discovered)| > 0 && !autoAdd && (input.None? || input.value.manual != Some(true)) ==>
        && discovered == old(discovered)
        && summaryDisplayed == !old(summaryDisplayed)
        && res == (if old(summaryDisplayed)
                   then DeviceForm(discovered[0], map[], |discovered| == 1, knownType)
                   else ShowForm(DiscoveringSummary, map[], Some(false)))
      ensures CursorInRange() <==> old(CursorInRange())
    {
      if |discovered| <= 0 {
        return ShowForm(Manual, map[], None);
      }
      if autoAdd {
        var devices := discovered;
        var i := 0;
        while i < |devices|
          invariant 0 <= i <= |devices| == |discovered|
          invariant forall k :: 0 <= k < i ==> devices[k] == discovered[k].(apiKey := defaultApiKey)
          invariant forall k :: i <= k < |devices| ==> devices[k] == discovered[k]
        {
          devices := devices[i := devices[i].(apiKey := defaultApiKey)];
          i := i + 1;
        }
        discovered := devices;
        var area := if assignArea then areaId else None;
        return CreateEntry(Title, Serialize(discovered, area));
      }
      if input.Some? {
        if input.value.manual.GetOr(false) {
          return ShowForm(Manual, map[], None);
        }
      }
      if summaryDisplayed {
        summaryDisplayed := false;
        return DeviceForm(discovered[0], map[], |discovered| == 1, knownType);
      }
      summaryDisplayed := true;
      return ShowForm(DiscoveringSummary, map[], Some(false));
    }

    /**
     * The per-device step: writes the submitted fields into the record at the
     * cursor, validates it, and on success moves the cursor by one; then
     * either completes (without an area) or shows the form for the device at
     * the cursor.
     */
    method StepConfigureDevice(input: Option<DeviceInput>, probe: DeviceRecord -> FetchOutcome, knownType: string -> bool)
      returns (res: FlowResult)
      modifies this`discovered, this`deviceIndex, this`uniqueId
      ensures input.Some? && old(deviceIndex) >= |old(discovered)| ==>
        res == Unhandled("IndexError") && unchanged(this)
      ensures input.None? ==>
        && unchanged(this)
        && res == (if |discovered| <= deviceIndex then CreateEntry(Title, Serialize(discovered, None))
                   else DeviceForm(discovered[deviceIndex], map[], |discovered| == deviceIndex + 1, knownType))
      ensures input.Some? && old(deviceIndex) < |old(discovered)| ==>
        var old_ := old(discovered[deviceIndex]);
        var updated := old_.(skip := input.value.skip, apiKey := input.value.apiKey,
                             name := if input.value.name.Some? then input.value.name else old_.name);
        var errors := ValidateInput(updated, probe);
        && discovered == old(discovered)[old(deviceIndex) := updated]
        && deviceIndex == old(deviceIndex) + (if errors == map[] then 1 else 0)
        && uniqueId == (if errors == map[] then Some(updated.macAddr) else old(uniqueId))
        && res == (if |discovered| <= deviceIndex then CreateEntry(Title, Serialize(discovered, None))
                   else DeviceForm(discovered[deviceIndex], errors, |discovered| == deviceIndex + 1, knownType))
      ensures old(CursorInRange()) ==> CursorInRange()
      ensures old(CursorInRange()) && res.CreateEntry? ==> deviceIndex == |discovered|
    {
      var errors: Errors := map[];
      if input.Some? {
        if deviceIndex >= |discovered| {
          return Unhandled("IndexError");
        }
        var current := discovered[deviceIndex];
        current := current.(skip := input.value.skip);
        current := current.(apiKey := input.value.apiKey);
        if input.value.name.Some? {
          current := current.(name := input.value.name);
        }
        discovered := discovered[deviceIndex := current];
        errors := ValidateInput(current, probe);
        if errors == map[] {
          deviceIndex := deviceIndex + 1;
          uniqueId := Some(current.macAddr);
        }
      }
      var shouldFinish := |discovered| < deviceIndex + 1;
      if shouldFinish {
        return CreateEntry(Title, Serialize(discovered, None));
      }
      var isLastStep := |discovered| == deviceIndex + 1;
      var nextDevice := discovered[deviceIndex];
      return DeviceForm(nextDevice, errors, isLastStep, knownType);
    }

    /**
     * The manual-entry step: structural checks, the duplicate check against
     * persisted entries, the connectivity check; on success the device is
     * appended and the form shown again or the entry created.
     */
    method StepManual(input: Option<ManualInput>, entries: seq<PersistedEntry>,
                      isIp: string -> bool, probe: DeviceRecord -> FetchOutcome) returns (res: FlowResult)
      modifies this`discovered, this`uniqueId
      ensures input.None? ==> res == ShowForm(Manual, map[], None) && unchanged(this)
      ensures input.Some? && ValidateManualInput(input.value, isIp) != map[] ==>
        res == ShowForm(Manual, ValidateManualInput(input.value, isIp), None) && unchanged(this)
      ensures input.Some? && ValidateManualInput(input.value, isIp) == map[]
              && ManualDevice(input.value).macAddr in KnownMacs(entries) ==>
        res == ShowForm(Manual, map[MacField := DeviceExists], None) && unchanged(this)
      ensures input.Some? && ValidateManualInput(input.value, isIp) == map[]
              && ManualDevice(input.value).macAddr !in KnownMacs(entries) ==>
        var device := ManualDevice(input.value);
        var errors := ValidateInput(device, probe);
        if errors != map[] then
          res == ShowForm(Manual, errors, None) && unchanged(this)
        else
          && discovered == old(discovered) + [device]
          && if input.value.addAnother then
               res == ShowForm(Manual, map[], None) && uniqueId == old(uniqueId)
             else
               && uniqueId == Some(discovered[0].macAddr)
               && res == CreateEntry(Title, Serialize(discovered, RequestedArea()))
      ensures old(CursorInRange()) ==> CursorInRange()
    {
      var errors: Errors := map[];
      if input.Some? {
        var inp := input.value;
        errors := ValidateManualInput(inp, isIp);
        if errors != map[] {
          return ShowForm(Manual, errors, None);
        }
        var device := ManualDevice(inp);
        var existing := ExistingMacs(entries);
        if device.macAddr in existing {
          errors := errors[MacField := DeviceExists];
          return ShowForm(Manual, errors, None);
        }
        errors := ValidateInput(device, probe);
        if errors == map[] {
          discovered := discovered + [device];
          if inp.addAnother {
            return ShowForm(Manual, map[], None);
          }
          var area := if assignArea then areaId else None;
          uniqueId := Some(discovered[0].macAddr);
          return CreateEntry(Title, Serialize(discovered, area));
        }
      }
      return ShowForm(Manual, errors, None);
    }
  }
}
