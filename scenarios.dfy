/**
 * Whole sessions driven step by step through the host's protocol, with what
 * they end in.
 */
module Scenarios {
  import opened Wrappers
  import opened FlowTypes
  import opened Validation
  import opened Dedup
  import opened Flow

  /** Auto-add with two devices and no existing entry: the entry at once, both with the default key. */
  method AutoAddTwoDevices(d1: DeviceRecord, d2: DeviceRecord, knownType: string -> bool) returns (res: FlowResult)
    ensures res == CreateEntry(Title, EntryData([d1.(apiKey := DefaultApiKey), d2.(apiKey := DefaultApiKey)], None))
  {
    var flow := new ConfigFlow();
    var start := flow.StepUser(Some(StartInput(None, None, None, None, None)), []);
    flow.CompleteDiscovery([d1, d2], []);
    WithoutKnownKeepsAll([d1, d2], KnownMacs([]));
    res := flow.StepDiscoveringSummary(None, knownType);
  }

  /** Without auto-add, visits to the summary step alternate between the summary and the first device's form. */
  method SummaryAlternates(found: seq<DeviceRecord>, knownType: string -> bool)
    returns (first: FlowResult, second: FlowResult, third: FlowResult)
    requires |found| > 0 && knownType(found[0].devType)
    ensures first == ShowForm(DiscoveringSummary, map[], Some(false))
    ensures second == ShowForm(ConfigureDevice, map[], Some(|found| == 1))
    ensures third == first
  {
    var flow := new ConfigFlow();
    var start := flow.StepUser(Some(StartInput(None, Some(false), None, None, None)), []);
    flow.CompleteDiscovery(found, []);
    WithoutKnownKeepsAll(found, KnownMacs([]));
    first := flow.StepDiscoveringSummary(None, knownType);
    second := flow.StepDiscoveringSummary(Some(SummaryInput(Some(false))), knownType);
    third := flow.StepDiscoveringSummary(None, knownType);
  }

  /**
   * Two devices configured one by one, area assignment requested: the first
   * submission shows the last device's form, the second creates the entry,
   * and that entry carries no area.
   */
  method ConfigureTwoDevices(d1: DeviceRecord, d2: DeviceRecord, input1: DeviceInput, input2: DeviceInput,
                             probe: DeviceRecord -> FetchOutcome, knownType: string -> bool)
    returns (afterFirst: FlowResult, afterSecond: FlowResult)
    requires forall d :: probe(d) == Fetched
    requires knownType(d1.devType) && knownType(d2.devType)
    ensures afterFirst == ShowForm(ConfigureDevice, map[], Some(true))
    ensures afterSecond.CreateEntry? && afterSecond.data.areaId == None
    ensures |afterSecond.data.discoveredDevices| == 2
    ensures afterSecond.data.discoveredDevices[1].apiKey == input2.apiKey
    ensures afterSecond.data.discoveredDevices[1].skip == input2.skip
  {
    var flow := new ConfigFlow();
    var start := flow.StepUser(Some(StartInput(None, Some(false), None, Some(true), Some("living_room"))), []);
    flow.CompleteDiscovery([d1, d2], []);
    WithoutKnownKeepsAll([d1, d2], KnownMacs([]));
    var summary := flow.StepDiscoveringSummary(None, knownType);
    var firstForm := flow.StepDiscoveringSummary(None, knownType);
    afterFirst := flow.StepConfigureDevice(Some(input1), probe, knownType);
    afterSecond := flow.StepConfigureDevice(Some(input2), probe, knownType);
  }

  /**
   * A discovered device whose type code the device table does not hold: the
   * summary's second visit clears the flag and then fails with KeyError.
   */
  method UnknownTypeFailsSummary(d: DeviceRecord, knownType: string -> bool)
    returns (first: FlowResult, second: FlowResult, flagAfter: bool)
    requires !knownType(d.devType)
    ensures first == ShowForm(DiscoveringSummary, map[], Some(false))
    ensures second == Unhandled("KeyError") && !flagAfter
  {
    var flow := new ConfigFlow();
    var start := flow.StepUser(Some(StartInput(None, Some(false), None, None, None)), []);
    flow.CompleteDiscovery([d], []);
    WithoutKnownKeepsAll([d], KnownMacs([]));
    first := flow.StepDiscoveringSummary(None, knownType);
    second := flow.StepDiscoveringSummary(None, knownType);
    flagAfter := flow.summaryDisplayed;
  }

  /**
   * The manual duplicate check looks only at persisted entries: the same
   * device entered twice in one session is appended twice.
   */
  method ManualDuplicateInSession(input: ManualInput, isIp: string -> bool, probe: DeviceRecord -> FetchOutcome)
    returns (res: FlowResult, devices: seq<DeviceRecord>)
    requires input.addAnother
    requires ValidateManualInput(input, isIp) == map[]
    requires probe(ManualDevice(input)) == Fetched
    ensures res == ShowForm(Manual, map[], None)
    ensures devices == [ManualDevice(input), ManualDevice(input)]
  {
    var flow := new ConfigFlow();
    var first := flow.StepManual(Some(input), [], isIp, probe);
    res := flow.StepManual(Some(input), [], isIp, probe);
    devices := flow.discovered;
  }
}
