# F&F Fox onboarding wizard, modelled in Dafny

This project models the setup wizard of the F&F Fox integration for a
home-automation host (`custom_components/fandffox/config_flow.py`). The wizard
finds smart cover devices on the local network, or takes them from manual
entry, and turns them into a single configuration entry. The model covers:

- the validators: manual host and MAC checks (the MAC regular expression is
  modelled as a matcher and proved equal to a positional definition), the
  polling-interval check, and the connectivity check;
- the payload builder (`serialize_dicovered_devices`);
- the "already configured MAC" collection and the discovery filter;
- the options flow that edits the polling interval;
- the `ConfigFlow` session as a class. Its fields are the device list, the
  cursor, the summary flag and the session defaults. There is one method per
  step (`user`, `discovering_summary`, `configure_device`, `manual`), plus a
  method for the completion of discovery. Each method states the new session
  state and the one result it returns.

Files: `wrappers.dfy` (Option), `flow_types.dfy` (records, errors, results,
payload), `validation.dfy`, `dedup.dfy`, `options_flow.dfy`,
`config_flow.dfy` (class `Flow.ConfigFlow`), `scenarios.dfy` (whole sessions).

External pieces become parameters:
- `ipaddress.ip_address` is `isIp: string -> bool`.
- `float()` is `parseFloat: string -> Option<real>`, where None stands for ValueError.
- Fetching device information is `probe: DeviceRecord -> FetchOutcome`. The outcome is
  `Fetched`, `FetchedFalse` (the call returned the literal False) or `Raised`.
- The persisted configuration entries are a sequence of entries. Each entry is the list of
  its devices' `mac_addr` values, with None where a device has none.
- The discovery result is the argument of `CompleteDiscovery`.
- The flow's unique id is a ghost field.
- Whether a type code is a key of the client library's device table is `knownType: string -> bool`.

The model follows the code, including these behaviours a reader may not
expect:
- The discovery summary is not shown only once. The summary step clears the
  flag when it shows the first device's form (`_summary_displayed = False`,
  config_flow.py:280). Visits therefore alternate between the summary and that form.
- The per-device path creates its entry without `area_id`, even when area
  assignment was requested. `serialize_dicovered_devices` is called there with
  two arguments only (config_flow.py:325-327). Only the auto-add and manual
  paths pass the area.
- The MAC pattern (config_flow.py:56) accepts mixed `-`/`:` separators. Its
  `$` also matches before a final newline, so a canonical MAC followed by one
  newline is accepted.
- The cursor bound `deviceIndex <= |discovered|` is not a class invariant.
  Completing discovery (config_flow.py:177-189) replaces the list but does not
  reset the cursor. Each step states that it preserves the bound instead.
- A submission to `configure_device` when the cursor is past the list fails
  on the unguarded index at config_flow.py:306. This is the result
  `Unhandled("IndexError")`, and the session is unchanged.
- The per-device form looks each device's type code up in the client
  library's device table to fill its placeholders (config_flow.py:288 and
  config_flow.py:341). An unknown code raises KeyError after the step has
  already updated the session. The table is the parameter
  `knownType: string -> bool`, and that failure is the result `Unhandled("KeyError")`.

## Model

| member | source | states |
|---|---|---|
| `Validation.MatchSeparatedPairsSpec` | custom_components/fandffox/config_flow.py:56 | the repeated group `([0-9A-Fa-f]{2}([-:])){n}` matches exactly when the first 3n characters are n hex pairs, each followed by `-` or `:`, and leaves the rest |
| `Validation.MacPatternIff` | custom_components/fandffox/config_flow.py:56 | the MAC pattern accepts exactly six hex pairs whose first five are each followed by a separator chosen independently, or such a string followed by one newline |
| `Validation.MacPatternAcceptsExamples` | custom_components/fandffox/config_flow.py:56 | accepts `AA:BB:CC:DD:EE:FF`, and mixed separators with lower case |
| `Validation.MacPatternAcceptsTrailingNewline` | custom_components/fandffox/config_flow.py:56 | accepts a canonical MAC followed by one newline, because Python's `$` matches before a final newline |
| `Validation.MacPatternRefusesExamples` | custom_components/fandffox/config_flow.py:56 | refuses five groups, a trailing separator, and dots as separators |
| `Validation.ValidateManualInput` | custom_components/fandffox/config_flow.py:58-71 | errors appear only under host and MAC; host gets `invalid_host` iff non-empty and not an IP address; MAC gets `invalid_mac` iff present, non-empty and not matching the pattern |
| `Validation.ManualMacErrorIff` | custom_components/fandffox/config_flow.py:67-70 | the MAC field passes iff it is absent or empty, a canonical MAC, or a canonical MAC plus a newline |
| `Validation.ValidatePooling` | custom_components/fandffox/config_flow.py:73-84 | exactly one of: no error (parses to a non-zero number), `invalid_zero` (parses to 0), `invalid_value` (does not parse) |
| `Validation.NegativePoolingAccepted` | custom_components/fandffox/config_flow.py:79-81 | a negative interval passes validation |
| `Validation.ValidateInput` | custom_components/fandffox/config_flow.py:86-101 | a literal False gives only `{api_key: wrong_api_key}`; a raised exception only `{host: cannot_connect}`; any other result no error; no error iff the fetch succeeded |
| `FlowTypes.StoredMacs` | custom_components/fandffox/config_flow.py:183-184 | reading a stored entry back gives, device by device, the `mac_addr` each serialized device carries |
| `FlowTypes.Serialize` | custom_components/fandffox/config_flow.py:104-113 | the payload lists the devices in order and carries the area iff it is truthy |
| `Dedup.EntryMacsMembership` | custom_components/fandffox/config_flow.py:183-186 | a MAC is collected from one entry iff it is non-empty and is some stored device's `mac_addr` |
| `Dedup.KnownMacsMembership` | custom_components/fandffox/config_flow.py:181-186 | a MAC is known iff it is non-empty and stored in some device of some entry |
| `Dedup.ExistingMacs` | custom_components/fandffox/config_flow.py:368-373 | the nested loops collect exactly the known MACs of all persisted entries |
| `Dedup.WithoutKnown` | custom_components/fandffox/config_flow.py:187-189 | a device stays iff it was discovered and its MAC is not known; the result is no longer than the input |
| `Dedup.WithoutKnownAppend` | custom_components/fandffox/config_flow.py:187-189 | filtering a concatenation is the concatenation of the filtered parts, so kept devices keep their relative order |
| `Dedup.WithoutKnownSingle` | custom_components/fandffox/config_flow.py:188 | one device is dropped iff its MAC is known |
| `Dedup.WithoutKnownKeepsAll` | custom_components/fandffox/config_flow.py:187-189 | when no device's MAC is known the list is returned unchanged |
| `Dedup.WithoutKnownIdempotent` | custom_components/fandffox/config_flow.py:187-189 | filtering twice with the same MACs equals filtering once |
| `Dedup.StoredDevicesFiltered` | custom_components/fandffox/config_flow.py:104-113 | once devices are stored in an entry, a rediscovered device is dropped iff its non-empty MAC is that of a stored device |
| `OptionsFlow.StepUser` | custom_components/fandffox/config_flow.py:127-149 | the entry is created iff the input parses to a non-zero number and stores that number; otherwise the form is shown with the validator's non-empty errors, or with none when there is no input |
| `OptionsFlow.StepInit` | custom_components/fandffox/config_flow.py:121-125 | the init step drops its input and always shows the empty form |
| `OptionsFlow.StepUserExamples` | custom_components/fandffox/config_flow.py:133-137 | "30" is stored as 30.0, "0" gives `invalid_zero`, "abc" gives `invalid_value` |
| `Flow.ManualDevice` | custom_components/fandffox/config_flow.py:359-366 | the manual record's MAC is the MAC field when truthy, otherwise the host; the other fields are copied from the form |
| `Flow.DeviceForm` | custom_components/fandffox/config_flow.py:334-344 | the per-device form is shown with the given errors and `last_step` iff the device's type code is in the device table; otherwise the step fails with KeyError |
| `Flow.ConfigFlow.constructor` | custom_components/fandffox/config_flow.py:156-166 | a new session has no devices, cursor 0, no summary shown, auto-add on, key "000", no area |
| `Flow.ConfigFlow.StepUser` | custom_components/fandffox/config_flow.py:199-220 | with any entry it aborts with `single_instance_allowed` and changes nothing; choosing manual shows the manual form and changes nothing; otherwise it stores the defaults (True, "000", False, None when missing) and reports progress |
| `Flow.ConfigFlow.CompleteDiscovery` | custom_components/fandffox/config_flow.py:173-189 | the session list becomes the devices found minus those with a known MAC |
| `Flow.ConfigFlow.StepDiscoveringSummary` | custom_components/fandffox/config_flow.py:248-297 | an empty list shows the manual form; with auto-add, every device gets the default key and the entry lists them in order with the area only if assignment was asked for; otherwise choosing manual shows the manual form, and the flag alternates between showing the summary and showing device 0's form, which fails with KeyError (the flag already cleared) when device 0's type code is unknown |
| `Flow.ConfigFlow.StepConfigureDevice` | custom_components/fandffox/config_flow.py:299-344 | writes skip, key and (if present) name into the record at the cursor; on validation success the cursor grows by exactly 1 and the unique id is that device's MAC, on errors the cursor stays; the entry (without area) is created iff the list length is at most the cursor; `last_step` iff the length is cursor + 1; the form fails with KeyError, after the state update, when the type code of the device at the cursor is unknown; the cursor bound is preserved |
| `Flow.ConfigFlow.StepManual` | custom_components/fandffox/config_flow.py:346-403 | structural errors, or a MAC already persisted, redisplay the form with the list unchanged; a connectivity error redisplays without appending; on success the device is appended, then the form is shown again (add another) or the entry is created with all session devices, the first device's MAC as unique id, and the area only if assignment was asked for |
| `Scenarios.AutoAddTwoDevices` | custom_components/fandffox/config_flow.py:261-270 | auto-add with two discovered devices and no entries creates the entry at once, both devices carrying key "000" |
| `Scenarios.SummaryAlternates` | custom_components/fandffox/config_flow.py:279-297 | the summary step shows the summary, then device 0's form, then the summary again |
| `Scenarios.ConfigureTwoDevices` | custom_components/fandffox/config_flow.py:319-331 | configuring two devices shows the last-step form and then creates an entry without an area, even though area assignment was asked for |
| `Scenarios.UnknownTypeFailsSummary` | custom_components/fandffox/config_flow.py:279-290 | with an unknown type code the summary is shown, and the next visit clears the flag and then fails with KeyError |
| `Scenarios.ManualDuplicateInSession` | custom_components/fandffox/config_flow.py:368-383 | the same manual device entered twice in one session is appended twice |

## Left out

- `custom_components/fandffox/cover.py`: the cover entities delegate to the device client and the host's polling coordinator; nothing in them is modelled.
- The `discovering_finished` step and the progress handoff (`async_show_progress`, `progress_done`, the background task and its rescheduled continuation): this is host concurrency. Discovery completion is the plain method `CompleteDiscovery`.
- The discovery service call and its retry budget (6 tries, interval 2): the devices found are an argument.
- Form schemas, description placeholders and the area registry lookup for the start form: only the step id, the errors and `last_step` of a form are kept. The placeholders' device-table lookup is kept because it can fail.
- `ipaddress.ip_address` and `float()` are parameters. NaN, infinities and rounding of floats are not represented; a parsed number is a `real`.
- The device client's `DeviceData` constructor is not part of this model. A manual device is given `skip = false`.
- `custom_components/fandffox/const.py` is not part of this model. Form keys are the enumeration `Field` and error tags the enumeration `ErrorCode`.
- Device records are values. The source mutates `DeviceData` objects that only the session list holds, so updating the list element gives the same result.
- `async_set_unique_id` is recorded in a ghost field. Its effects inside the host are not modelled.
- Logging of a missing device name, `VERSION` and `async_get_options_flow` carry no logic.
- The options form's default (the current interval) is a rendering detail and is left out with the schema.
