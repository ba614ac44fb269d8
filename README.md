# KNX smart-home bridge, modelled in Dafny

This project models the core of a small smart-home server. The server bridges a
KNX building-automation bus to a REST API. It keeps the latest known state of
every configured device and an append-only history of changes. It persists each
change to a CSV file or to InfluxDB. It calls webhooks when a device reports
power ON, and it forwards temperatures from Daikin air-conditioning units to the
bus.

Modules, following the program's structure:

- `Model` (`model.dfy`): the data model. It covers devices and the roles of
  their group addresses, the eight optional state quantities, state changes,
  history entries and webhooks.
- `Text` (`text.dfy`): the Kotlin string operations the server relies on:
  `trim`, `isBlank`, `startsWith`, and `split` on one delimiter.
- `DeviceLookup`, `FileDeviceRepository`, `CsvDeviceRepository`
  (`device_lookup.dfy`): loading the device list, and the first-match searches
  by id and by group address.
- `StateStore` (`state_store.dfy`): the device-state repository.
  - It is a class holding a map of mutable `DeviceState` objects and a history
    list.
  - Its get-or-create and update methods are proved against a value-level
    `Snapshot`.
  - It also holds the CSV rows and InfluxDB points that updates persist.
- `Webhooks` (`webhooks.dfy`): the webhook set, the selection per device, and
  the loop that calls them.
- `KnxService` (`knx_service.dfy`): the group monitor that turns incoming
  telegrams into state updates, the resynchronisation read requests, and the
  three bus writes.
- `ServerResource` (`server_resource.dfy`): the three command endpoints.
- `DaikinService` (`daikin.dfy`): the Daikin polling cycle.
- `Security` (`security.dfy`): the `AUTH_CODE` request filter.
- `AuthCode` (`auth_code.dfy`): generating the code and writing it once.
- `ApplicationService` (`application.dfy`): reading the InfluxDB settings,
  choosing the state repository, and starting the KNX service.

Both state repositories share one class, `StateStore.DeviceStateRepository`.
Its `backend` constant selects what is persisted. The InfluxDB repository
implements only five of the eight updates, so `Update` requires
`Supports(backend, c)`. `KnxService.RouteSupported` and
`ServerResource.ChangeFor` prove that every change the rest of the server makes
meets that requirement.

Inconsistencies in the source, modelled as written:

- **Roles.** `FileDeviceRepository` returns roles that the `GroupAddressType`
  enum does not declare. `CsvDeviceRepository`, `KnxServiceImpl` and the
  target-temperature write use a `gaTargetTemperature` field that `Device` does
  not declare.
  - The model's `Role` and `Device` are the union of everything the source
    uses: 12 roles, plus the extra address field.
  - The group monitor handles `TARGET_TEMPERATURE`. The eleven-role search of
    `FileDeviceRepository` never returns that role: it returns
    `TARGET_TEMPERATURE_STATUS` instead. So with that repository,
    target-temperature status telegrams are ignored
    (`KnxService.TargetTemperatureStatusIsIgnored`).
- **`DevicePowerState`.** Its file is not part of this model. Its constants are
  taken as `ON` and `OFF`, and `asInt()` as 1 for `ON` and 0 for `OFF`.
- **Behaviour worth noting.** The REST layer does not range-check the
  percentage it forwards to a device (`ServerResource.PercentageNotRangeChecked`);
  percentage scaling is left to the KNX library's DPT 5.001 codec, which the
  model keeps abstract.

## Model

| member | source | states |
|---|---|---|
| Model.PowerState.AsInt | src/main/kotlin/de/stefan_oltmann/smarthome/server/data/impl/FileDeviceStateRepository.kt:86 | the persisted power value is 1 exactly for ON and 0 exactly for OFF |
| Model.Apply | src/main/kotlin/de/stefan_oltmann/smarthome/server/model/DeviceState.kt:26-51 | an update sets the one quantity it names to its value and leaves the other seven as they were |
| Model.ApplyOverwrites | src/main/kotlin/de/stefan_oltmann/smarthome/server/model/DeviceState.kt:28-50 | a later update of the same quantity hides the earlier one (overwrite, no merge) |
| Model.ApplyCommutes | src/main/kotlin/de/stefan_oltmann/smarthome/server/model/DeviceState.kt:28-50 | updates of different quantities commute |
| Model.EntryFor | src/main/kotlin/de/stefan_oltmann/smarthome/server/model/DeviceStateHistoryEntry.kt:23-34 | a history entry carries the device id, the timestamp and only the changed quantity; every other quantity is absent |
| Text.Trim | src/main/kotlin/de/stefan_oltmann/smarthome/server/ApplicationService.kt:105-106 | `trim` gives a slice of the input whose cut-away prefix and suffix are all whitespace and which neither starts nor ends with whitespace |
| Text.TrimBlank | src/main/kotlin/de/stefan_oltmann/smarthome/server/ApplicationService.kt:108 | a trimmed string is blank iff it is empty, iff the untrimmed string was blank |
| Text.TrimIdempotent | src/main/kotlin/de/stefan_oltmann/smarthome/server/ApplicationService.kt:105-106 | trimming twice equals trimming once |
| Text.Split | src/main/kotlin/de/stefan_oltmann/smarthome/server/service/DaikinServiceImpl.kt:61 | `split(',')` gives at least one piece and no piece contains the delimiter |
| Text.JoinSplit | src/main/kotlin/de/stefan_oltmann/smarthome/server/service/DaikinServiceImpl.kt:61 | joining the pieces with the delimiter gives the input back, so empty pieces are kept |
| Text.SplitJoin | src/main/kotlin/de/stefan_oltmann/smarthome/server/service/DaikinServiceImpl.kt:61 | splitting a join of delimiter-free pieces gives the pieces back |
| DeviceLookup.FindById | src/main/kotlin/de/stefan_oltmann/smarthome/server/data/impl/FileDeviceRepository.kt:78-85 | the result is the first device in list order with the id, and absent iff no device has it; `CsvDeviceRepository.kt` lines 65-72 search the same way |
| DeviceLookup.FirstRole | src/main/kotlin/de/stefan_oltmann/smarthome/server/data/impl/FileDeviceRepository.kt:91-103 | the `when` picks the first role in the given order whose address equals the query; an absent address never matches |
| DeviceLookup.FindDeviceAndType | src/main/kotlin/de/stefan_oltmann/smarthome/server/data/impl/FileDeviceRepository.kt:87-107 | the first device holding the address under any searched role, with its first such role; a later device is never chosen over an earlier one; absent iff no device holds the address; the older repository (`CsvDeviceRepository.kt` lines 74-89) runs the same search over six roles |
| DeviceLookup.FindDeviceAndTypeSound | src/main/kotlin/de/stefan_oltmann/smarthome/server/data/impl/FileDeviceRepository.kt:91-103 | a returned pair is a listed device whose address for the returned, searched role equals the query |
| FileDeviceRepository.Load | src/main/kotlin/de/stefan_oltmann/smarthome/server/data/impl/FileDeviceRepository.kt:45-76 | a missing or unparsable file gives an empty list, never a failed construction |
| FileDeviceRepository.SharedPowerAddressResolvesToWrite | src/main/kotlin/de/stefan_oltmann/smarthome/server/data/impl/FileDeviceRepository.kt:92-93 | in any device list, an address that a device uses for both power write and power status resolves to that device with the write role, which is tried first, whenever no earlier device holds the address |
| CsvDeviceRepository.Load | src/main/kotlin/de/stefan_oltmann/smarthome/server/data/impl/CsvDeviceRepository.kt:45-63 | a missing file gives an empty list; a parse failure escapes from construction |
| CsvDeviceRepository.OtherRolesNeverResolve | src/main/kotlin/de/stefan_oltmann/smarthome/server/data/impl/CsvDeviceRepository.kt:76-88 | an address used only for wind, light, rainfall, lock or the split target-temperature roles is never resolved |
| CsvDeviceRepository.ResolvedRoleIsCsvRole | src/main/kotlin/de/stefan_oltmann/smarthome/server/data/impl/CsvDeviceRepository.kt:78-85 | a resolved role is always one of the six the older search knows |
| StateStore.CsvRowRoundTrip | src/main/kotlin/de/stefan_oltmann/smarthome/server/data/impl/FileDeviceStateRepository.kt:85-89 | a CSV row holds the device id and timestamp, and its field name and cell give back exactly the recorded change |
| StateStore.PointRoundTrip | src/main/kotlin/de/stefan_oltmann/smarthome/server/data/impl/InfluxDbDeviceStateRepository.kt:104-106 | the point's measurement is the device id, it has exactly one field named after the quantity, and that field gives back the change |
| StateStore.LockedEncodings | src/main/kotlin/de/stefan_oltmann/smarthome/server/data/impl/InfluxDbDeviceStateRepository.kt:177 | `locked` is a boolean field in InfluxDB but a 1/0 cell in CSV |
| StateStore.StepEffect | src/main/kotlin/de/stefan_oltmann/smarthome/server/data/impl/FileDeviceStateRepository.kt:75-90 | one update adds the device if new, sets the updated quantity, keeps its other quantities and leaves every other device unchanged |
| StateStore.ReplayLastWins | src/main/kotlin/de/stefan_oltmann/smarthome/server/data/impl/FileDeviceStateRepository.kt:75-209 | from an empty repository, after any sequence of updates, exactly the updated devices have a state, and each quantity holds the value of its last update |
| StateStore.DeviceState.constructor | src/main/kotlin/de/stefan_oltmann/smarthome/server/model/DeviceState.kt:26-51 | a new state object has every quantity absent |
| StateStore.DeviceState.Set | src/main/kotlin/de/stefan_oltmann/smarthome/server/data/impl/FileDeviceStateRepository.kt:77 | the field assignment of one update changes the object exactly as `Apply` does |
| StateStore.DeviceStateRepository.constructor | src/main/kotlin/de/stefan_oltmann/smarthome/server/data/impl/FileDeviceStateRepository.kt:45-47 | the repository starts with no states and an empty history |
| StateStore.DeviceStateRepository.GetOrCreateDeviceStatus | src/main/kotlin/de/stefan_oltmann/smarthome/server/data/impl/FileDeviceStateRepository.kt:61-73 | an existing state object is reused; otherwise a fresh empty one is filed under the id; every other entry, and the history, is unchanged; `InfluxDbDeviceStateRepository.kt` lines 79-91 do the same |
| StateStore.DeviceStateRepository.Update | src/main/kotlin/de/stefan_oltmann/smarthome/server/data/impl/FileDeviceStateRepository.kt:75-209 | keeps one state object per id and the existing objects; the new states are `Step` of the old; exactly one single-field entry is appended after the unchanged history; returns the CSV row, or for the InfluxDB repository (`InfluxDbDeviceStateRepository.kt` lines 93-181, five updates only) the point |
| Webhooks.Load | src/main/kotlin/de/stefan_oltmann/smarthome/server/data/impl/FileWebhookRepository.kt:48-79 | the stored set holds exactly the parsed entries; a missing or unparsable file gives the empty set |
| Webhooks.DuplicatesCollapse | src/main/kotlin/de/stefan_oltmann/smarthome/server/data/impl/FileWebhookRepository.kt:58-60 | repeating an entry that is already in the file changes nothing: identical (device id, url) entries are stored once |
| Webhooks.FindForDevice | src/main/kotlin/de/stefan_oltmann/smarthome/server/data/impl/FileWebhookRepository.kt:81-86 | exactly the stored webhooks whose device id is the argument: a subset, empty when none targets the device |
| Webhooks.TriggerWebhook | src/main/kotlin/de/stefan_oltmann/smarthome/server/service/WebhookServiceImpl.kt:34-57 | only the device's webhooks are called, each at most once; a non-successful response does not stop the loop; only an exception does, and only as the last call; without one every webhook is called; the exception is reported, not propagated |
| KnxService.AcceptsDecodes | src/main/kotlin/de/stefan_oltmann/smarthome/server/knx/impl/KnxServiceImpl.kt:365-367 | a handled role's decoder accepts a payload iff the payload stands for some change of that role's quantity |
| KnxService.RouteRecordSound | src/main/kotlin/de/stefan_oltmann/smarthome/server/knx/impl/KnxServiceImpl.kt:208-249 | a recorded change comes from a non-empty tunneling request addressed to a listed device's address for a handled, searched role; the change is the decoder's value; webhooks fire iff it is power ON |
| KnxService.RouteIgnores | src/main/kotlin/de/stefan_oltmann/smarthome/server/knx/impl/KnxServiceImpl.kt:186-249 | other bodies, read requests (empty payload), unknown addresses and unhandled roles are ignored; a rejected payload is logged with the expected DPT |
| KnxService.RouteRecords | src/main/kotlin/de/stefan_oltmann/smarthome/server/knx/impl/KnxServiceImpl.kt:251-342 | a handled role whose decoder accepts the payload records exactly one change for the resolved device: power, percentage, current or target temperature, or lock |
| KnxService.RouteSupported | src/main/kotlin/de/stefan_oltmann/smarthome/server/data/impl/InfluxDbDeviceStateRepository.kt:93-181 | every change the monitor records is one that both repositories implement |
| KnxService.TargetTemperatureStatusIsIgnored | src/main/kotlin/de/stefan_oltmann/smarthome/server/knx/impl/KnxServiceImpl.kt:221-248 | for every device list, decoder and telegram, the monitor with the eleven-role search never records a target temperature, and a telegram whose address resolves to the target-temperature status role is ignored as unhandled |
| KnxService.GroupMonitor.OnIncomingBody | src/main/kotlin/de/stefan_oltmann/smarthome/server/knx/impl/KnxServiceImpl.kt:186-342 | a recorded change updates the repository exactly once (state, one history entry, one persisted record), then calls the webhooks for power ON; anything else changes nothing and calls nothing |
| KnxService.DeviceReadsExact | src/main/kotlin/de/stefan_oltmann/smarthome/server/knx/impl/KnxServiceImpl.kt:128-146 | a device's reads are exactly its present power-status, percentage-status, current-temperature, target-temperature and lock addresses, each with the 3000 ms timeout |
| KnxService.ReadRequestsAppend | src/main/kotlin/de/stefan_oltmann/smarthome/server/knx/impl/KnxServiceImpl.kt:126 | devices are visited in list order: the reads of a concatenation are the concatenated reads |
| KnxService.ReadRequestsExact | src/main/kotlin/de/stefan_oltmann/smarthome/server/knx/impl/KnxServiceImpl.kt:115-148 | a read is sent iff some device holds its address under one of the five read roles; no other address is read |
| KnxService.ReadDevice | src/main/kotlin/de/stefan_oltmann/smarthome/server/knx/impl/KnxServiceImpl.kt:128-146 | the five guarded reads of one device, in role order |
| KnxService.ReadAllDeviceStates | src/main/kotlin/de/stefan_oltmann/smarthome/server/knx/impl/KnxServiceImpl.kt:115-148 | the loop sends exactly the specified reads, in order |
| KnxService.WritePowerState | src/main/kotlin/de/stefan_oltmann/smarthome/server/knx/impl/KnxServiceImpl.kt:150-156 | writes a DPT 1 value to the power-write address, true iff the state is ON; fails iff the device has no such address |
| KnxService.WritePercentage | src/main/kotlin/de/stefan_oltmann/smarthome/server/knx/impl/KnxServiceImpl.kt:158-164 | writes the percentage unchanged to the percentage-write address; fails iff there is none |
| KnxService.WriteTargetTemperature | src/main/kotlin/de/stefan_oltmann/smarthome/server/knx/impl/KnxServiceImpl.kt:166-172 | writes the temperature unchanged to `gaTargetTemperature`; fails iff there is none |
| ServerResource.ValueOf | src/main/kotlin/de/stefan_oltmann/smarthome/server/ServerResource.kt:105 | `valueOf` accepts only the exact constant names |
| ServerResource.ValueOfExact | src/main/kotlin/de/stefan_oltmann/smarthome/server/ServerResource.kt:105 | `valueOf` inverts the constant names and rejects every other text |
| ServerResource.ChangeFor | src/main/kotlin/de/stefan_oltmann/smarthome/server/ServerResource.kt:115-120 | the update each endpoint records is implemented by both repositories |
| ServerResource.UnknownDeviceReportedFirst | src/main/kotlin/de/stefan_oltmann/smarthome/server/ServerResource.kt:109-110 | an unknown id gets "Device does not exist." whether or not the KNX service exists; nothing is written or recorded |
| ServerResource.NoServiceNoChange | src/main/kotlin/de/stefan_oltmann/smarthome/server/ServerResource.kt:112-122 | a known device without a KNX service gets "KNX service not available."; nothing is written or recorded |
| ServerResource.UpdateOnlyAfterWrite | src/main/kotlin/de/stefan_oltmann/smarthome/server/ServerResource.kt:112-120 | an update is recorded iff a bus write was accepted, iff the reply is "Device updated."; it is for the requested device and carries exactly the requested value |
| ServerResource.FailedWriteRecordsNothing | src/main/kotlin/de/stefan_oltmann/smarthome/server/ServerResource.kt:115-118 | if the bus write throws, the exception escapes and nothing is recorded |
| ServerResource.PercentageNotRangeChecked | src/main/kotlin/de/stefan_oltmann/smarthome/server/ServerResource.kt:125-150 | any integer percentage is forwarded unchanged to the bus and to the repository |
| ServerResource.Resource.SetDevice | src/main/kotlin/de/stefan_oltmann/smarthome/server/ServerResource.kt:107-122 | the endpoint body replies, writes and updates the repository as `Decide` says, changing nothing when no update is due |
| ServerResource.Resource.SetDevicePowerState | src/main/kotlin/de/stefan_oltmann/smarthome/server/ServerResource.kt:97-123 | an invalid power-state text throws before any lookup, write or update; otherwise the common body runs |
| DaikinService.KeysExclusive | src/main/kotlin/de/stefan_oltmann/smarthome/server/service/DaikinServiceImpl.kt:94-95 | no report part starts with both keys, so the two independent checks write at most once per part |
| DaikinService.PartWrite | src/main/kotlin/de/stefan_oltmann/smarthome/server/service/DaikinServiceImpl.kt:63-81 | an "htemp=" part writes the rest of the part to the house address, an "otemp=" part to the outer address; other parts write nothing |
| DaikinService.PartsOutcomeAppend | src/main/kotlin/de/stefan_oltmann/smarthome/server/service/DaikinServiceImpl.kt:61 | parts are handled in report order: earlier parts' writes come first |
| DaikinService.PartsOutcomeAborts | src/main/kotlin/de/stefan_oltmann/smarthome/server/service/DaikinServiceImpl.kt:43-87 | a report aborts iff a temperature fails to convert, and then only the parts before the first failure were written |
| DaikinService.PartsOutcomeWrites | src/main/kotlin/de/stefan_oltmann/smarthome/server/service/DaikinServiceImpl.kt:61-82 | without a failure, the writes are exactly those of the keyed parts |
| DaikinService.AbortSkipsLaterUnits | src/main/kotlin/de/stefan_oltmann/smarthome/server/service/DaikinServiceImpl.kt:43-87 | once a unit aborts the cycle, later units are never contacted |
| DaikinService.CycleAppend | src/main/kotlin/de/stefan_oltmann/smarthome/server/service/DaikinServiceImpl.kt:45 | without an abort, the units' writes follow each other in unit order |
| DaikinService.NoBodySkipsUnit | src/main/kotlin/de/stefan_oltmann/smarthome/server/service/DaikinServiceImpl.kt:56-59 | a unit whose response has no body contributes nothing, and the cycle continues with the next unit |
| DaikinService.ExampleReport | src/main/kotlin/de/stefan_oltmann/smarthome/server/service/DaikinServiceImpl.kt:53 | the documented sample report writes "20.0" to the house address, then "6.0" to the outer address |
| DaikinService.ForwardReport | src/main/kotlin/de/stefan_oltmann/smarthome/server/service/DaikinServiceImpl.kt:61-82 | the loop over one report's parts issues exactly the specified writes and stops at the first conversion failure |
| DaikinService.UpdateStates | src/main/kotlin/de/stefan_oltmann/smarthome/server/service/DaikinServiceImpl.kt:41-88 | the cycle fetches each unit's URL in turn and issues exactly the writes the `Cycle` specification gives; a failure ends it without escaping |
| Security.StoredCode | src/main/kotlin/de/stefan_oltmann/smarthome/server/SecurityInterceptor.kt:29-44 | the stored code is the file's text, or "" when the file cannot be read |
| Security.Filter | src/main/kotlin/de/stefan_oltmann/smarthome/server/SecurityInterceptor.kt:46-54 | an absent or blank header gets "No AUTH_CODE provided."; a different one gets "Wrong AUTH_CODE."; a request proceeds iff the header is non-blank and equal to the code; every abort is a single 403 |
| Security.BlankStoredCodeRejectsAll | src/main/kotlin/de/stefan_oltmann/smarthome/server/SecurityInterceptor.kt:48-53 | a blank stored code refuses every request |
| Security.UnreadableCodeRejectsAll | src/main/kotlin/de/stefan_oltmann/smarthome/server/SecurityInterceptor.kt:33-43 | if the code file cannot be read, every request is refused |
| AuthCode.CharacterSetAlphanumeric | src/main/kotlin/de/stefan_oltmann/smarthome/server/Main.kt:106 | the character set has 62 letters and digits, none of them whitespace |
| AuthCode.GenerateAuthCode | src/main/kotlin/de/stefan_oltmann/smarthome/server/Main.kt:104-116 | the code has exactly 50 characters, each from the character set |
| AuthCode.GeneratedCodeAccepted | src/main/kotlin/de/stefan_oltmann/smarthome/server/Main.kt:104-116 | a generated code is never blank; once stored, it lets through exactly the requests whose header repeats it |
| AuthCode.WriteNewAuthCodeFileIfNeeded | src/main/kotlin/de/stefan_oltmann/smarthome/server/Main.kt:87-99 | an existing code file is never overwritten; a new code is written iff the file is absent |
| ApplicationService.FindInfluxDbSettings | src/main/kotlin/de/stefan_oltmann/smarthome/server/ApplicationService.kt:89-120 | settings exist iff the file was read, has at least two lines, and both trimmed lines are non-blank; they are then those trimmed lines |
| ApplicationService.TrimmedLine | src/main/kotlin/de/stefan_oltmann/smarthome/server/ApplicationService.kt:105-111 | a trimmed line is blank iff the line is; a non-blank line trims to a non-empty, already trimmed value |
| ApplicationService.SettingsAreTrimmed | src/main/kotlin/de/stefan_oltmann/smarthome/server/ApplicationService.kt:105-113 | settings exist iff the first two raw lines are non-blank; URL and token are then non-empty and trimmed |
| ApplicationService.LaterLinesIgnored | src/main/kotlin/de/stefan_oltmann/smarthome/server/ApplicationService.kt:100-106 | lines after the second never change the result |
| ApplicationService.SelectBackend | src/main/kotlin/de/stefan_oltmann/smarthome/server/ApplicationService.kt:52-59 | the InfluxDB repository is chosen iff settings were found, with those settings; otherwise the CSV repository |
| ApplicationService.Application.constructor | src/main/kotlin/de/stefan_oltmann/smarthome/server/ApplicationService.kt:43-87 | the KNX service is set iff its construction returns normally; a failing initial read leaves it set; the repository backend follows the settings |

## Left out

- The KNX client lifecycle and restart loop (`KnxServiceImpl.kt`, lines 60-113).
  - This is a background thread with sleeps and client re-creation.
  - Its subject is concurrency and failure recovery, not the bridge's logic.
- The KNX library: connection set-up, plugins, and the DPT 1.001, DPT 5.001 and
  DPT 9.001 byte codecs.
  - Decoders are the parameters of `KnxService.Codec`.
  - Writes and reads are returned as values.
  - The library's checks on an encoded value, such as a scaling range, belong
    to the `busAccepts` outcome of `ServerResource.Resource.SetDevice`.
- Floating-point values. Temperatures, wind speed and light intensity are
  carried as opaque 64-bit values, with no arithmetic.
  - The Daikin `toDouble` conversion is abstracted into the `accepts`
    parameter.
  - The write carries the text after the key.
- Persistence I/O and clocks. The CSV writer, the InfluxDB client and the clock
  reads are left out.
  - Timestamps are parameters: `millis` for the history entry and CSV row,
    `clockMillis` for the InfluxDB point.
  - Rows and points are returned as values.
  - The model does not claim that history timestamps increase, because they
    come from the wall clock.
- JSON loading with Gson, for devices, webhooks and Daikin units. The parse
  result is the `ConfigFile` input.
  - `FileDaikinRepository` has no logic beyond load-or-empty.
  - The Daikin units are given as a sequence in the order their set yields
    them.
- HTTP via OkHttp, for webhooks and Daikin polling.
  - Each call's outcome is a parameter (`HttpOutcome`, `Fetch`).
  - Webhooks are taken in an unspecified order from their set.
- The random source of `generateAuthCode`. The index is chosen
  nondeterministically.
- The Quarkus and JAX-RS plumbing:
  - `Main.main` and `MyApp.run`;
  - the data-directory and log-path set-up;
  - response building, and the three read-only endpoints (`findAllDevices`,
    `findAllDeviceStates`, `findDeviceStateHistory`). These endpoints return
    the device list, the repository's state objects and its history as they
    are.
- Thread safety of the shared map and list. The source has no
  synchronisation, so there is nothing to verify.
- Build files (`build.gradle.kts`, `buildSrc`): configuration only.
- ApplicationService.Application.constructor: a failing initial
  `readAllDeviceStates` is modelled as failing before its first request. The
  requests it sent before the exception are not recorded.
- StateStore.DeviceStateRepository.Update: it requires `Supports(backend, c)`,
  because the InfluxDB repository has no wind-speed, light-intensity or
  rainfall update. The interface declares those three updates, but that
  repository does not implement them.
- DaikinService.UpdateStates: the group addresses of a unit are taken as
  present. `GroupAddress.of` on an absent address would throw, and the cycle
  would end like any other exception. The Daikin model class is not part of
  this model.
- KnxService.GroupMonitor.OnIncomingBody: it assumes that the persistence
  write succeeds and that every destination is a group address.
  - A failing CSV write or InfluxDB `writePoint` throws after the state and
    the history are updated. The monitor catches only
    `DataPointTypeIncompatibleBytesException` (`KnxServiceImpl.kt`, lines
    263-269), so in that case the webhooks are skipped. The model does not
    capture this.
  - The `as GroupAddress` cast (`KnxServiceImpl.kt`, line 210) throws for an
    individual address. The lookup uses the `addressLevel3` rendering, which
    the model takes as the plain destination string.
- ServerResource.Resource.SetDevice: it assumes that the persistence write
  succeeds. A failing write after the state update (`ServerResource.kt`,
  lines 115-120) ends the request with an error reply although the state has
  changed. `ServerResource.UpdateOnlyAfterWrite` makes the same assumption.
- Integer width. The percentage is a Kotlin 32-bit `Int`. It is modelled as
  an unbounded `int`, and the model does no arithmetic on it, so the
  behaviour is the same.
