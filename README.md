# redfish_exporter scrape logic, in Dafny

A model of what one scrape of the Redfish exporter sends to Prometheus. The exporter connects to a
Redfish service. It runs its chassis, system and manager collectors, and each one walks a part of the
resource tree and sends one gauge per reading. It accounts for each collector with a duration and a
success gauge, reports the service as up (or down when the connection fails), and logs out. The
model also covers the endpoint configuration lookup and the check that a configuration names at
least one endpoint.

How the model is built:

- **Samples.** A sample of the output channel is a `Metrics.Sample`: the fully qualified name,
  help text, labels and value.
- **The channel.** The channel is a `Metrics.Sink` object whose `samples` field each send extends.
- **Process methods.** Every `process*` method of the collectors is a method on its collector class.
  It sends what a pure function of the resource (`FanSamples`, `DriveSamples`, …) lists, in the
  source's order, and its `ensures` says so.
- **Loops and early returns.** The loops over lists and the early returns after a failed read are
  methods with loop invariants. They are proved against `Metrics.Trace` values: the samples sent
  plus the error returned, if any. `Trace.Then` is sequencing with early return: associative, with
  the empty trace as its unit.
- **Properties.** The lemmas state what a scrape promises:
  - which samples appear and when;
  - the units;
  - the enum ordinals;
  - PCIe de-duplication;
  - the order of the walk;
  - where a failed read stops it;
  - how each collector is accounted for.

Resources are values of `Redfish` datatypes in which every read the client library would make over
the network is a `Read<T>` field, already resolved to a `Success` or a `Failure`.

Modules:

| file | module | role |
|---|---|---|
| `wrappers.dfy` | `Wrappers` | `Option`, `Result` |
| `metrics.dfy` | `Metrics` | samples, the sink, name building, traces with early return |
| `strconv.dfy` | `Strconv` | decimal integers and `%q` quoting, each with its parser |
| `redfish.dfy` | `Redfish` | the resource tree as values |
| `common.dfy` | `Common` | unit constants, `btof`, the shared enum codecs, health and state samples |
| `chassis.dfy` | `ChassisCollection` | the chassis collector |
| `system.dfy` | `SystemCollection` | the system collector |
| `manager.dfy` | `ManagerCollection` | the manager collector |
| `collector.dfy` | `RedfishCollection` | the scrape: connect, run the collectors, account, report `up` |
| `config.dfy` | `Config` | endpoint lookup and the emptiness check |

Where the model keeps the source's own behaviour (the code is followed, not the documentation, where they differ):

- **Storage controller health and state.** A storage controller sends its cache summary's health and
  state and then its own, all four under the same two names,
  `redfish_system_storage_controller_health` and `_state`, with different help texts.
  `SystemCollection.ControllerSamples` keeps both pairs.
- **Memory sizes.** Two memory sizes are named `…_non_volatile_size_desc` and
  `…_volatile_size_desc`.
- **Processor TDP.** The current TDP is named `redfish_system_processor_tdp_current_wats`.
- **Manager interfaces.** A manager's ethernet interfaces file their health and state under the
  `system` subsystem. They send no link status.
- **Encryption status.** Both the misspelt `Unecrypted` value and `Unencrypted` decode to 0.
- **Speed prefixes.** Ethernet speeds use the binary mebi prefix, while network port speeds use the
  decimal mega prefix.

## Model

| member | source | states |
|---|---|---|
| Metrics.BuildFQNameJoinsParts | collector/collector.go:26-30 | a full metric name is the namespace, subsystem and name that are not empty, joined by `_`; an empty metric name gives no name |
| Metrics.BuildFQNameInjective | collector/collector.go:26-30 | within one subsystem of `redfish`, two non-empty metric names give the same full name only when they are the same name |
| Metrics.CodeSampleNamed | collector/manager.go:76-85 | the `if e := enum…; e >= 0 { send }` guard: a sample of that name exists exactly when the code is not the sentinel, and then carries the code and the given labels |
| Metrics.CodeSampleAmid | collector/system.go:493-507 | among samples of other names, a guarded sample's name is present exactly when its code is known, and every sample of that name carries that code |
| Metrics.Sink.Send | collector/manager.go:61-63 | a send appends exactly that sample to the channel |
| Metrics.Sink.SendCode | collector/manager.go:76-78 | the guarded send appends what `CodeSample` lists and nothing else |
| Metrics.ThenAssociative | collector/chassis.go:24-54 | the steps of a walk with early return may be grouped either way: `(a; b); c` is `a; (b; c)` |
| Metrics.ThenIdentity | collector/chassis.go:24-54 | a step that sends nothing and does not fail changes nothing, before or after another |
| Metrics.ThenAllConcat | collector/system.go:21-92 | a walk over one list after another is the first walk followed, with early return, by the second |
| Metrics.ThenAllAbsorbs | collector/chassis.go:21-73 | once an element of a walk fails, later elements change neither the samples nor the error |
| Metrics.ThenAllSucceeds | collector/chassis.go:21-75 | a walk returns no error exactly when every element returns none, and then it sends every element's samples in list order |
| Metrics.ThenAllFirstFailure | collector/chassis.go:21-73 | a walk returns the error of its first failing element, after the samples of the elements before it and of that element |
| Common.UnitConstants | collector/common.go:8-18 | the binary prefixes are 2^20 and 2^30, the decimal ones 10^6 and 10^9 |
| Common.Btof | collector/common.go:20-25 | a flag is 1 exactly when true and 0 exactly when false |
| Common.EnumPowerState | collector/common.go:27-40 | Off, On, PoweringOn, PoweringOff get 0..3; every other value gets -1 |
| Common.EnumHealth | collector/common.go:42-53 | OK, Warning, Critical get 0..2; every other value gets -1 |
| Common.EnumState | collector/common.go:55-82 | the eleven resource states get 0..10 in the source's order; every other value gets -1 |
| Common.CodecsCoverTheirTables | collector/common.go:27-82 | each listed value decodes to its own position |
| Common.CodecsInjective | collector/common.go:27-82 | two recognised values with the same ordinal are the same value |
| Common.StatusSuppression | collector/manager.go:80-85 | a health sample exists exactly when the health is known, a state sample exactly when the state is known; the values are ordinals in 0..10 and no other name appears |
| Strconv.ItoaRoundTrip | collector/chassis.go:253 | the decimal text of an integer parses back to it, sign included |
| Strconv.QuoteRoundTrip | config/config.go:24 | the quoted form of a string unquotes to the string |
| Config.GetEndpointConfig | config/config.go:19-25 | a configured endpoint yields its own record and no error; an unconfigured one yields the zero record and the "not configured" error |
| Config.NotConfiguredNamesEndpoint | config/config.go:24 | the error message gives back exactly the endpoint that was asked for |
| Config.CheckEndpoints | config/config.go:38-42 | a parsed configuration is accepted unchanged exactly when it is non-empty, otherwise rejected with the "no endpoints" error |
| Config.AcceptedHasEndpoint | config/config.go:19-42 | a configuration is accepted exactly when some endpoint lookup in it succeeds |
| ChassisCollection.EnumIntrusionSensor | collector/chassis.go:410-421 | Normal, HardwareIntrusion, TamperingDetected get 0..2; every other value gets -1 |
| ChassisCollection.EnumPortLinkStatus | collector/chassis.go:423-432 | Down, Up get 0, 1; every other value gets -1 |
| ChassisCollection.ChassisCodecsInjective | collector/chassis.go:410-432 | recognised values with the same ordinal are equal |
| ChassisCollection.Quo | collector/chassis.go:253 | int64 division truncates toward zero, for negative operands too |
| ChassisCollection.PortSpeed | collector/chassis.go:396 | port speed in bytes/s is Mbit/s × 125000 (1000 Mbit/s is 125000000 bytes/s) |
| ChassisCollection.FanReadingUnits | collector/chassis.go:140-178 | an RPM fan reports the raw reading and a Percent fan the reading / 100; each sample exists exactly on its unit, and other units report neither |
| ChassisCollection.ChassisCodes | collector/chassis.go:78-116 | a chassis sends its intrusion sensor exactly when that reading is known, with the sensor labels, and its power state exactly when known; the count is one per recognised field |
| ChassisCollection.IntrusionSensorLabels | collector/chassis.go:81-104 | the intrusion sample's `sensor_number` label parses back to the sensor number, and `sensor_re_arm` is the re-arm policy, beside the chassis labels |
| ChassisCollection.TemperatureReadingFirst | collector/chassis.go:180-208 | a temperature sensor always sends its Celsius reading first, labelled with its sensor number; only health and state follow, each when known |
| ChassisCollection.VoltageReadingFirst | collector/chassis.go:319-347 | a voltage sensor always sends its volt reading first, labelled with its sensor number; only health and state follow, each when known |
| ChassisCollection.PortSpeedThenLink | collector/chassis.go:371-408 | a network port always sends its speed first as Mbit/s × 125000; its link status follows exactly when known, with the ordinal as value |
| ChassisCollection.NilBlockVersusError | collector/chassis.go:24-59 | an absent Thermal or Power block sends nothing and is no error; a failed Thermal, Power or adapter-list read ends the chassis with an error naming its path, after exactly the samples before it |
| ChassisCollection.CorrectionIntervalLabel | collector/chassis.go:210-262 | the power limit's `correction_interval` label parses to the milliseconds divided by 1000 and truncated toward zero (-1500 gives "-1"); `action` is the limit exception |
| ChassisCollection.PowerControlFiguresAlways | collector/chassis.go:210-262 | a power control always sends its five watt figures in order, the limit with its own labels, plus one health and one state sample only when known |
| ChassisCollection.PowerSupplyFiguresAlways | collector/chassis.go:264-317 | a power supply always sends its five figures: efficiency as percent / 100 and input voltage labelled with its type; then health and state when known |
| ChassisCollection.AllAdapterSamples | collector/chassis.go:61-72 | when every port read succeeds the adapter walk sends each adapter followed by its ports |
| ChassisCollection.ChassisOrder | collector/chassis.go:21-73 | with every read succeeding a chassis sends its own samples, thermal, fans, temperatures, power controls, supplies, voltages, then adapters with ports, with no error |
| ChassisCollection.AdapterPortsFailure | collector/chassis.go:61-67 | the first failed port read stops the adapter walk with an error naming chassis and adapter, keeping the earlier adapters' samples and the failing adapter's own |
| ChassisCollection.ChassisFirstFailure | collector/chassis.go:15-76 | the chassis list stops at the first chassis that fails, returning its error after the earlier chassis' samples |
| ChassisCollection.ChassisCollector.Collect | collector/chassis.go:15-76 | a failed chassis list returns the `/Chassis` error; otherwise the chassis are walked in order, stopping at the first failing one |
| ChassisCollection.ChassisCollector.CollectChassis | collector/chassis.go:21-73 | one chassis: its samples, then Thermal, Power and adapter subtrees, each failed read ending the walk with its path |
| ChassisCollection.ChassisCollector.CollectThermal | collector/chassis.go:24-37 | a failed Thermal read is an error, an absent block sends nothing, a present one sends thermal, fans and temperatures |
| ChassisCollection.ChassisCollector.CollectPower | collector/chassis.go:39-54 | a failed Power read is an error, an absent block sends nothing, a present one sends controls, supplies and voltages |
| ChassisCollection.ChassisCollector.CollectAdapters | collector/chassis.go:56-72 | a failed adapter list is an error; otherwise adapters are walked in order, stopping at the first failed port read |
| ChassisCollection.ChassisCollector.CollectAdapter | collector/chassis.go:62-71 | an adapter's samples, then its ports' or the error naming its ports path |
| ChassisCollection.ChassisCollector.ProcessChassis | collector/chassis.go:78-116 | the intrusion sensor, power state, health and state, each only when known |
| ChassisCollection.ChassisCollector.ProcessThermal | collector/chassis.go:118-138 | the thermal block's health and state when known |
| ChassisCollection.ChassisCollector.ProcessFan | collector/chassis.go:140-178 | the fan's reading per its units, then its health and state |
| ChassisCollection.ChassisCollector.ProcessTemperature | collector/chassis.go:180-208 | the temperature reading, then health and state |
| ChassisCollection.ChassisCollector.ProcessPowerControl | collector/chassis.go:210-262 | the five power-control figures, then health and state |
| ChassisCollection.ChassisCollector.ProcessPowerSupply | collector/chassis.go:264-317 | the five power-supply figures, then health and state |
| ChassisCollection.ChassisCollector.ProcessVoltage | collector/chassis.go:319-347 | the voltage reading, then health and state |
| ChassisCollection.ChassisCollector.ProcessNetworkAdapter | collector/chassis.go:349-369 | the adapter's health and state |
| ChassisCollection.ChassisCollector.ProcessNetworkPort | collector/chassis.go:371-408 | port speed, link status when known, then health and state |
| ChassisCollection.ChassisCollector.ProcessFans | collector/chassis.go:30-32 | every fan in list order |
| ChassisCollection.ChassisCollector.ProcessTemperatures | collector/chassis.go:34-36 | every temperature in list order |
| ChassisCollection.ChassisCollector.ProcessPowerControls | collector/chassis.go:43-45 | every power control in list order |
| ChassisCollection.ChassisCollector.ProcessPowerSupplies | collector/chassis.go:47-49 | every power supply in list order |
| ChassisCollection.ChassisCollector.ProcessVoltages | collector/chassis.go:51-53 | every voltage in list order |
| ChassisCollection.ChassisCollector.ProcessNetworkPorts | collector/chassis.go:69-71 | every port in list order |
| SystemCollection.EnumInterfaceLinkStatus | collector/system.go:511-522 | LinkDown, LinkUp, NoLink get 0..2; every other value gets -1 |
| SystemCollection.EnumEncryptionStatus | collector/system.go:524-537 | both spellings of Unencrypted get 0, Unlocked, Locked, Foreign 1..3; every other value gets -1 |
| SystemCollection.EnumHotspareType | collector/system.go:539-552 | None, Global, Chassis, Dedicated get 0..3; every other value gets -1 |
| SystemCollection.EnumDriveStatusIndicator | collector/system.go:554-573 | the seven indicators get 0..6 in the source's order; every other value gets -1 |
| SystemCollection.SystemCodecsInjective | collector/system.go:511-573 | recognised values with the same ordinal are equal, except the two spellings of Unencrypted |
| SystemCollection.EthernetSpeed | collector/system.go:163 | interface speed in bytes/s is Mbit/s × 131072 (binary mebi over 8) |
| SystemCollection.Duplex | collector/system.go:163 | the duplex label is "full" exactly for full duplex and "half" otherwise |
| SystemCollection.MiBBytes | collector/system.go:217-221 | a MiB size in bytes is × 1048576 |
| SystemCollection.GbpsBytes | collector/system.go:480-484 | a Gbit/s speed in bytes/s is × 125000000 |
| SystemCollection.MemoryFiguresAlways | collector/system.go:177-229 | a memory module always sends its five size and speed figures under the source's names and units, then health and state only when known |
| SystemCollection.ProcessorFiguresAlways | collector/system.go:275-333 | a processor always sends its six figures, speed in Hz, then health and state only when known |
| SystemCollection.DriveFiguresAlways | collector/system.go:480-484 | a drive always opens with its five figures: speeds as bytes/s, capacity, and the failure and write-cache flags as 0/1 |
| SystemCollection.SystemCodes | collector/system.go:98-128 | a system sends its power state exactly when known, carrying the ordinal; the count is one per recognised field |
| SystemCollection.EthernetInterfaceFigures | collector/system.go:130-175 | an interface always sends its enabled flag as 0/1, then its speed as Mbit/s × 131072 labelled with its duplex; the rest is one sample per recognised field |
| SystemCollection.EthernetLinkStatusKnown | collector/system.go:165-167 | an interface's link status is sent exactly when its codec recognises it, with the ordinal as value |
| SystemCollection.ControllerFigures | collector/system.go:397-399 | a storage controller always opens with its speed as Gbit/s × 125000000 and its two cache sizes as MiB × 1048576 |
| SystemCollection.ControllerStatusNames | collector/system.go:374-411 | everything after the figures is named `storage_controller_health` or `_state`, which differ from the storage's own `storage_health` and `_state` |
| SystemCollection.ControllerHealthTwice | collector/system.go:376-411 | when both the cache summary's and the controller's health are known, `storage_controller_health` is sent twice, with different help texts |
| SystemCollection.DriveCodesCount | collector/system.go:493-507 | a drive's coded part has one sample per field its codec recognises, the misspelt Unecrypted included |
| SystemCollection.DriveEncryptionCode | collector/system.go:493-495 | the encryption status is sent exactly when recognised, with the ordinal and the `encryption_ability` label |
| SystemCollection.DriveHotspareCode | collector/system.go:496-498 | the hotspare type is sent exactly when recognised, with the ordinal and the `hotspare_replacement_mode` label |
| SystemCollection.DriveIndicatorCode | collector/system.go:499-501 | the status indicator is sent exactly when recognised, with the ordinal as value |
| SystemCollection.DriveMedia | collector/system.go:486-491 | HDD and SMR drives send a rotation speed and no life left; SSDs send life left / 100 and no rotation speed; others send neither |
| SystemCollection.FirstByIdIds | collector/system.go:56-62 | de-duplication keeps every id that occurs |
| SystemCollection.FirstByIdDistinct | collector/system.go:56-62 | de-duplication keeps no id twice |
| SystemCollection.FirstByIdFirst | collector/system.go:56-62 | a device is processed exactly when no earlier device has its id |
| SystemCollection.AllStorageSamples | collector/system.go:78-92 | when every drive read succeeds the storage walk sends each storage, its controllers, then its drives |
| SystemCollection.SystemOrder | collector/system.go:21-92 | with every read succeeding a system sends its own samples, interfaces, memory, network interfaces, de-duplicated PCIe devices, processors, then storage, with no error |
| SystemCollection.SystemReadFailures | collector/system.go:16-27 | a failed system list sends nothing and returns the `/Systems` error; a failed interface read ends a system after its own samples, naming its path |
| SystemCollection.SystemListFailures | collector/system.go:33-53 | a failed memory, network-interface or PCIe list read ends the system with an error naming that path, after exactly the samples of the lists before it |
| SystemCollection.SystemLateListFailures | collector/system.go:64-76 | a failed processor or storage list read ends the system with an error naming that path, after exactly the samples of the lists before it |
| SystemCollection.StorageDrivesFailure | collector/system.go:79-88 | a failed drive read ends a storage after its own and its controllers' samples, naming system and storage |
| SystemCollection.DrivesFailure | collector/system.go:78-88 | the first failed drive read stops the storage walk with an error naming system and storage; earlier storages and the failing storage's controllers keep their samples |
| SystemCollection.SystemFirstFailure | collector/system.go:15-96 | the system list stops at the first system that fails, returning its error after the earlier systems' samples |
| SystemCollection.SystemCollector.Collect | collector/system.go:15-96 | a failed system list returns the `/Systems` error; otherwise systems are walked in order, stopping at the first failing one |
| SystemCollection.SystemCollector.CollectSystem | collector/system.go:21-92 | one system: its samples, then each of its six subtrees, each failed read ending the walk with its path |
| SystemCollection.SystemCollector.CollectEthernetInterfaces | collector/system.go:24-31 | the interfaces, or the error naming their path |
| SystemCollection.SystemCollector.CollectMemory | collector/system.go:33-40 | the memory modules, or the error naming their path |
| SystemCollection.SystemCollector.CollectNetworkInterfaces | collector/system.go:42-49 | the network interfaces, or the error naming their path |
| SystemCollection.SystemCollector.CollectPCIeDevices | collector/system.go:51-62 | the first device of each id, or the error naming their path |
| SystemCollection.SystemCollector.CollectProcessors | collector/system.go:64-71 | the processors, or the error naming their path |
| SystemCollection.SystemCollector.CollectStorage | collector/system.go:73-92 | the storages in order, or the error naming their path, stopping at the first failed drive read |
| SystemCollection.SystemCollector.CollectStorageSubsystem | collector/system.go:79-91 | a storage's samples, its controllers', then its drives' or the error naming its drives path |
| SystemCollection.SystemCollector.ProcessSystem | collector/system.go:98-128 | the system samples, power state, health and state when known |
| SystemCollection.SystemCollector.ProcessEthernetInterface | collector/system.go:130-175 | interface status, speed with duplex, link status, health and state when known |
| SystemCollection.SystemCollector.ProcessMemory | collector/system.go:177-229 | the memory figures, then health and state |
| SystemCollection.SystemCollector.ProcessNetworkInterface | collector/system.go:231-251 | the network interface's health and state |
| SystemCollection.SystemCollector.ProcessPCIeDevice | collector/system.go:253-273 | the PCIe device's health and state |
| SystemCollection.SystemCollector.ProcessProcessor | collector/system.go:275-333 | the processor figures, then health and state |
| SystemCollection.SystemCollector.SendProcessorFigures | collector/system.go:320-325 | the six processor figures in order |
| SystemCollection.SystemCollector.ProcessStorage | collector/system.go:335-355 | the storage's health and state |
| SystemCollection.SystemCollector.ProcessStorageController | collector/system.go:357-413 | the three controller figures, then the cache summary's health and state and the controller's own, all under the `storage_controller_` names |
| SystemCollection.SystemCollector.ProcessDrive | collector/system.go:415-509 | drive figures, the media-dependent sample, then the coded samples |
| SystemCollection.SystemCollector.ProcessDriveCodes | collector/system.go:493-507 | the coded drive samples, each only when recognised |
| SystemCollection.SystemCollector.ProcessEthernetInterfaces | collector/system.go:29-31 | every interface in list order |
| SystemCollection.SystemCollector.ProcessMemories | collector/system.go:38-40 | every memory module in list order |
| SystemCollection.SystemCollector.ProcessNetworkInterfaces | collector/system.go:47-49 | every network interface in list order |
| SystemCollection.SystemCollector.ProcessPCIeDevices | collector/system.go:56-62 | exactly the first device of each id, in list order |
| SystemCollection.SystemCollector.ProcessProcessors | collector/system.go:69-71 | every processor in list order |
| SystemCollection.SystemCollector.ProcessStorageControllers | collector/system.go:81-83 | every controller in list order |
| SystemCollection.SystemCollector.ProcessDrives | collector/system.go:89-91 | every drive in list order |
| ManagerCollection.ManagerServices | collector/manager.go:37-86 | a manager always opens with the three service flags as 0/1; power state, health and state follow exactly when recognised |
| ManagerCollection.InterfaceNames | collector/manager.go:88-124 | a manager interface sends status and speed with duplex under `manager`, and whatever follows is health or state under `system` |
| ManagerCollection.InterfacesFailure | collector/manager.go:22-27 | a failed interface read ends the manager after its own samples, naming its path |
| ManagerCollection.ManagerFirstFailure | collector/manager.go:15-35 | the manager list stops at the first failed interface read, returning its error after the earlier managers' samples |
| ManagerCollection.ManagerCollector.Collect | collector/manager.go:15-35 | a failed manager list returns the `/Managers` error; otherwise managers are walked in order, stopping at the first failure |
| ManagerCollection.ManagerCollector.CollectManager | collector/manager.go:22-31 | a manager's samples, then its interfaces' or the error naming their path |
| ManagerCollection.ManagerCollector.ProcessManager | collector/manager.go:37-86 | the three service flags, then power state, health and state when known |
| ManagerCollection.ManagerCollector.ProcessEthernetInterface | collector/manager.go:88-124 | interface status, speed, then health and state |
| ManagerCollection.ManagerCollector.ProcessEthernetInterfaces | collector/manager.go:29-31 | every interface in list order |
| RedfishCollection.CollectorKind.Name | collector/collector.go:49-53 | the keys of the collector map |
| RedfishCollection.AccountingNames | collector/collector.go:69-78 | the names are `redfish_up`, `redfish_scrape_duration_seconds` and `redfish_scrape_success`, all distinct |
| RedfishCollection.OrderNamesCollectors | collector/collector.go:49-63 | any iteration order of the map runs each of chassis, system and manager |
| RedfishCollection.ConnectFailure | collector/collector.go:41-46 | a failed connection sends exactly `up = 0` and runs no collector |
| RedfishCollection.EachCollectorOnce | collector/collector.go:55-65 | after connecting, the three collectors run once each in map order, none stopped by another's error, then `up = 1` |
| RedfishCollection.UpLast | collector/collector.go:65 | a connected scrape ends with `up = 1` |
| RedfishCollection.ExecuteAccounting | collector/collector.go:68-92 | a collector's samples come first, then its duration and success labelled with its name; success is 1 exactly without an error, 0 exactly with one |
| RedfishCollection.RedfishCollector.Collect | collector/collector.go:38-66 | one scrape sends what `ScrapeSamples` lists; the client is logged out exactly when the connection succeeded |
| RedfishCollection.RedfishCollector.Execute | collector/collector.go:68-92 | one collector's samples, then its duration and success |
| RedfishCollection.RedfishCollector.RunCollector | collector/collector.go:49-53 | the map's entry runs its own collector |

## Left out

- Concurrency is not modelled: the goroutine per collector and the `sync.WaitGroup` barrier become
  a loop that runs the collectors one after another, before `up = 1`.
- Collector map order: Go's map iteration order is unspecified, so it is the `order` parameter of
  `RedfishCollector.Collect`. It can be any arrangement of the three collectors.
- Durations and clocks: the time each collector takes is the `seconds` parameter.
- Logging (`log.Printf` of connection and collector errors) is left out. It has no effect on the
  samples.
- Network reads: every client-library read (`Chassis()`, `Thermal()`, `Drives()`, …) is a stored
  `Read<T>` outcome, and the connection is the `connection` parameter. HTTP, JSON decoding and
  the client session are not modelled.
- Logout: the deferred `client.Logout()` is the `logouts` counter of the collector object.
- MAC addresses: `net.ParseMAC(...).String()` is the `macLabel` parameter. What it does to
  malformed addresses is not modelled.
- Duplicate names: registration-time and gather-time checks of the Prometheus client are not
  modelled. That includes the consequence of the cache summary's health and state reusing the
  storage controller's own names with a different help text.
- `prometheus.BuildFQName` is the Prometheus client library's function. `Metrics.BuildFQName`
  takes its behaviour as given: the non-empty parts joined by `_`.
- float64 arithmetic is modelled as exact `real` arithmetic: rounding, NaN and infinities are not
  captured.
- `exporter.go` is not part of this model: the HTTP handler, flags and registry wiring.
- `Describe` sends nothing and is not modelled.
- `LoadConfig`: reading the file and YAML decoding are left out. `Config.CheckEndpoints` models
  the emptiness check applied to the decoded map.
- `Strconv.Quote` escapes ASCII control characters, quotes and backslashes as `%q` does. It does
  not model `%q`'s escapes for non-printable non-ASCII characters or invalid UTF-8.
- Enum values: the client library's enum constants are taken to be the Redfish schema strings
  they stand for (for example `"PoweringOn"` and the misspelt `"Unecrypted"`).
- `Config.GetEndpointConfig` cannot change the configuration since it is a function, so "the
  lookup leaves the map unchanged" holds by construction and has no lemma.
