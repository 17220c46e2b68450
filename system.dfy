/**
 * The system collector: every computer system, then its ethernet
 * interfaces, memory, network interfaces, PCIe devices (each id once),
 * processors and storage subsystems with their controllers and drives.
 */
module SystemCollection {
  import opened Wrappers
  import opened Metrics
  import opened Common
  import opened Redfish

  const SUBSYSTEM := "system"

  // ---- Codecs of this file ----

  /** Interface link statuses in ordinal order: 0: LinkDown, 1: LinkUp, 2: NoLink. */
  const LINK_STATUSES: seq<string> := ["LinkDown", "LinkUp", "NoLink"]

  function EnumInterfaceLinkStatus(e: string): (r: int)
    ensures ABSENT <= r < |LINK_STATUSES|
    ensures r >= 0 <==> e in LINK_STATUSES
    ensures r >= 0 ==> LINK_STATUSES[r] == e
  {
    if e == "LinkDown" then 0
    else if e == "LinkUp" then 1
    else if e == "NoLink" then 2
    else ABSENT
  }

  /** Encryption statuses in ordinal order: 0: Unencrypted, 1: Unlocked, 2: Locked, 3: Foreign. */
  const ENCRYPTION_STATUSES: seq<string> := ["Unencrypted", "Unlocked", "Locked", "Foreign"]

  /** The misspelt schema value that the client library also defines; it decodes like its correct spelling. */
  const UNENCRYPTED_MISSPELT := "Unecrypted"

  function EnumEncryptionStatus(e: string): (r: int)
    ensures ABSENT <= r < |ENCRYPTION_STATUSES|
    ensures r >= 0 <==> e in ENCRYPTION_STATUSES || e == UNENCRYPTED_MISSPELT
    ensures e == UNENCRYPTED_MISSPELT ==> r == 0
    ensures r >= 0 && e != UNENCRYPTED_MISSPELT ==> ENCRYPTION_STATUSES[r] == e
  {
    if e == UNENCRYPTED_MISSPELT || e == "Unencrypted" then 0
    else if e == "Unlocked" then 1
    else if e == "Locked" then 2
    else if e == "Foreign" then 3
    else ABSENT
  }

  /** Hotspare types in ordinal order: 0: None, 1: Global, 2: Chassis, 3: Dedicated. */
  const HOTSPARE_TYPES: seq<string> := ["None", "Global", "Chassis", "Dedicated"]

  function EnumHotspareType(e: string): (r: int)
    ensures ABSENT <= r < |HOTSPARE_TYPES|
    ensures r >= 0 <==> e in HOTSPARE_TYPES
    ensures r >= 0 ==> HOTSPARE_TYPES[r] == e
  {
    if e == "None" then 0
    else if e == "Global" then 1
    else if e == "Chassis" then 2
    else if e == "Dedicated" then 3
    else ABSENT
  }

  /** Drive status indicators in ordinal order, 0: Fail through 6: InAFailedArray. */
  const STATUS_INDICATORS: seq<string> :=
    ["Fail", "OK", "Rebuild", "PredictiveFailureAnalysis", "Hotspare", "InACriticalArray", "InAFailedArray"]

  function EnumDriveStatusIndicator(e: string): (r: int)
    ensures ABSENT <= r < |STATUS_INDICATORS|
    ensures r >= 0 <==> e in STATUS_INDICATORS
    ensures r >= 0 ==> STATUS_INDICATORS[r] == e
  {
    if e == "Fail" then 0
    else if e == "OK" then 1
    else if e == "Rebuild" then 2
    else if e == "PredictiveFailureAnalysis" then 3
    else if e == "Hotspare" then 4
    else if e == "InACriticalArray" then 5
    else if e == "InAFailedArray" then 6
    else ABSENT
  }

  lemma SystemCodecsInjective(a: string, b: string)
    ensures EnumInterfaceLinkStatus(a) >= 0 && EnumInterfaceLinkStatus(a) == EnumInterfaceLinkStatus(b) ==> a == b
    ensures EnumHotspareType(a) >= 0 && EnumHotspareType(a) == EnumHotspareType(b) ==> a == b
    ensures EnumDriveStatusIndicator(a) >= 0 && EnumDriveStatusIndicator(a) == EnumDriveStatusIndicator(b) ==> a == b
    ensures EnumEncryptionStatus(a) >= 0 && EnumEncryptionStatus(a) == EnumEncryptionStatus(b) ==>
      a == b || {a, b} == {"Unencrypted", UNENCRYPTED_MISSPELT}
  {
  }

  // ---- Unit conversions ----

  /** Ethernet link speed in bytes per second, with the binary mebi prefix. */
  function EthernetSpeed(intf: EthernetInterface): (r: real)
    ensures r == intf.speedMbps * 131072.0
    ensures intf.speedMbps == 1000.0 ==> r == 131072000.0
  {
    intf.speedMbps * MEBI / 8.0
  }

  /** The duplex label of an ethernet speed sample. */
  function Duplex(fullDuplex: bool): (r: string)
    ensures r == "full" <==> fullDuplex
    ensures r == "half" <==> !fullDuplex
  {
    if fullDuplex then "full" else "half"
  }

  /** A size in MiB, in bytes. */
  function MiBBytes(mib: real): (r: real)
    ensures r == mib * 1048576.0
    ensures mib == 16384.0 ==> r == 17179869184.0
  {
    mib * MEBI
  }

  /** A link speed in Gbit/s, in bytes per second with the decimal giga prefix. */
  function GbpsBytes(gbps: real): (r: real)
    ensures r == gbps * 125000000.0
    ensures gbps == 12.0 ==> r == 1500000000.0
  {
    gbps * GIGA / 8.0
  }

  // ---- What each process* method sends ----

  function SystemLabels(s: ComputerSystem): map<string, string>
  {
    map["id" := s.id, "name" := s.name, "system_id" := s.id, "system_type" := s.systemType]
  }

  const SYSTEM_POWER_HELP := "System power state; 0: Off, 1: On, 2: PoweringOn, 3: PoweringOff"

  function SystemSamples(s: ComputerSystem): seq<Sample>
  {
    CodeSample(EnumPowerState(s.powerState), SUBSYSTEM, "power_state", SYSTEM_POWER_HELP, SystemLabels(s))
    + StatusSamples(SUBSYSTEM, "", "System", SystemLabels(s), s.status)
  }

  function EthernetLabels(intf: EthernetInterface, systemId: string, macLabel: string -> string): map<string, string>
  {
    map["id" := intf.id, "name" := intf.name, "system_id" := systemId,
        "interface_type" := intf.ethernetInterfaceType, "address" := macLabel(intf.macAddress)]
  }

  const ETHERNET_ENABLED_HELP := "Ethernet interface status; 0: Disabled, 1: Enabled"
  const ETHERNET_SPEED_HELP := "Ethernet interface speed, bytes/s"
  const ETHERNET_LINK_HELP := "Ethernet interface link status; 0: LinkDown, 1: LinkUp, 2: NoLink"

  function EthernetSamples(intf: EthernetInterface, systemId: string, macLabel: string -> string): seq<Sample>
  {
    var labels := EthernetLabels(intf, systemId, macLabel);
    [ Gauge(SUBSYSTEM, "ethernet_interface_status", ETHERNET_ENABLED_HELP, labels, Btof(intf.interfaceEnabled)),
      Gauge(SUBSYSTEM, "ethernet_interface_speed_bytes", ETHERNET_SPEED_HELP, labels["duplex" := Duplex(intf.fullDuplex)], EthernetSpeed(intf)) ]
    + CodeSample(EnumInterfaceLinkStatus(intf.linkStatus), SUBSYSTEM, "ethernet_interface_link_status", ETHERNET_LINK_HELP, labels)
    + StatusSamples(SUBSYSTEM, "ethernet_interface_", "Ethernet interface", labels, intf.status)
  }

  function MemoryLabels(m: Memory, systemId: string): map<string, string>
  {
    map["id" := m.id, "name" := m.name, "system_id" := systemId, "memory_type" := m.memoryType]
  }

  function MemorySamples(m: Memory, systemId: string): seq<Sample>
  {
    var labels := MemoryLabels(m, systemId);
    [ Gauge(SUBSYSTEM, "memory_cache_size_bytes", "Memory cache size, bytes", labels, MiBBytes(m.cacheSizeMiB)),
      Gauge(SUBSYSTEM, "memory_capacity_bytes", "Memory capacity, bytes", labels, MiBBytes(m.capacityMiB)),
      Gauge(SUBSYSTEM, "memory_non_volatile_size_desc", "Memory non-volatile size, bytes", labels, MiBBytes(m.nonVolatileSizeMiB)),
      Gauge(SUBSYSTEM, "memory_operating_speed_hertz", "Memory operating speed, Hz", labels, m.operatingSpeedMhz * MEGA),
      Gauge(SUBSYSTEM, "memory_volatile_size_desc", "Memory volatile size, bytes", labels, MiBBytes(m.volatileSizeMiB)) ]
    + StatusSamples(SUBSYSTEM, "memory_", "Memory", labels, m.status)
  }

  function NetworkInterfaceLabels(n: NetworkInterface, systemId: string): map<string, string>
  {
    map["id" := n.id, "name" := n.name, "system_id" := systemId]
  }

  function NetworkInterfaceSamples(n: NetworkInterface, systemId: string): seq<Sample>
  {
    StatusSamples(SUBSYSTEM, "network_interface_", "Network interface", NetworkInterfaceLabels(n, systemId), n.status)
  }

  function PCIeLabels(d: PCIeDevice, systemId: string): map<string, string>
  {
    map["id" := d.id, "name" := d.name, "system_id" := systemId, "device_type" := d.deviceType]
  }

  function PCIeSamples(d: PCIeDevice, systemId: string): seq<Sample>
  {
    StatusSamples(SUBSYSTEM, "pcie_device_", "PCIe device", PCIeLabels(d, systemId), d.status)
  }

  function ProcessorLabels(p: Processor, systemId: string): map<string, string>
  {
    map["id" := p.id, "name" := p.name, "system_id" := systemId, "processor_type" := p.processorType]
  }

  function ProcessorSamples(p: Processor, systemId: string): seq<Sample>
  {
    ProcessorFigures(p, systemId) + StatusSamples(SUBSYSTEM, "processor_", "Processor", ProcessorLabels(p, systemId), p.status)
  }

  /** The six figures every processor reports. */
  function ProcessorFigures(p: Processor, systemId: string): seq<Sample>
  {
    var labels := ProcessorLabels(p, systemId);
    [ Gauge(SUBSYSTEM, "processor_speed_max_hertz", "Maximum processor speed, Hz", labels, p.maxSpeedMHz * MEGA),
      Gauge(SUBSYSTEM, "processor_tdp_max_watts", "Maximum processor TDP, W", labels, p.maxTDPWatts),
      Gauge(SUBSYSTEM, "processor_tdp_current_wats", "Current processor TDP, W", labels, p.tdpWatts),
      Gauge(SUBSYSTEM, "processor_cores", "Total processor cores", labels, p.totalCores),
      Gauge(SUBSYSTEM, "processor_cores_enabled", "Enabled processor cores", labels, p.totalEnabledCores),
      Gauge(SUBSYSTEM, "processor_threads", "Processor threads", labels, p.totalThreads) ]
  }

  function StorageLabels(st: Storage, systemId: string): map<string, string>
  {
    map["id" := st.id, "name" := st.name, "system_id" := systemId, "storage_id" := st.id]
  }

  function StorageSamples(st: Storage, systemId: string): seq<Sample>
  {
    StatusSamples(SUBSYSTEM, "storage_", "Storage", StorageLabels(st, systemId), st.status)
  }

  function ControllerLabels(c: StorageController, systemId: string, storageId: string): map<string, string>
  {
    map["id" := c.memberId, "name" := c.name, "system_id" := systemId, "storage_id" := storageId]
  }

  /** The three figures every storage controller reports, all under the controller's labels. */
  function ControllerGauges(c: StorageController, systemId: string, storageId: string): (r: seq<Sample>)
    ensures |r| == 3
    ensures forall x :: x in r ==> x.labels == ControllerLabels(c, systemId, storageId)
  {
    var labels := ControllerLabels(c, systemId, storageId);
    [ Gauge(SUBSYSTEM, "storage_controller_speed_bytes", "Storage controller speed, bytes/s", labels, GbpsBytes(c.speedGbps)),
      Gauge(SUBSYSTEM, "storage_controller_cache_size_persistent_bytes", "Persistent cache size, bytes", labels, MiBBytes(c.cacheSummary.persistentCacheSizeMiB)),
      Gauge(SUBSYSTEM, "storage_controller_cache_size_bytes", "Total cache size, bytes", labels, MiBBytes(c.cacheSummary.totalCacheSizeMiB)) ]
  }

  /** The cache summary's health and state go out under the same metric names as the controller's own. */
  function ControllerSamples(c: StorageController, systemId: string, storageId: string): seq<Sample>
  {
    var labels := ControllerLabels(c, systemId, storageId);
    ControllerGauges(c, systemId, storageId)
    + StatusSamples(SUBSYSTEM, "storage_controller_", "Storage controller cache", labels, c.cacheSummary.status)
    + StatusSamples(SUBSYSTEM, "storage_controller_", "Storage controller", labels, c.status)
  }

  function DriveLabels(d: Drive, systemId: string): map<string, string>
  {
    map["id" := d.id, "name" := d.name, "system_id" := systemId, "drive_type" := d.mediaType]
  }

  const DRIVE_ROTATION_METRIC := "drive_rotation_speed_rpm"
  const DRIVE_LIFE_LEFT_METRIC := "drive_predicted_media_life_left_ratio"

  /** The five figures every drive reports. */
  function DriveFigures(d: Drive, systemId: string): seq<Sample>
  {
    var labels := DriveLabels(d, systemId);
    [ Gauge(SUBSYSTEM, "drive_speed_capable_bytes", "Fastest capable drive speed, bytes/s", labels, GbpsBytes(d.capableSpeedGbs)),
      Gauge(SUBSYSTEM, "drive_capacity_bytes", "Drive raw capacity, bytes", labels, d.capacityBytes),
      Gauge(SUBSYSTEM, "drive_predicted_failure", "Drive failure predicted; 0: NoFailure, 1: Failure", labels, Btof(d.failurePredicted)),
      Gauge(SUBSYSTEM, "drive_speed_negotiated_bytes", "Actual drive speed, bytes/s", labels, GbpsBytes(d.negotiatedSpeedGbs)),
      Gauge(SUBSYSTEM, "drive_write_cache_status", "Drive write cache status; 0: Disabled, 1: Enabled", labels, Btof(d.writeCacheEnabled)) ]
  }

  /** Spinning media report their rotation speed, solid-state media their life left, other media neither. */
  function DriveMediaSamples(d: Drive, systemId: string): seq<Sample>
  {
    if d.mediaType == "HDD" || d.mediaType == "SMR" then
      [Gauge(SUBSYSTEM, DRIVE_ROTATION_METRIC, "Drive rotation speed, RPM", DriveLabels(d, systemId), d.rotationSpeedRPM)]
    else if d.mediaType == "SSD" then
      [Gauge(SUBSYSTEM, DRIVE_LIFE_LEFT_METRIC, "Drive media life left, %", DriveLabels(d, systemId), d.predictedMediaLifeLeftPercent / 100.0)]
    else []
  }

  const ENCRYPTION_HELP := "Drive encryption status; 0: Unencrypted, 1: Unlocked, 2: Locked, 3: Foreign"
  const HOTSPARE_HELP := "Drive hotspare type; 0: None, 1: Global, 2: Chassis, 3: Dedicated"
  /** The drive status help text (split only to keep each literal short). */
  const DRIVE_STATUS_HELP := "Drive status; 0: Fail, 1: OK, 2: Rebuild, " + "3: PredictiveFailureAnalysis, 4: Hotspare, "
    + "5: InACriticalArray, 6: InAFailedArray"

  /** The coded drive properties; the drive's health and state help texts carry no subject. */
  function DriveCodes(d: Drive, systemId: string): seq<Sample>
  {
    var labels := DriveLabels(d, systemId);
    CodeSample(EnumEncryptionStatus(d.encryptionStatus), SUBSYSTEM, "drive_encryption_status", ENCRYPTION_HELP, labels["encryption_ability" := d.encryptionAbility])
    + CodeSample(EnumHotspareType(d.hotspareType), SUBSYSTEM, "drive_hotspare_type", HOTSPARE_HELP, labels["hotspare_replacement_mode" := d.hotspareReplacementMode])
    + CodeSample(EnumDriveStatusIndicator(d.statusIndicator), SUBSYSTEM, "drive_status", DRIVE_STATUS_HELP, labels)
    + StatusSamples(SUBSYSTEM, "drive_", "", labels, d.status)
  }

  function DriveSamples(d: Drive, systemId: string): seq<Sample>
  {
    DriveFigures(d, systemId) + DriveMediaSamples(d, systemId) + DriveCodes(d, systemId)
  }

  // ---- Lists, in list order ----

  function EthernetsSamples(xs: seq<EthernetInterface>, systemId: string, macLabel: string -> string): seq<Sample>
  {
    if xs == [] then [] else EthernetsSamples(xs[..|xs| - 1], systemId, macLabel) + EthernetSamples(xs[|xs| - 1], systemId, macLabel)
  }

  lemma EthernetsStep(xs: seq<EthernetInterface>, i: int, systemId: string, macLabel: string -> string)
    requires 0 <= i < |xs|
    ensures EthernetsSamples(xs[..i + 1], systemId, macLabel) == EthernetsSamples(xs[..i], systemId, macLabel) + EthernetSamples(xs[i], systemId, macLabel)
  {
    assert xs[..i + 1][..i] == xs[..i];
  }

  function MemoriesSamples(xs: seq<Memory>, systemId: string): seq<Sample>
  {
    if xs == [] then [] else MemoriesSamples(xs[..|xs| - 1], systemId) + MemorySamples(xs[|xs| - 1], systemId)
  }

  lemma MemoriesStep(xs: seq<Memory>, i: int, systemId: string)
    requires 0 <= i < |xs|
    ensures MemoriesSamples(xs[..i + 1], systemId) == MemoriesSamples(xs[..i], systemId) + MemorySamples(xs[i], systemId)
  {
    assert xs[..i + 1][..i] == xs[..i];
  }

  function NetworkInterfacesSamples(xs: seq<NetworkInterface>, systemId: string): seq<Sample>
  {
    if xs == [] then [] else NetworkInterfacesSamples(xs[..|xs| - 1], systemId) + NetworkInterfaceSamples(xs[|xs| - 1], systemId)
  }

  lemma NetworkInterfacesStep(xs: seq<NetworkInterface>, i: int, systemId: string)
    requires 0 <= i < |xs|
    ensures NetworkInterfacesSamples(xs[..i + 1], systemId) == NetworkInterfacesSamples(xs[..i], systemId) + NetworkInterfaceSamples(xs[i], systemId)
  {
    assert xs[..i + 1][..i] == xs[..i];
  }

  function PCIeDevicesSamples(xs: seq<PCIeDevice>, systemId: string): seq<Sample>
  {
    if xs == [] then [] else PCIeDevicesSamples(xs[..|xs| - 1], systemId) + PCIeSamples(xs[|xs| - 1], systemId)
  }

  function ProcessorsSamples(xs: seq<Processor>, systemId: string): seq<Sample>
  {
    if xs == [] then [] else ProcessorsSamples(xs[..|xs| - 1], systemId) + ProcessorSamples(xs[|xs| - 1], systemId)
  }

  lemma ProcessorsStep(xs: seq<Processor>, i: int, systemId: string)
    requires 0 <= i < |xs|
    ensures ProcessorsSamples(xs[..i + 1], systemId) == ProcessorsSamples(xs[..i], systemId) + ProcessorSamples(xs[i], systemId)
  {
    assert xs[..i + 1][..i] == xs[..i];
  }

  function ControllersSamples(xs: seq<StorageController>, systemId: string, storageId: string): seq<Sample>
  {
    if xs == [] then [] else ControllersSamples(xs[..|xs| - 1], systemId, storageId) + ControllerSamples(xs[|xs| - 1], systemId, storageId)
  }

  lemma ControllersStep(xs: seq<StorageController>, i: int, systemId: string, storageId: string)
    requires 0 <= i < |xs|
    ensures ControllersSamples(xs[..i + 1], systemId, storageId) == ControllersSamples(xs[..i], systemId, storageId) + ControllerSamples(xs[i], systemId, storageId)
  {
    assert xs[..i + 1][..i] == xs[..i];
  }

  function DrivesSamples(xs: seq<Drive>, systemId: string): seq<Sample>
  {
    if xs == [] then [] else DrivesSamples(xs[..|xs| - 1], systemId) + DriveSamples(xs[|xs| - 1], systemId)
  }

  lemma DrivesStep(xs: seq<Drive>, i: int, systemId: string)
    requires 0 <= i < |xs|
    ensures DrivesSamples(xs[..i + 1], systemId) == DrivesSamples(xs[..i], systemId) + DriveSamples(xs[i], systemId)
  {
    assert xs[..i + 1][..i] == xs[..i];
  }

  lemma PCIeDevicesSnoc(xs: seq<PCIeDevice>, d: PCIeDevice, systemId: string)
    ensures PCIeDevicesSamples(xs + [d], systemId) == PCIeDevicesSamples(xs, systemId) + PCIeSamples(d, systemId)
  {
    assert (xs + [d])[..|xs|] == xs;
  }

  // ---- PCIe de-duplication ----

  function DeviceIds(ds: seq<PCIeDevice>): set<string>
  {
    set d | d in ds :: d.id
  }

  /** The devices the PCIe loop processes: each device whose id no earlier device had, in list order. */
  function FirstById(ds: seq<PCIeDevice>): seq<PCIeDevice>
  {
    if ds == [] then []
    else
      var init := ds[..|ds| - 1];
      if ds[|ds| - 1].id in DeviceIds(init) then FirstById(init) else FirstById(init) + [ds[|ds| - 1]]
  }

  /** Whether `ds[i]` is the first device of `ds` with its id. */
  predicate IsFirstOfId(ds: seq<PCIeDevice>, i: int)
    requires 0 <= i < |ds|
  {
    forall j :: 0 <= j < i ==> ds[j].id != ds[i].id
  }

  /** Whether `d` occurs in `ds` at a position no earlier device with its id precedes. */
  predicate IsFirstOccurrence(ds: seq<PCIeDevice>, d: PCIeDevice)
  {
    exists i :: 0 <= i < |ds| && ds[i] == d && IsFirstOfId(ds, i)
  }

  lemma DeviceIdsSnoc(ds: seq<PCIeDevice>, d: PCIeDevice)
    ensures DeviceIds(ds + [d]) == DeviceIds(ds) + {d.id}
  {
    assert forall x :: x in ds + [d] <==> x in ds || x == d;
  }

  /** One more device: the loop over `ds[..i + 1]` either skips `ds[i]` or keeps it, and its id is seen afterwards. */
  lemma FirstByIdStep(ds: seq<PCIeDevice>, i: nat)
    requires i < |ds|
    ensures FirstById(ds[..i + 1]) ==
      if ds[i].id in DeviceIds(ds[..i]) then FirstById(ds[..i]) else FirstById(ds[..i]) + [ds[i]]
    ensures DeviceIds(ds[..i + 1]) == DeviceIds(ds[..i]) + {ds[i].id}
  {
    assert ds[..i + 1][..i] == ds[..i];
    assert ds[..i + 1] == ds[..i] + [ds[i]];
    DeviceIdsSnoc(ds[..i], ds[i]);
  }

  lemma FirstOccurrenceSnoc(ds: seq<PCIeDevice>, d: PCIeDevice, x: PCIeDevice)
    ensures IsFirstOccurrence(ds + [d], x) <==> IsFirstOccurrence(ds, x) || (x == d && d.id !in DeviceIds(ds))
  {
    var e := ds + [d];
    if IsFirstOccurrence(e, x) {
      var i :| 0 <= i < |e| && e[i] == x && IsFirstOfId(e, i);
      if i < |ds| {
        assert ds[i] == x;
        assert IsFirstOfId(ds, i) by {
          forall j | 0 <= j < i ensures ds[j].id != ds[i].id {
            assert e[j] == ds[j];
          }
        }
      } else {
        forall k | k in ds ensures k.id != d.id {
          var j :| 0 <= j < |ds| && ds[j] == k;
          assert e[j] == k;
        }
      }
    }
    if IsFirstOccurrence(ds, x) {
      var i :| 0 <= i < |ds| && ds[i] == x && IsFirstOfId(ds, i);
      assert e[i] == x && IsFirstOfId(e, i);
    }
    if x == d && d.id !in DeviceIds(ds) {
      assert IsFirstOfId(e, |ds|) by {
        forall j | 0 <= j < |ds| ensures e[j].id != d.id {
          assert e[j] == ds[j] && ds[j] in ds;
        }
      }
      assert e[|ds|] == x;
    }
  }

  /** Every id of the list is kept. */
  lemma {:induction false} FirstByIdIds(ds: seq<PCIeDevice>)
    ensures DeviceIds(FirstById(ds)) == DeviceIds(ds)
  {
    if ds != [] {
      var init, last := ds[..|ds| - 1], ds[|ds| - 1];
      FirstByIdIds(init);
      assert ds == init + [last];
      DeviceIdsSnoc(init, last);
      if last.id !in DeviceIds(init) {
        DeviceIdsSnoc(FirstById(init), last);
      }
    }
  }

  /** Whether no two devices of `ds` share an id. */
  predicate DistinctIds(ds: seq<PCIeDevice>)
  {
    forall j, k :: 0 <= j < k < |ds| ==> ds[j].id != ds[k].id
  }

  lemma DistinctIdsSnoc(ds: seq<PCIeDevice>, d: PCIeDevice)
    requires DistinctIds(ds) && d.id !in DeviceIds(ds)
    ensures DistinctIds(ds + [d])
  {
    var e := ds + [d];
    forall j, k | 0 <= j < k < |e| ensures e[j].id != e[k].id {
      if k == |ds| {
        assert e[j] == ds[j] && ds[j] in ds;
      } else {
        assert e[j] == ds[j] && e[k] == ds[k];
      }
    }
  }

  /** No id is kept twice. */
  lemma {:induction false} FirstByIdDistinct(ds: seq<PCIeDevice>)
    ensures DistinctIds(FirstById(ds))
  {
    if ds != [] {
      var init, last := ds[..|ds| - 1], ds[|ds| - 1];
      FirstByIdDistinct(init);
      if last.id !in DeviceIds(init) {
        FirstByIdIds(init);
        DistinctIdsSnoc(FirstById(init), last);
      }
    }
  }

  /** A device is kept exactly when it is the first of its id in list order. */
  lemma {:induction false} FirstByIdFirst(ds: seq<PCIeDevice>)
    ensures forall d :: d in FirstById(ds) <==> IsFirstOccurrence(ds, d)
  {
    if ds != [] {
      var init, last := ds[..|ds| - 1], ds[|ds| - 1];
      FirstByIdFirst(init);
      assert ds == init + [last];
      forall d ensures d in FirstById(ds) <==> IsFirstOccurrence(ds, d) {
        FirstOccurrenceSnoc(init, last, d);
      }
    }
  }

  /** The samples of the PCIe loop after one more device. */
  lemma PCIeStep(ds: seq<PCIeDevice>, i: nat, systemId: string)
    requires i < |ds|
    ensures ds[i].id in DeviceIds(ds[..i]) ==>
      PCIeDevicesSamples(FirstById(ds[..i + 1]), systemId) == PCIeDevicesSamples(FirstById(ds[..i]), systemId)
    ensures ds[i].id !in DeviceIds(ds[..i]) ==>
      PCIeDevicesSamples(FirstById(ds[..i + 1]), systemId) == PCIeDevicesSamples(FirstById(ds[..i]), systemId) + PCIeSamples(ds[i], systemId)
    ensures DeviceIds(ds[..i + 1]) == DeviceIds(ds[..i]) + {ds[i].id}
  {
    FirstByIdStep(ds, i);
    if ds[i].id !in DeviceIds(ds[..i]) {
      PCIeDevicesSnoc(FirstById(ds[..i]), ds[i], systemId);
    }
  }

  /** One turn of the PCIe loop: a device already seen adds nothing, a new one adds its samples and its id. */
  lemma PCIeAdvance(start: seq<Sample>, before: seq<Sample>, after: seq<Sample>, idsBefore: set<string>, idsAfter: set<string>,
                    ds: seq<PCIeDevice>, i: nat, systemId: string)
    requires i < |ds|
    requires before == start + PCIeDevicesSamples(FirstById(ds[..i]), systemId)
    requires idsBefore == DeviceIds(ds[..i])
    requires ds[i].id in idsBefore ==> after == before && idsAfter == idsBefore
    requires ds[i].id !in idsBefore ==> after == before + PCIeSamples(ds[i], systemId) && idsAfter == idsBefore + {ds[i].id}
    ensures after == start + PCIeDevicesSamples(FirstById(ds[..i + 1]), systemId)
    ensures idsAfter == DeviceIds(ds[..i + 1])
  {
    PCIeStep(ds, i, systemId);
    if ds[i].id !in idsBefore {
      AppendAssoc(start, PCIeDevicesSamples(FirstById(ds[..i]), systemId), PCIeSamples(ds[i], systemId));
    }
  }

  // ---- The traversal ----

  function SystemPath(systemId: string): string
  {
    "/Systems/" + systemId
  }

  function EthernetPart(s: ComputerSystem, macLabel: string -> string): Trace
  {
    match s.ethernetInterfaces
    case Failure(e) => Failed(ErrorCollecting(SystemPath(s.id) + "/EthernetInterfaces", e))
    case Success(xs) => Emitted(EthernetsSamples(xs, s.id, macLabel))
  }

  function MemoryPart(s: ComputerSystem): Trace
  {
    match s.memory
    case Failure(e) => Failed(ErrorCollecting(SystemPath(s.id) + "/Memory", e))
    case Success(xs) => Emitted(MemoriesSamples(xs, s.id))
  }

  function NetworkInterfacesPart(s: ComputerSystem): Trace
  {
    match s.networkInterfaces
    case Failure(e) => Failed(ErrorCollecting(SystemPath(s.id) + "/NetworkInterfaces", e))
    case Success(xs) => Emitted(NetworkInterfacesSamples(xs, s.id))
  }

  function PCIePart(s: ComputerSystem): Trace
  {
    match s.pcieDevices
    case Failure(e) => Failed(ErrorCollecting(SystemPath(s.id) + "/PCIeDevices", e))
    case Success(xs) => Emitted(PCIeDevicesSamples(FirstById(xs), s.id))
  }

  function ProcessorsPart(s: ComputerSystem): Trace
  {
    match s.processors
    case Failure(e) => Failed(ErrorCollecting(SystemPath(s.id) + "/Processors", e))
    case Success(xs) => Emitted(ProcessorsSamples(xs, s.id))
  }

  /** One storage subsystem: itself, its inline controllers, then its drives, whose read may fail. */
  function StorageTrace(st: Storage, systemId: string): Trace
  {
    Emitted(StorageSamples(st, systemId) + ControllersSamples(st.storageControllers, systemId, st.id)).Then(
      match st.drives
      case Failure(e) => Failed(ErrorCollecting(SystemPath(systemId) + "/Storage/" + st.id + "/Drives", e))
      case Success(ds) => Emitted(DrivesSamples(ds, systemId)))
  }

  function StorageTraces(xs: seq<Storage>, systemId: string): (ts: seq<Trace>)
    ensures |ts| == |xs|
    ensures forall i :: 0 <= i < |xs| ==> ts[i] == StorageTrace(xs[i], systemId)
  {
    seq(|xs|, i requires 0 <= i < |xs| => StorageTrace(xs[i], systemId))
  }

  function StoragePart(s: ComputerSystem): Trace
  {
    match s.storage
    case Failure(e) => Failed(ErrorCollecting(SystemPath(s.id) + "/Storage", e))
    case Success(xs) => ThenAll(StorageTraces(xs, s.id))
  }

  /** One iteration of the system loop, in the order the source visits the subtrees. */
  function SystemTrace(s: ComputerSystem, macLabel: string -> string): Trace
  {
    Emitted(SystemSamples(s))
      .Then(EthernetPart(s, macLabel))
      .Then(MemoryPart(s))
      .Then(NetworkInterfacesPart(s))
      .Then(PCIePart(s))
      .Then(ProcessorsPart(s))
      .Then(StoragePart(s))
  }

  function SystemTraces(xs: seq<ComputerSystem>, macLabel: string -> string): (ts: seq<Trace>)
    ensures |ts| == |xs|
    ensures forall i :: 0 <= i < |xs| ==> ts[i] == SystemTrace(xs[i], macLabel)
  {
    seq(|xs|, i requires 0 <= i < |xs| => SystemTrace(xs[i], macLabel))
  }

  /** What `SystemCollector.Collect` sends and returns for a given service. */
  function SystemCollect(client: Service, macLabel: string -> string): Trace
  {
    match client.systems
    case Failure(e) => Failed(ErrorCollecting("/Systems", e))
    case Success(xs) => ThenAll(SystemTraces(xs, macLabel))
  }

  // ---- Properties of the traversal ----

  const ROTATION_NAME := BuildFQName(NAMESPACE, SUBSYSTEM, DRIVE_ROTATION_METRIC)
  const LIFE_LEFT_NAME := BuildFQName(NAMESPACE, SUBSYSTEM, DRIVE_LIFE_LEFT_METRIC)

  /**
   * A memory module always reports its five size and speed figures, sizes in
   * bytes from MiB and speed in Hz from MHz, under the names the source uses
   * (including the two ending in `_desc`); health and state follow only when
   * known.
   */
  lemma MemoryFiguresAlways(m: Memory, systemId: string)
    ensures var r := MemorySamples(m, systemId);
      && |r| == 5 + (if m.status.health in HEALTHS then 1 else 0) + (if m.status.state in STATES then 1 else 0)
      && r[0].name == BuildFQName(NAMESPACE, SUBSYSTEM, "memory_cache_size_bytes") && r[0].value == m.cacheSizeMiB * 1048576.0
      && r[1].name == BuildFQName(NAMESPACE, SUBSYSTEM, "memory_capacity_bytes") && r[1].value == m.capacityMiB * 1048576.0
      && r[2].name == BuildFQName(NAMESPACE, SUBSYSTEM, "memory_non_volatile_size_desc") && r[2].value == m.nonVolatileSizeMiB * 1048576.0
      && r[3].name == BuildFQName(NAMESPACE, SUBSYSTEM, "memory_operating_speed_hertz") && r[3].value == m.operatingSpeedMhz * 1000000.0
      && r[4].name == BuildFQName(NAMESPACE, SUBSYSTEM, "memory_volatile_size_desc") && r[4].value == m.volatileSizeMiB * 1048576.0
  {
    StatusSuppression(SUBSYSTEM, "memory_", "Memory", MemoryLabels(m, systemId), m.status);
    UnitConstants();
  }

  /**
   * A processor always reports its six figures (speed in Hz from MHz, the
   * TDPs under the source's `processor_tdp_current_wats` name, cores and
   * threads); health and state follow only when known.
   */
  lemma ProcessorFiguresAlways(p: Processor, systemId: string)
    ensures var r := ProcessorSamples(p, systemId);
      && |r| == 6 + (if p.status.health in HEALTHS then 1 else 0) + (if p.status.state in STATES then 1 else 0)
      && r[0].name == BuildFQName(NAMESPACE, SUBSYSTEM, "processor_speed_max_hertz") && r[0].value == p.maxSpeedMHz * 1000000.0
      && r[1].name == BuildFQName(NAMESPACE, SUBSYSTEM, "processor_tdp_max_watts") && r[1].value == p.maxTDPWatts
      && r[2].name == BuildFQName(NAMESPACE, SUBSYSTEM, "processor_tdp_current_wats") && r[2].value == p.tdpWatts
      && r[3].name == BuildFQName(NAMESPACE, SUBSYSTEM, "processor_cores") && r[3].value == p.totalCores
      && r[4].name == BuildFQName(NAMESPACE, SUBSYSTEM, "processor_cores_enabled") && r[4].value == p.totalEnabledCores
      && r[5].name == BuildFQName(NAMESPACE, SUBSYSTEM, "processor_threads") && r[5].value == p.totalThreads
  {
    StatusSuppression(SUBSYSTEM, "processor_", "Processor", ProcessorLabels(p, systemId), p.status);
    UnitConstants();
  }

  /**
   * A drive always opens with its five figures: speeds in bytes/s from Gbit/s,
   * raw capacity, and the failure-predicted and write-cache flags as 0/1.
   */
  lemma DriveFiguresAlways(d: Drive, systemId: string)
    ensures var r := DriveSamples(d, systemId);
      && |r| >= 5
      && r[0].name == BuildFQName(NAMESPACE, SUBSYSTEM, "drive_speed_capable_bytes") && r[0].value == d.capableSpeedGbs * 125000000.0
      && r[1].name == BuildFQName(NAMESPACE, SUBSYSTEM, "drive_capacity_bytes") && r[1].value == d.capacityBytes
      && r[2].name == BuildFQName(NAMESPACE, SUBSYSTEM, "drive_predicted_failure") && r[2].value == Btof(d.failurePredicted)
      && r[3].name == BuildFQName(NAMESPACE, SUBSYSTEM, "drive_speed_negotiated_bytes") && r[3].value == d.negotiatedSpeedGbs * 125000000.0
      && r[4].name == BuildFQName(NAMESPACE, SUBSYSTEM, "drive_write_cache_status") && r[4].value == Btof(d.writeCacheEnabled)
  {
    assert DriveSamples(d, systemId)[..5] == DriveFigures(d, systemId);
  }

  /** A system reports its power state only when known, with the power state as its value; health and state follow likewise. */
  lemma SystemCodes(s: ComputerSystem)
    ensures var r := SystemSamples(s);
      && |r| == (if s.powerState in POWER_STATES then 1 else 0)
               + (if s.status.health in HEALTHS then 1 else 0) + (if s.status.state in STATES then 1 else 0)
      && ((exists x :: x in r && x.name == BuildFQName(NAMESPACE, SUBSYSTEM, "power_state")) <==> s.powerState in POWER_STATES)
      && (forall x :: x in r && x.name == BuildFQName(NAMESPACE, SUBSYSTEM, "power_state") ==>
            x.value == EnumPowerState(s.powerState) as real && x.labels == SystemLabels(s))
  {
    var power := CodeSample(EnumPowerState(s.powerState), SUBSYSTEM, "power_state", SYSTEM_POWER_HELP, SystemLabels(s));
    var status := StatusSamples(SUBSYSTEM, "", "System", SystemLabels(s), s.status);
    CodeSampleNamed(EnumPowerState(s.powerState), SUBSYSTEM, "power_state", SYSTEM_POWER_HELP, SystemLabels(s));
    StatusSuppression(SUBSYSTEM, "", "System", SystemLabels(s), s.status);
    BuildFQNameInjective(SUBSYSTEM, "power_state", "health");
    BuildFQNameInjective(SUBSYSTEM, "power_state", "state");
    assert "" + "health" == "health" && "" + "state" == "state";
  }

  /**
   * A system's ethernet interface always reports its enabled flag as 0/1 and
   * then its speed in bytes/s from Mbit/s, labelled with its duplex.
   */
  lemma EthernetInterfaceFigures(intf: EthernetInterface, systemId: string, macLabel: string -> string)
    ensures var r := EthernetSamples(intf, systemId, macLabel);
      && |r| == 2 + (if intf.linkStatus in LINK_STATUSES then 1 else 0)
               + (if intf.status.health in HEALTHS then 1 else 0) + (if intf.status.state in STATES then 1 else 0)
      && r[0].name == BuildFQName(NAMESPACE, SUBSYSTEM, "ethernet_interface_status") && r[0].value == Btof(intf.interfaceEnabled)
      && r[1].name == BuildFQName(NAMESPACE, SUBSYSTEM, "ethernet_interface_speed_bytes") && r[1].value == intf.speedMbps * 131072.0
      && r[1].labels == EthernetLabels(intf, systemId, macLabel)["duplex" := if intf.fullDuplex then "full" else "half"]
  {
    var labels := EthernetLabels(intf, systemId, macLabel);
    var link := CodeSample(EnumInterfaceLinkStatus(intf.linkStatus), SUBSYSTEM, "ethernet_interface_link_status", ETHERNET_LINK_HELP, labels);
    var status := StatusSamples(SUBSYSTEM, "ethernet_interface_", "Ethernet interface", labels, intf.status);
    assert |link| == if intf.linkStatus in LINK_STATUSES then 1 else 0;
    assert |status| == (if intf.status.health in HEALTHS then 1 else 0) + (if intf.status.state in STATES then 1 else 0);
    assert EthernetSamples(intf, systemId, macLabel)[2..] == link + status;
  }

  /** An ethernet interface's link status is sent exactly when its codec recognises it, with the ordinal as its value. */
  lemma EthernetLinkStatusKnown(intf: EthernetInterface, systemId: string, macLabel: string -> string)
    ensures var r := EthernetSamples(intf, systemId, macLabel);
      && ((exists x :: x in r && x.name == BuildFQName(NAMESPACE, SUBSYSTEM, "ethernet_interface_link_status")) <==> intf.linkStatus in LINK_STATUSES)
      && (forall x :: x in r && x.name == BuildFQName(NAMESPACE, SUBSYSTEM, "ethernet_interface_link_status") ==>
            x.value == EnumInterfaceLinkStatus(intf.linkStatus) as real)
  {
    assert "ethernet_interface_" + "health" == "ethernet_interface_health";
    assert "ethernet_interface_" + "state" == "ethernet_interface_state";
    var labels := EthernetLabels(intf, systemId, macLabel);
    var figures := [ Gauge(SUBSYSTEM, "ethernet_interface_status", ETHERNET_ENABLED_HELP, labels, Btof(intf.interfaceEnabled)),
      Gauge(SUBSYSTEM, "ethernet_interface_speed_bytes", ETHERNET_SPEED_HELP, labels["duplex" := Duplex(intf.fullDuplex)], EthernetSpeed(intf)) ];
    var status := StatusSamples(SUBSYSTEM, "ethernet_interface_", "Ethernet interface", labels, intf.status);
    BuildFQNameInjective(SUBSYSTEM, "ethernet_interface_link_status", "ethernet_interface_status");
    BuildFQNameInjective(SUBSYSTEM, "ethernet_interface_link_status", "ethernet_interface_speed_bytes");
    BuildFQNameInjective(SUBSYSTEM, "ethernet_interface_link_status", "ethernet_interface_health");
    BuildFQNameInjective(SUBSYSTEM, "ethernet_interface_link_status", "ethernet_interface_state");
    StatusNames(SUBSYSTEM, "ethernet_interface_", "Ethernet interface", labels, intf.status);
    CodeSampleAmid(figures, EnumInterfaceLinkStatus(intf.linkStatus), SUBSYSTEM, "ethernet_interface_link_status", ETHERNET_LINK_HELP, labels, status);
  }

  /** A storage controller always reports its speed in bytes/s and its two cache sizes in bytes, first. */
  lemma ControllerFigures(c: StorageController, systemId: string, storageId: string)
    ensures var r := ControllerSamples(c, systemId, storageId);
      && |r| == 3 + (if c.cacheSummary.status.health in HEALTHS then 1 else 0) + (if c.cacheSummary.status.state in STATES then 1 else 0)
                  + (if c.status.health in HEALTHS then 1 else 0) + (if c.status.state in STATES then 1 else 0)
      && r[0].name == BuildFQName(NAMESPACE, SUBSYSTEM, "storage_controller_speed_bytes") && r[0].value == c.speedGbps * 125000000.0
      && r[1].name == BuildFQName(NAMESPACE, SUBSYSTEM, "storage_controller_cache_size_persistent_bytes")
      && r[1].value == c.cacheSummary.persistentCacheSizeMiB * 1048576.0
      && r[2].name == BuildFQName(NAMESPACE, SUBSYSTEM, "storage_controller_cache_size_bytes")
      && r[2].value == c.cacheSummary.totalCacheSizeMiB * 1048576.0
  {
    var labels := ControllerLabels(c, systemId, storageId);
    StatusSuppression(SUBSYSTEM, "storage_controller_", "Storage controller cache", labels, c.cacheSummary.status);
    StatusSuppression(SUBSYSTEM, "storage_controller_", "Storage controller", labels, c.status);
  }

  /**
   * After its figures a storage controller sends the cache summary's health
   * and state and then its own, all under `storage_controller_health` and
   * `storage_controller_state`, which are not the storage's names.
   */
  lemma ControllerStatusNames(c: StorageController, systemId: string, storageId: string)
    ensures var r := ControllerSamples(c, systemId, storageId);
      forall i :: 3 <= i < |r| ==>
        r[i].name == BuildFQName(NAMESPACE, SUBSYSTEM, "storage_controller_health")
        || r[i].name == BuildFQName(NAMESPACE, SUBSYSTEM, "storage_controller_state")
    ensures BuildFQName(NAMESPACE, SUBSYSTEM, "storage_controller_health") != BuildFQName(NAMESPACE, SUBSYSTEM, "storage_health")
    ensures BuildFQName(NAMESPACE, SUBSYSTEM, "storage_controller_state") != BuildFQName(NAMESPACE, SUBSYSTEM, "storage_state")
  {
    var labels := ControllerLabels(c, systemId, storageId);
    var cache := StatusSamples(SUBSYSTEM, "storage_controller_", "Storage controller cache", labels, c.cacheSummary.status);
    var own := StatusSamples(SUBSYSTEM, "storage_controller_", "Storage controller", labels, c.status);
    var r := ControllerSamples(c, systemId, storageId);
    assert forall i :: 3 <= i < |r| ==> r[i] in cache + own by {
      assert r == ControllerGauges(c, systemId, storageId) + cache + own;
      forall i | 3 <= i < |r| ensures r[i] in cache + own {
        assert r[i] == (cache + own)[i - 3];
      }
    }
    assert forall x: Sample :: x in cache + own ==>
      x.name == BuildFQName(NAMESPACE, SUBSYSTEM, "storage_controller_health")
      || x.name == BuildFQName(NAMESPACE, SUBSYSTEM, "storage_controller_state") by {
      assert "storage_controller_" + "health" == "storage_controller_health";
      assert "storage_controller_" + "state" == "storage_controller_state";
      StatusPairsNamed(SUBSYSTEM, "storage_controller_", "Storage controller cache", "Storage controller", labels, c.cacheSummary.status, c.status);
    }
    assert BuildFQName(NAMESPACE, SUBSYSTEM, "storage_controller_health") != BuildFQName(NAMESPACE, SUBSYSTEM, "storage_health") by {
      BuildFQNameInjective(SUBSYSTEM, "storage_controller_health", "storage_health");
    }
    assert BuildFQName(NAMESPACE, SUBSYSTEM, "storage_controller_state") != BuildFQName(NAMESPACE, SUBSYSTEM, "storage_state") by {
      BuildFQNameInjective(SUBSYSTEM, "storage_controller_state", "storage_state");
    }
  }

  /** When the cache summary's health and the controller's own are both known, `storage_controller_health` goes out twice, with different help texts. */
  lemma ControllerHealthTwice(c: StorageController, systemId: string, storageId: string)
    requires c.cacheSummary.status.health in HEALTHS && c.status.health in HEALTHS
    ensures var r := ControllerSamples(c, systemId, storageId);
      exists i, j :: 3 <= i < j < |r| && r[i].name == BuildFQName(NAMESPACE, SUBSYSTEM, "storage_controller_health")
                     && r[j].name == r[i].name && r[i].help != r[j].help
  {
    var labels := ControllerLabels(c, systemId, storageId);
    var cache := StatusSamples(SUBSYSTEM, "storage_controller_", "Storage controller cache", labels, c.cacheSummary.status);
    var own := StatusSamples(SUBSYSTEM, "storage_controller_", "Storage controller", labels, c.status);
    var r := ControllerSamples(c, systemId, storageId);
    assert |cache| >= 1 && |own| >= 1;
    assert r[3..] == cache + own;
    var i, j := 3, 3 + |cache|;
    assert r[i] == cache[0] && r[j] == own[0];
    assert |HealthHelp("Storage controller cache")| != |HealthHelp("Storage controller")|;
  }

  /** A drive sends one sample per coded property its codec recognises, then its health and state when known. */
  lemma DriveCodesCount(d: Drive, systemId: string)
    ensures |DriveCodes(d, systemId)| ==
      (if d.encryptionStatus in ENCRYPTION_STATUSES || d.encryptionStatus == UNENCRYPTED_MISSPELT then 1 else 0)
      + (if d.hotspareType in HOTSPARE_TYPES then 1 else 0) + (if d.statusIndicator in STATUS_INDICATORS then 1 else 0)
      + (if d.status.health in HEALTHS then 1 else 0) + (if d.status.state in STATES then 1 else 0)
  {
    StatusSuppression(SUBSYSTEM, "drive_", "", DriveLabels(d, systemId), d.status);
  }

  /**
   * A drive's encryption status is sent exactly when its codec recognises it
   * (the misspelt "Unecrypted" included), with the ordinal as its value and
   * the encryption ability as an extra label.
   */
  lemma DriveEncryptionCode(d: Drive, systemId: string)
    ensures var r := DriveCodes(d, systemId);
      && ((exists x :: x in r && x.name == BuildFQName(NAMESPACE, SUBSYSTEM, "drive_encryption_status"))
          <==> d.encryptionStatus in ENCRYPTION_STATUSES || d.encryptionStatus == UNENCRYPTED_MISSPELT)
      && (forall x :: x in r && x.name == BuildFQName(NAMESPACE, SUBSYSTEM, "drive_encryption_status") ==>
            x.value == EnumEncryptionStatus(d.encryptionStatus) as real
            && x.labels == DriveLabels(d, systemId)["encryption_ability" := d.encryptionAbility])
  {
    var labels := DriveLabels(d, systemId);
    var encLabels := labels["encryption_ability" := d.encryptionAbility];
    var spareLabels := labels["hotspare_replacement_mode" := d.hotspareReplacementMode];
    var enc := CodeSample(EnumEncryptionStatus(d.encryptionStatus), SUBSYSTEM, "drive_encryption_status", ENCRYPTION_HELP, encLabels);
    var spare := CodeSample(EnumHotspareType(d.hotspareType), SUBSYSTEM, "drive_hotspare_type", HOTSPARE_HELP, spareLabels);
    var indicator := CodeSample(EnumDriveStatusIndicator(d.statusIndicator), SUBSYSTEM, "drive_status", DRIVE_STATUS_HELP, labels);
    var status := StatusSamples(SUBSYSTEM, "drive_", "", labels, d.status);
    assert forall x :: x in spare ==> x.name != BuildFQName(NAMESPACE, SUBSYSTEM, "drive_encryption_status") by {
      CodeSampleNamed(EnumHotspareType(d.hotspareType), SUBSYSTEM, "drive_hotspare_type", HOTSPARE_HELP, spareLabels);
      BuildFQNameInjective(SUBSYSTEM, "drive_encryption_status", "drive_hotspare_type");
    }
    assert forall x :: x in indicator ==> x.name != BuildFQName(NAMESPACE, SUBSYSTEM, "drive_encryption_status") by {
      CodeSampleNamed(EnumDriveStatusIndicator(d.statusIndicator), SUBSYSTEM, "drive_status", DRIVE_STATUS_HELP, labels);
      BuildFQNameInjective(SUBSYSTEM, "drive_encryption_status", "drive_status");
    }
    assert forall x :: x in status ==> x.name != BuildFQName(NAMESPACE, SUBSYSTEM, "drive_encryption_status") by {
      assert "drive_" + "health" == "drive_health" && "drive_" + "state" == "drive_state";
      StatusNames(SUBSYSTEM, "drive_", "", labels, d.status);
      BuildFQNameInjective(SUBSYSTEM, "drive_encryption_status", "drive_health");
      BuildFQNameInjective(SUBSYSTEM, "drive_encryption_status", "drive_state");
    }
    assert forall x :: x in spare + indicator + status ==> x.name != BuildFQName(NAMESPACE, SUBSYSTEM, "drive_encryption_status");
    CodeSampleAmid([], EnumEncryptionStatus(d.encryptionStatus), SUBSYSTEM, "drive_encryption_status", ENCRYPTION_HELP, encLabels,
                   spare + indicator + status);
  }

  /** A drive's hotspare type is sent exactly when its codec recognises it, labelled with the replacement mode. */
  lemma DriveHotspareCode(d: Drive, systemId: string)
    ensures var r := DriveCodes(d, systemId);
      && ((exists x :: x in r && x.name == BuildFQName(NAMESPACE, SUBSYSTEM, "drive_hotspare_type")) <==> d.hotspareType in HOTSPARE_TYPES)
      && (forall x :: x in r && x.name == BuildFQName(NAMESPACE, SUBSYSTEM, "drive_hotspare_type") ==>
            x.value == EnumHotspareType(d.hotspareType) as real
            && x.labels == DriveLabels(d, systemId)["hotspare_replacement_mode" := d.hotspareReplacementMode])
  {
    var labels := DriveLabels(d, systemId);
    var encLabels := labels["encryption_ability" := d.encryptionAbility];
    var spareLabels := labels["hotspare_replacement_mode" := d.hotspareReplacementMode];
    var enc := CodeSample(EnumEncryptionStatus(d.encryptionStatus), SUBSYSTEM, "drive_encryption_status", ENCRYPTION_HELP, encLabels);
    var spare := CodeSample(EnumHotspareType(d.hotspareType), SUBSYSTEM, "drive_hotspare_type", HOTSPARE_HELP, spareLabels);
    var indicator := CodeSample(EnumDriveStatusIndicator(d.statusIndicator), SUBSYSTEM, "drive_status", DRIVE_STATUS_HELP, labels);
    var status := StatusSamples(SUBSYSTEM, "drive_", "", labels, d.status);
    assert forall x :: x in enc ==> x.name != BuildFQName(NAMESPACE, SUBSYSTEM, "drive_hotspare_type") by {
      CodeSampleNamed(EnumEncryptionStatus(d.encryptionStatus), SUBSYSTEM, "drive_encryption_status", ENCRYPTION_HELP, encLabels);
      BuildFQNameInjective(SUBSYSTEM, "drive_hotspare_type", "drive_encryption_status");
    }
    assert forall x :: x in indicator ==> x.name != BuildFQName(NAMESPACE, SUBSYSTEM, "drive_hotspare_type") by {
      CodeSampleNamed(EnumDriveStatusIndicator(d.statusIndicator), SUBSYSTEM, "drive_status", DRIVE_STATUS_HELP, labels);
      BuildFQNameInjective(SUBSYSTEM, "drive_hotspare_type", "drive_status");
    }
    assert forall x :: x in status ==> x.name != BuildFQName(NAMESPACE, SUBSYSTEM, "drive_hotspare_type") by {
      assert "drive_" + "health" == "drive_health" && "drive_" + "state" == "drive_state";
      StatusNames(SUBSYSTEM, "drive_", "", labels, d.status);
      BuildFQNameInjective(SUBSYSTEM, "drive_hotspare_type", "drive_health");
      BuildFQNameInjective(SUBSYSTEM, "drive_hotspare_type", "drive_state");
    }
    assert forall x :: x in indicator + status ==> x.name != BuildFQName(NAMESPACE, SUBSYSTEM, "drive_hotspare_type");
    CodeSampleAmid(enc, EnumHotspareType(d.hotspareType), SUBSYSTEM, "drive_hotspare_type", HOTSPARE_HELP, spareLabels, indicator + status);
  }

  /** A drive's status indicator is sent exactly when its codec recognises it, with the ordinal as its value. */
  lemma DriveIndicatorCode(d: Drive, systemId: string)
    ensures var r := DriveCodes(d, systemId);
      && ((exists x :: x in r && x.name == BuildFQName(NAMESPACE, SUBSYSTEM, "drive_status")) <==> d.statusIndicator in STATUS_INDICATORS)
      && (forall x :: x in r && x.name == BuildFQName(NAMESPACE, SUBSYSTEM, "drive_status") ==>
            x.value == EnumDriveStatusIndicator(d.statusIndicator) as real && x.labels == DriveLabels(d, systemId))
  {
    var labels := DriveLabels(d, systemId);
    var encLabels := labels["encryption_ability" := d.encryptionAbility];
    var spareLabels := labels["hotspare_replacement_mode" := d.hotspareReplacementMode];
    var enc := CodeSample(EnumEncryptionStatus(d.encryptionStatus), SUBSYSTEM, "drive_encryption_status", ENCRYPTION_HELP, encLabels);
    var spare := CodeSample(EnumHotspareType(d.hotspareType), SUBSYSTEM, "drive_hotspare_type", HOTSPARE_HELP, spareLabels);
    var indicator := CodeSample(EnumDriveStatusIndicator(d.statusIndicator), SUBSYSTEM, "drive_status", DRIVE_STATUS_HELP, labels);
    var status := StatusSamples(SUBSYSTEM, "drive_", "", labels, d.status);
    assert forall x :: x in enc ==> x.name != BuildFQName(NAMESPACE, SUBSYSTEM, "drive_status") by {
      CodeSampleNamed(EnumEncryptionStatus(d.encryptionStatus), SUBSYSTEM, "drive_encryption_status", ENCRYPTION_HELP, encLabels);
      BuildFQNameInjective(SUBSYSTEM, "drive_status", "drive_encryption_status");
    }
    assert forall x :: x in spare ==> x.name != BuildFQName(NAMESPACE, SUBSYSTEM, "drive_status") by {
      CodeSampleNamed(EnumHotspareType(d.hotspareType), SUBSYSTEM, "drive_hotspare_type", HOTSPARE_HELP, spareLabels);
      BuildFQNameInjective(SUBSYSTEM, "drive_status", "drive_hotspare_type");
    }
    assert forall x :: x in status ==> x.name != BuildFQName(NAMESPACE, SUBSYSTEM, "drive_status") by {
      assert "drive_" + "health" == "drive_health" && "drive_" + "state" == "drive_state";
      StatusNames(SUBSYSTEM, "drive_", "", labels, d.status);
      BuildFQNameInjective(SUBSYSTEM, "drive_status", "drive_health");
      BuildFQNameInjective(SUBSYSTEM, "drive_status", "drive_state");
    }
    assert forall x :: x in enc + spare ==> x.name != BuildFQName(NAMESPACE, SUBSYSTEM, "drive_status");
    CodeSampleAmid(enc + spare, EnumDriveStatusIndicator(d.statusIndicator), SUBSYSTEM, "drive_status", DRIVE_STATUS_HELP, labels, status);
  }

  /** Whether no sample of `xs` carries either media-dependent name. */
  predicate MediaNamesFree(xs: seq<Sample>)
  {
    forall x :: x in xs ==> x.name != ROTATION_NAME && x.name != LIFE_LEFT_NAME
  }

  lemma DriveFiguresOtherNames(d: Drive, systemId: string)
    ensures MediaNamesFree(DriveFigures(d, systemId))
  {
    assert |ROTATION_NAME| == 39 && |LIFE_LEFT_NAME| == 52;
    assert ROTATION_NAME[21] == 'r';
    assert BuildFQName(NAMESPACE, SUBSYSTEM, "drive_write_cache_status")[21] == 'w';
  }

  lemma DriveCodesOtherNames(d: Drive, systemId: string)
    ensures MediaNamesFree(DriveCodes(d, systemId))
  {
    StatusSuppression(SUBSYSTEM, "drive_", "", DriveLabels(d, systemId), d.status);
    assert |ROTATION_NAME| == 39 && |LIFE_LEFT_NAME| == 52;
    assert |BuildFQName(NAMESPACE, SUBSYSTEM, "drive_encryption_status")| == 38;
    assert |BuildFQName(NAMESPACE, SUBSYSTEM, "drive_hotspare_type")| == 34;
    assert |BuildFQName(NAMESPACE, SUBSYSTEM, "drive_status")| == 27;
    assert |BuildFQName(NAMESPACE, SUBSYSTEM, "drive_health")| == 27;
    assert |BuildFQName(NAMESPACE, SUBSYSTEM, "drive_state")| == 26;
  }

  /** None of a drive's figures or codes shares a name with the two media-dependent samples. */
  lemma DriveOtherNames(d: Drive, systemId: string)
    ensures forall x :: x in DriveFigures(d, systemId) + DriveCodes(d, systemId) ==> x.name != ROTATION_NAME && x.name != LIFE_LEFT_NAME
  {
    DriveFiguresOtherNames(d, systemId);
    DriveCodesOtherNames(d, systemId);
  }

  /**
   * The media type decides the one media-dependent sample: HDD and SMR
   * drives report their rotation speed and never a life-left ratio, SSDs
   * report their life left as a ratio and never a rotation speed, other
   * media report neither.
   */
  lemma DriveMedia(d: Drive, systemId: string)
    ensures (exists x :: x in DriveSamples(d, systemId) && x.name == ROTATION_NAME) <==> d.mediaType == "HDD" || d.mediaType == "SMR"
    ensures (exists x :: x in DriveSamples(d, systemId) && x.name == LIFE_LEFT_NAME) <==> d.mediaType == "SSD"
    ensures forall x :: x in DriveSamples(d, systemId) && x.name == ROTATION_NAME ==> x.value == d.rotationSpeedRPM
    ensures forall x :: x in DriveSamples(d, systemId) && x.name == LIFE_LEFT_NAME ==> x.value == d.predictedMediaLifeLeftPercent / 100.0
  {
    var figures, media, codes := DriveFigures(d, systemId), DriveMediaSamples(d, systemId), DriveCodes(d, systemId);
    DriveOtherNames(d, systemId);
    assert DriveSamples(d, systemId) == figures + media + codes;
    assert forall x :: x in DriveSamples(d, systemId) <==> x in figures + codes || x in media;
    assert |ROTATION_NAME| != |LIFE_LEFT_NAME|;
  }

  /** The samples of a system's storage subsystems when every drive read succeeds: each storage, its controllers, its drives. */
  function StoragesSamples(xs: seq<Storage>, systemId: string): seq<Sample>
    requires forall i :: 0 <= i < |xs| ==> xs[i].drives.Success?
  {
    if xs == [] then []
    else
      var st := xs[|xs| - 1];
      StoragesSamples(xs[..|xs| - 1], systemId)
        + (StorageSamples(st, systemId) + ControllersSamples(st.storageControllers, systemId, st.id) + DrivesSamples(st.drives.value, systemId))
  }

  /** A storage whose drives were read sends its own samples, its controllers', then its drives', and does not fail. */
  lemma StorageTraceRead(st: Storage, systemId: string)
    requires st.drives.Success?
    ensures StorageTrace(st, systemId) == Emitted(
      StorageSamples(st, systemId) + ControllersSamples(st.storageControllers, systemId, st.id) + DrivesSamples(st.drives.value, systemId))
  {
  }

  lemma StorageTracesPrefix(xs: seq<Storage>, k: nat, systemId: string)
    requires k <= |xs|
    ensures StorageTraces(xs, systemId)[..k] == StorageTraces(xs[..k], systemId)
  {
  }

  lemma StoragesStep(xs: seq<Storage>, systemId: string)
    requires xs != [] && forall i :: 0 <= i < |xs| ==> xs[i].drives.Success?
    ensures StoragesSamples(xs, systemId) == StoragesSamples(xs[..|xs| - 1], systemId) + StorageTrace(xs[|xs| - 1], systemId).samples
  {
    StorageTraceRead(xs[|xs| - 1], systemId);
  }

  lemma AllStorageStep(xs: seq<Storage>, systemId: string)
    requires xs != [] && forall i :: 0 <= i < |xs| ==> xs[i].drives.Success?
    requires AllSamples(StorageTraces(xs[..|xs| - 1], systemId)) == StoragesSamples(xs[..|xs| - 1], systemId)
    ensures AllSamples(StorageTraces(xs, systemId)) == StoragesSamples(xs, systemId)
  {
    StorageTracesPrefix(xs, |xs| - 1, systemId);
    StoragesStep(xs, systemId);
  }

  lemma {:induction false} AllStorageSamples(xs: seq<Storage>, systemId: string)
    requires forall i :: 0 <= i < |xs| ==> xs[i].drives.Success?
    ensures AllSamples(StorageTraces(xs, systemId)) == StoragesSamples(xs, systemId)
  {
    if xs != [] {
      AllStorageSamples(xs[..|xs| - 1], systemId);
      AllStorageStep(xs, systemId);
    }
  }

  /** Whether every read below a system succeeds. */
  predicate AllReadsSucceed(s: ComputerSystem)
  {
    && s.ethernetInterfaces.Success? && s.memory.Success? && s.networkInterfaces.Success?
    && s.pcieDevices.Success? && s.processors.Success? && s.storage.Success?
    && forall i :: 0 <= i < |s.storage.value| ==> s.storage.value[i].drives.Success?
  }

  /**
   * When every read succeeds, a system sends, in order: its own samples,
   * ethernet interfaces, memory, network interfaces, the first-by-id PCIe
   * devices, processors, then each storage with its controllers and drives.
   */
  lemma SystemOrder(s: ComputerSystem, macLabel: string -> string)
    requires AllReadsSucceed(s)
    ensures SystemTrace(s, macLabel) == Emitted(SystemSamples(s)
      + EthernetsSamples(s.ethernetInterfaces.value, s.id, macLabel)
      + MemoriesSamples(s.memory.value, s.id)
      + NetworkInterfacesSamples(s.networkInterfaces.value, s.id)
      + PCIeDevicesSamples(FirstById(s.pcieDevices.value), s.id)
      + ProcessorsSamples(s.processors.value, s.id)
      + StoragesSamples(s.storage.value, s.id))
  {
    var ts := StorageTraces(s.storage.value, s.id);
    ThenAllSucceeds(ts);
    AllStorageSamples(s.storage.value, s.id);
  }

  /**
   * A failed read of the system list returns its error and sends nothing; a
   * failed ethernet interface read ends a system's walk right after the
   * system's own samples, naming the system.
   */
  lemma SystemReadFailures(client: Service, s: ComputerSystem, macLabel: string -> string)
    ensures client.systems.Failure? ==>
      SystemCollect(client, macLabel) == Trace([], Some(ErrorCollecting("/Systems", client.systems.error)))
    ensures s.ethernetInterfaces.Failure? ==>
      SystemTrace(s, macLabel) == Trace(SystemSamples(s), Some(ErrorCollecting("/Systems/" + s.id + "/EthernetInterfaces", s.ethernetInterfaces.error)))
  {
    if s.ethernetInterfaces.Failure? {
      var failed := Trace(SystemSamples(s), Some(ErrorCollecting(SystemPath(s.id) + "/EthernetInterfaces", s.ethernetInterfaces.error)));
      assert SystemSamples(s) + [] == SystemSamples(s);
      assert Emitted(SystemSamples(s)).Then(EthernetPart(s, macLabel)) == failed;
      assert SystemTrace(s, macLabel) == failed.Then(MemoryPart(s)).Then(NetworkInterfacesPart(s))
        .Then(PCIePart(s)).Then(ProcessorsPart(s)).Then(StoragePart(s));
    }
  }

  /**
   * A failed read of the memory, network interface or PCIe device list ends
   * a system's walk with an error naming the system and the list; everything
   * gathered before it is kept and nothing after it is read.
   */
  lemma SystemListFailures(s: ComputerSystem, macLabel: string -> string)
    ensures s.ethernetInterfaces.Success? && s.memory.Failure? ==>
      SystemTrace(s, macLabel) == Trace(SystemSamples(s) + EthernetsSamples(s.ethernetInterfaces.value, s.id, macLabel),
        Some(ErrorCollecting("/Systems/" + s.id + "/Memory", s.memory.error)))
    ensures s.ethernetInterfaces.Success? && s.memory.Success? && s.networkInterfaces.Failure? ==>
      SystemTrace(s, macLabel) == Trace(SystemSamples(s) + EthernetsSamples(s.ethernetInterfaces.value, s.id, macLabel)
          + MemoriesSamples(s.memory.value, s.id),
        Some(ErrorCollecting("/Systems/" + s.id + "/NetworkInterfaces", s.networkInterfaces.error)))
    ensures s.ethernetInterfaces.Success? && s.memory.Success? && s.networkInterfaces.Success? && s.pcieDevices.Failure? ==>
      SystemTrace(s, macLabel) == Trace(SystemSamples(s) + EthernetsSamples(s.ethernetInterfaces.value, s.id, macLabel)
          + MemoriesSamples(s.memory.value, s.id) + NetworkInterfacesSamples(s.networkInterfaces.value, s.id),
        Some(ErrorCollecting("/Systems/" + s.id + "/PCIeDevices", s.pcieDevices.error)))
  {
    var t1 := Emitted(SystemSamples(s)).Then(EthernetPart(s, macLabel));
    var t2 := t1.Then(MemoryPart(s));
    var t3 := t2.Then(NetworkInterfacesPart(s));
    var t4 := t3.Then(PCIePart(s));
    if s.ethernetInterfaces.Success? && s.memory.Failure? {
      assert t2.samples == t1.samples + [];
      assert SystemTrace(s, macLabel) == t2.Then(NetworkInterfacesPart(s)).Then(PCIePart(s)).Then(ProcessorsPart(s)).Then(StoragePart(s));
    } else if s.ethernetInterfaces.Success? && s.memory.Success? && s.networkInterfaces.Failure? {
      assert t3.samples == t2.samples + [];
      assert SystemTrace(s, macLabel) == t3.Then(PCIePart(s)).Then(ProcessorsPart(s)).Then(StoragePart(s));
    } else if s.ethernetInterfaces.Success? && s.memory.Success? && s.networkInterfaces.Success? && s.pcieDevices.Failure? {
      assert t4.samples == t3.samples + [];
      assert SystemTrace(s, macLabel) == t4.Then(ProcessorsPart(s)).Then(StoragePart(s));
    }
  }

  /**
   * A failed read of the processor or storage list ends a system's walk the
   * same way, after everything the earlier lists gave.
   */
  lemma SystemLateListFailures(s: ComputerSystem, macLabel: string -> string)
    requires s.ethernetInterfaces.Success? && s.memory.Success? && s.networkInterfaces.Success? && s.pcieDevices.Success?
    ensures var before := SystemSamples(s) + EthernetsSamples(s.ethernetInterfaces.value, s.id, macLabel)
          + MemoriesSamples(s.memory.value, s.id) + NetworkInterfacesSamples(s.networkInterfaces.value, s.id)
          + PCIeDevicesSamples(FirstById(s.pcieDevices.value), s.id);
      && (s.processors.Failure? ==>
            SystemTrace(s, macLabel) == Trace(before, Some(ErrorCollecting("/Systems/" + s.id + "/Processors", s.processors.error))))
      && (s.processors.Success? && s.storage.Failure? ==>
            SystemTrace(s, macLabel) == Trace(before + ProcessorsSamples(s.processors.value, s.id),
              Some(ErrorCollecting("/Systems/" + s.id + "/Storage", s.storage.error))))
  {
    var t4 := Emitted(SystemSamples(s)).Then(EthernetPart(s, macLabel)).Then(MemoryPart(s)).Then(NetworkInterfacesPart(s)).Then(PCIePart(s));
    var t5 := t4.Then(ProcessorsPart(s));
    assert SystemTrace(s, macLabel) == t5.Then(StoragePart(s));
    if s.processors.Failure? {
      assert t5.samples == t4.samples + [];
    } else if s.storage.Failure? {
      assert t5.samples + [] == t5.samples;
    }
  }

  /** A failed drive read ends a storage's trace after its own and its controllers' samples. */
  lemma StorageDrivesFailure(st: Storage, systemId: string)
    requires st.drives.Failure?
    ensures StorageTrace(st, systemId) == Trace(
      StorageSamples(st, systemId) + ControllersSamples(st.storageControllers, systemId, st.id),
      Some(ErrorCollecting("/Systems/" + systemId + "/Storage/" + st.id + "/Drives", st.drives.error)))
  {
    var own := StorageSamples(st, systemId) + ControllersSamples(st.storageControllers, systemId, st.id);
    assert own + [] == own;
  }

  /**
   * A failed drive read aborts the storage walk with an error naming the
   * system and the storage; the storage's own and its controllers' samples
   * are kept, and so are those of the storages before it.
   */
  lemma DrivesFailure(s: ComputerSystem, i: nat)
    requires s.storage.Success? && i < |s.storage.value|
    requires forall j :: 0 <= j < i ==> s.storage.value[j].drives.Success?
    requires s.storage.value[i].drives.Failure?
    ensures var st := s.storage.value[i];
      StoragePart(s) == Trace(
        StoragesSamples(s.storage.value[..i], s.id) + (StorageSamples(st, s.id) + ControllersSamples(st.storageControllers, s.id, st.id)),
        Some(ErrorCollecting("/Systems/" + s.id + "/Storage/" + st.id + "/Drives", st.drives.error)))
  {
    var xs := s.storage.value;
    var ts := StorageTraces(xs, s.id);
    assert StoragePart(s) == ThenAll(ts);
    StorageDrivesFailure(xs[i], s.id);
    forall j | 0 <= j < i
      ensures ts[j].err.None?
    {
      StorageTraceRead(xs[j], s.id);
    }
    ThenAllFirstFailure(ts, i);
    StorageTracesPrefix(xs, i, s.id);
    AllStorageSamples(xs[..i], s.id);
  }

  /**
   * The system walk stops at the first system whose walk fails: its error
   * is returned and the systems before it keep their samples.
   */
  lemma SystemFirstFailure(client: Service, macLabel: string -> string, i: nat)
    requires client.systems.Success? && i < |client.systems.value|
    requires forall j :: 0 <= j < i ==> SystemTrace(client.systems.value[j], macLabel).err.None?
    requires SystemTrace(client.systems.value[i], macLabel).err.Some?
    ensures SystemCollect(client, macLabel).err == SystemTrace(client.systems.value[i], macLabel).err
    ensures SystemCollect(client, macLabel).samples ==
      AllSamples(SystemTraces(client.systems.value, macLabel)[..i]) + SystemTrace(client.systems.value[i], macLabel).samples
  {
    ThenAllFirstFailure(SystemTraces(client.systems.value, macLabel), i);
  }

  // ---- The collector ----

  class SystemCollector {
    const client: Service
    /** The address normaliser the interface labels go through. */
    const macLabel: string -> string

    constructor (client: Service, macLabel: string -> string)
      ensures this.client == client && this.macLabel == macLabel
    {
      this.client := client;
      this.macLabel := macLabel;
    }

    method Collect(sink: Sink) returns (err: Option<string>)
      modifies sink
      ensures sink.samples == old(sink.samples) + SystemCollect(client, macLabel).samples
      ensures err == SystemCollect(client, macLabel).err
    {
      match client.systems {
        case Failure(e) =>
          err := Some(ErrorCollecting("/Systems", e));
        case Success(systems) =>
          ghost var ts := SystemTraces(systems, macLabel);
          var i := 0;
          while i < |systems|
            invariant 0 <= i <= |systems|
            invariant ThenAll(ts[..i]).err.None?
            invariant sink.samples == old(sink.samples) + ThenAll(ts[..i]).samples
          {
            err := CollectSystem(sink, systems[i]);
            ThenAllStep(ts, i);
            AppendAssoc(old(sink.samples), ThenAll(ts[..i]).samples, ts[i].samples);
            if err.Some? {
              ThenAllAbsorbs(ts, i + 1);
              return;
            }
            i := i + 1;
          }
          assert ts[..|systems|] == ts;
          err := None;
      }
    }

    /** The body of the system loop. */
    method CollectSystem(sink: Sink, system: ComputerSystem) returns (err: Option<string>)
      modifies sink
      ensures sink.samples == old(sink.samples) + SystemTrace(system, macLabel).samples
      ensures err == SystemTrace(system, macLabel).err
    {
      ghost var t0 := Emitted(SystemSamples(system));
      ghost var t1 := t0.Then(EthernetPart(system, macLabel));
      ghost var t2 := t1.Then(MemoryPart(system));
      ghost var t3 := t2.Then(NetworkInterfacesPart(system));
      ghost var t4 := t3.Then(PCIePart(system));
      ghost var t5 := t4.Then(ProcessorsPart(system));
      ProcessSystem(sink, system);
      err := CollectEthernetInterfaces(sink, system);
      AppendAssoc(old(sink.samples), t0.samples, EthernetPart(system, macLabel).samples);
      if err.Some? {
        return;
      }
      err := CollectMemory(sink, system);
      AppendAssoc(old(sink.samples), t1.samples, MemoryPart(system).samples);
      if err.Some? {
        return;
      }
      err := CollectNetworkInterfaces(sink, system);
      AppendAssoc(old(sink.samples), t2.samples, NetworkInterfacesPart(system).samples);
      if err.Some? {
        return;
      }
      err := CollectPCIeDevices(sink, system);
      AppendAssoc(old(sink.samples), t3.samples, PCIePart(system).samples);
      if err.Some? {
        return;
      }
      err := CollectProcessors(sink, system);
      AppendAssoc(old(sink.samples), t4.samples, ProcessorsPart(system).samples);
      if err.Some? {
        return;
      }
      err := CollectStorage(sink, system);
      AppendAssoc(old(sink.samples), t5.samples, StoragePart(system).samples);
    }

    method CollectEthernetInterfaces(sink: Sink, system: ComputerSystem) returns (err: Option<string>)
      modifies sink
      ensures sink.samples == old(sink.samples) + EthernetPart(system, macLabel).samples
      ensures err == EthernetPart(system, macLabel).err
    {
      match system.ethernetInterfaces {
        case Failure(e) =>
          err := Some(ErrorCollecting(SystemPath(system.id) + "/EthernetInterfaces", e));
        case Success(xs) =>
          ProcessEthernetInterfaces(sink, xs, system.id);
          err := None;
      }
    }

    method CollectMemory(sink: Sink, system: ComputerSystem) returns (err: Option<string>)
      modifies sink
      ensures sink.samples == old(sink.samples) + MemoryPart(system).samples
      ensures err == MemoryPart(system).err
    {
      match system.memory {
        case Failure(e) =>
          err := Some(ErrorCollecting(SystemPath(system.id) + "/Memory", e));
        case Success(xs) =>
          ProcessMemories(sink, xs, system.id);
          err := None;
      }
    }

    method CollectNetworkInterfaces(sink: Sink, system: ComputerSystem) returns (err: Option<string>)
      modifies sink
      ensures sink.samples == old(sink.samples) + NetworkInterfacesPart(system).samples
      ensures err == NetworkInterfacesPart(system).err
    {
      match system.networkInterfaces {
        case Failure(e) =>
          err := Some(ErrorCollecting(SystemPath(system.id) + "/NetworkInterfaces", e));
        case Success(xs) =>
          ProcessNetworkInterfaces(sink, xs, system.id);
          err := None;
      }
    }

    method CollectPCIeDevices(sink: Sink, system: ComputerSystem) returns (err: Option<string>)
      modifies sink
      ensures sink.samples == old(sink.samples) + PCIePart(system).samples
      ensures err == PCIePart(system).err
    {
      match system.pcieDevices {
        case Failure(e) =>
          err := Some(ErrorCollecting(SystemPath(system.id) + "/PCIeDevices", e));
        case Success(xs) =>
          ProcessPCIeDevices(sink, xs, system.id);
          err := None;
      }
    }

    method CollectProcessors(sink: Sink, system: ComputerSystem) returns (err: Option<string>)
      modifies sink
      ensures sink.samples == old(sink.samples) + ProcessorsPart(system).samples
      ensures err == ProcessorsPart(system).err
    {
      match system.processors {
        case Failure(e) =>
          err := Some(ErrorCollecting(SystemPath(system.id) + "/Processors", e));
        case Success(xs) =>
          ProcessProcessors(sink, xs, system.id);
          err := None;
      }
    }

    /** The storage loop: each storage subsystem, its controllers, then its drives; a failed drive read aborts. */
    method CollectStorage(sink: Sink, system: ComputerSystem) returns (err: Option<string>)
      modifies sink
      ensures sink.samples == old(sink.samples) + StoragePart(system).samples
      ensures err == StoragePart(system).err
    {
      match system.storage {
        case Failure(e) =>
          err := Some(ErrorCollecting(SystemPath(system.id) + "/Storage", e));
        case Success(storages) =>
          ghost var ts := StorageTraces(storages, system.id);
          var i := 0;
          while i < |storages|
            invariant 0 <= i <= |storages|
            invariant ThenAll(ts[..i]).err.None?
            invariant sink.samples == old(sink.samples) + ThenAll(ts[..i]).samples
          {
            err := CollectStorageSubsystem(sink, storages[i], system.id);
            ThenAllStep(ts, i);
            AppendAssoc(old(sink.samples), ThenAll(ts[..i]).samples, ts[i].samples);
            if err.Some? {
              ThenAllAbsorbs(ts, i + 1);
              return;
            }
            i := i + 1;
          }
          assert ts[..|storages|] == ts;
          err := None;
      }
    }

    method CollectStorageSubsystem(sink: Sink, storage: Storage, systemId: string) returns (err: Option<string>)
      modifies sink
      ensures sink.samples == old(sink.samples) + StorageTrace(storage, systemId).samples
      ensures err == StorageTrace(storage, systemId).err
    {
      ghost var head := StorageSamples(storage, systemId);
      ghost var controllers := ControllersSamples(storage.storageControllers, systemId, storage.id);
      ProcessStorage(sink, storage, systemId);
      ProcessStorageControllers(sink, storage.storageControllers, systemId, storage.id);
      AppendAssoc(old(sink.samples), head, controllers);
      match storage.drives {
        case Failure(e) =>
          assert head + controllers + [] == head + controllers;
          err := Some(ErrorCollecting(SystemPath(systemId) + "/Storage/" + storage.id + "/Drives", e));
        case Success(drives) =>
          ProcessDrives(sink, drives, systemId);
          AppendAssoc(old(sink.samples), head + controllers, DrivesSamples(drives, systemId));
          err := None;
      }
    }

    method ProcessSystem(sink: Sink, system: ComputerSystem)
      modifies sink
      ensures sink.samples == old(sink.samples) + SystemSamples(system)
    {
      var labels := SystemLabels(system);
      var powerState := EnumPowerState(system.powerState);
      sink.SendCode(powerState, SUBSYSTEM, "power_state", SYSTEM_POWER_HELP, labels);
      EmitStatus(sink, SUBSYSTEM, "", "System", labels, system.status);
    }

    method ProcessEthernetInterface(sink: Sink, intf: EthernetInterface, systemId: string)
      modifies sink
      ensures sink.samples == old(sink.samples) + EthernetSamples(intf, systemId, macLabel)
    {
      var labels := EthernetLabels(intf, systemId, macLabel);
      var speedLabels := labels["duplex" := Duplex(intf.fullDuplex)];
      var linkStatus := EnumInterfaceLinkStatus(intf.linkStatus);
      var enabled := Gauge(SUBSYSTEM, "ethernet_interface_status", ETHERNET_ENABLED_HELP, labels, Btof(intf.interfaceEnabled));
      var speed := Gauge(SUBSYSTEM, "ethernet_interface_speed_bytes", ETHERNET_SPEED_HELP, speedLabels, EthernetSpeed(intf));
      sink.Send(enabled);
      sink.Send(speed);
      SentTwo(old(sink.samples), enabled, speed);
      ghost var figures := [enabled, speed];
      ghost var link := CodeSample(linkStatus, SUBSYSTEM, "ethernet_interface_link_status", ETHERNET_LINK_HELP, labels);
      ghost var status := StatusSamples(SUBSYSTEM, "ethernet_interface_", "Ethernet interface", labels, intf.status);
      sink.SendCode(linkStatus, SUBSYSTEM, "ethernet_interface_link_status", ETHERNET_LINK_HELP, labels);
      EmitStatus(sink, SUBSYSTEM, "ethernet_interface_", "Ethernet interface", labels, intf.status);
      AppendAssoc(old(sink.samples), figures, link);
      AppendAssoc(old(sink.samples), figures + link, status);
      assert EthernetSamples(intf, systemId, macLabel) == figures + link + status;
    }

    method ProcessMemory(sink: Sink, memory: Memory, systemId: string)
      modifies sink
      ensures sink.samples == old(sink.samples) + MemorySamples(memory, systemId)
    {
      var labels := MemoryLabels(memory, systemId);
      var cache := Gauge(SUBSYSTEM, "memory_cache_size_bytes", "Memory cache size, bytes", labels, MiBBytes(memory.cacheSizeMiB));
      var capacity := Gauge(SUBSYSTEM, "memory_capacity_bytes", "Memory capacity, bytes", labels, MiBBytes(memory.capacityMiB));
      var nonVolatile := Gauge(SUBSYSTEM, "memory_non_volatile_size_desc", "Memory non-volatile size, bytes", labels, MiBBytes(memory.nonVolatileSizeMiB));
      var speed := Gauge(SUBSYSTEM, "memory_operating_speed_hertz", "Memory operating speed, Hz", labels, memory.operatingSpeedMhz * MEGA);
      var volatile := Gauge(SUBSYSTEM, "memory_volatile_size_desc", "Memory volatile size, bytes", labels, MiBBytes(memory.volatileSizeMiB));
      sink.Send(cache);
      sink.Send(capacity);
      sink.Send(nonVolatile);
      sink.Send(speed);
      sink.Send(volatile);
      SentFive(old(sink.samples), cache, capacity, nonVolatile, speed, volatile);
      ghost var figures := [cache, capacity, nonVolatile, speed, volatile];
      ghost var status := StatusSamples(SUBSYSTEM, "memory_", "Memory", labels, memory.status);
      EmitStatus(sink, SUBSYSTEM, "memory_", "Memory", labels, memory.status);
      AppendAssoc(old(sink.samples), figures, status);
      assert MemorySamples(memory, systemId) == figures + status;
    }

    method ProcessNetworkInterface(sink: Sink, intf: NetworkInterface, systemId: string)
      modifies sink
      ensures sink.samples == old(sink.samples) + NetworkInterfaceSamples(intf, systemId)
    {
      var labels := NetworkInterfaceLabels(intf, systemId);
      EmitStatus(sink, SUBSYSTEM, "network_interface_", "Network interface", labels, intf.status);
    }

    method ProcessPCIeDevice(sink: Sink, device: PCIeDevice, systemId: string)
      modifies sink
      ensures sink.samples == old(sink.samples) + PCIeSamples(device, systemId)
    {
      var labels := PCIeLabels(device, systemId);
      EmitStatus(sink, SUBSYSTEM, "pcie_device_", "PCIe device", labels, device.status);
    }

    method ProcessProcessor(sink: Sink, processor: Processor, systemId: string)
      modifies sink
      ensures sink.samples == old(sink.samples) + ProcessorSamples(processor, systemId)
    {
      var labels := ProcessorLabels(processor, systemId);
      SendProcessorFigures(sink, processor, systemId);
      EmitStatus(sink, SUBSYSTEM, "processor_", "Processor", labels, processor.status);
      AppendAssoc(old(sink.samples), ProcessorFigures(processor, systemId), StatusSamples(SUBSYSTEM, "processor_", "Processor", labels, processor.status));
    }

    /** The head of the processor's sends: its six figures. */
    method SendProcessorFigures(sink: Sink, processor: Processor, systemId: string)
      modifies sink
      ensures sink.samples == old(sink.samples) + ProcessorFigures(processor, systemId)
    {
      var labels := ProcessorLabels(processor, systemId);
      var speed := Gauge(SUBSYSTEM, "processor_speed_max_hertz", "Maximum processor speed, Hz", labels, processor.maxSpeedMHz * MEGA);
      var maxTdp := Gauge(SUBSYSTEM, "processor_tdp_max_watts", "Maximum processor TDP, W", labels, processor.maxTDPWatts);
      var tdp := Gauge(SUBSYSTEM, "processor_tdp_current_wats", "Current processor TDP, W", labels, processor.tdpWatts);
      var cores := Gauge(SUBSYSTEM, "processor_cores", "Total processor cores", labels, processor.totalCores);
      var enabled := Gauge(SUBSYSTEM, "processor_cores_enabled", "Enabled processor cores", labels, processor.totalEnabledCores);
      var threads := Gauge(SUBSYSTEM, "processor_threads", "Processor threads", labels, processor.totalThreads);
      sink.Send(speed);
      sink.Send(maxTdp);
      sink.Send(tdp);
      sink.Send(cores);
      sink.Send(enabled);
      sink.Send(threads);
      SentSix(old(sink.samples), speed, maxTdp, tdp, cores, enabled, threads);
      assert sink.samples == old(sink.samples) + [speed, maxTdp, tdp, cores, enabled, threads];
      assert [speed, maxTdp, tdp, cores, enabled, threads] == ProcessorFigures(processor, systemId);
    }

    method ProcessStorage(sink: Sink, storage: Storage, systemId: string)
      modifies sink
      ensures sink.samples == old(sink.samples) + StorageSamples(storage, systemId)
    {
      var labels := StorageLabels(storage, systemId);
      EmitStatus(sink, SUBSYSTEM, "storage_", "Storage", labels, storage.status);
    }

    method ProcessStorageController(sink: Sink, controller: StorageController, systemId: string, storageId: string)
      modifies sink
      ensures sink.samples == old(sink.samples) + ControllerSamples(controller, systemId, storageId)
    {
      var labels := ControllerLabels(controller, systemId, storageId);
      var speed := Gauge(SUBSYSTEM, "storage_controller_speed_bytes", "Storage controller speed, bytes/s", labels, GbpsBytes(controller.speedGbps));
      var persistent := Gauge(SUBSYSTEM, "storage_controller_cache_size_persistent_bytes", "Persistent cache size, bytes", labels,
                              MiBBytes(controller.cacheSummary.persistentCacheSizeMiB));
      var total := Gauge(SUBSYSTEM, "storage_controller_cache_size_bytes", "Total cache size, bytes", labels, MiBBytes(controller.cacheSummary.totalCacheSizeMiB));
      sink.Send(speed);
      sink.Send(persistent);
      sink.Send(total);
      ghost var figures := [speed, persistent, total];
      SentThree(old(sink.samples), speed, persistent, total);
      ghost var cache := StatusSamples(SUBSYSTEM, "storage_controller_", "Storage controller cache", labels, controller.cacheSummary.status);
      ghost var own := StatusSamples(SUBSYSTEM, "storage_controller_", "Storage controller", labels, controller.status);
      EmitStatus(sink, SUBSYSTEM, "storage_controller_", "Storage controller cache", labels, controller.cacheSummary.status);
      EmitStatus(sink, SUBSYSTEM, "storage_controller_", "Storage controller", labels, controller.status);
      AppendAssoc(old(sink.samples), figures, cache);
      AppendAssoc(old(sink.samples), figures + cache, own);
      assert ControllerGauges(controller, systemId, storageId) == figures;
    }

    method ProcessDrive(sink: Sink, drive: Drive, systemId: string)
      modifies sink
      ensures sink.samples == old(sink.samples) + DriveSamples(drive, systemId)
    {
      var labels := DriveLabels(drive, systemId);
      sink.Send(Gauge(SUBSYSTEM, "drive_speed_capable_bytes", "Fastest capable drive speed, bytes/s", labels, GbpsBytes(drive.capableSpeedGbs)));
      sink.Send(Gauge(SUBSYSTEM, "drive_capacity_bytes", "Drive raw capacity, bytes", labels, drive.capacityBytes));
      sink.Send(Gauge(SUBSYSTEM, "drive_predicted_failure", "Drive failure predicted; 0: NoFailure, 1: Failure", labels, Btof(drive.failurePredicted)));
      sink.Send(Gauge(SUBSYSTEM, "drive_speed_negotiated_bytes", "Actual drive speed, bytes/s", labels, GbpsBytes(drive.negotiatedSpeedGbs)));
      sink.Send(Gauge(SUBSYSTEM, "drive_write_cache_status", "Drive write cache status; 0: Disabled, 1: Enabled", labels, Btof(drive.writeCacheEnabled)));
      ghost var figures := sink.samples;
      assert figures == old(sink.samples) + DriveFigures(drive, systemId);
      if drive.mediaType == "HDD" || drive.mediaType == "SMR" {
        sink.Send(Gauge(SUBSYSTEM, DRIVE_ROTATION_METRIC, "Drive rotation speed, RPM", labels, drive.rotationSpeedRPM));
      } else if drive.mediaType == "SSD" {
        sink.Send(Gauge(SUBSYSTEM, DRIVE_LIFE_LEFT_METRIC, "Drive media life left, %", labels, drive.predictedMediaLifeLeftPercent / 100.0));
      }
      assert sink.samples == figures + DriveMediaSamples(drive, systemId);
      ProcessDriveCodes(sink, drive, systemId);
      AppendAssoc(old(sink.samples), DriveFigures(drive, systemId), DriveMediaSamples(drive, systemId));
      AppendAssoc(old(sink.samples), DriveFigures(drive, systemId) + DriveMediaSamples(drive, systemId), DriveCodes(drive, systemId));
    }

    /** The tail of the drive's sends: encryption, hotspare, status indicator, health and state. */
    method ProcessDriveCodes(sink: Sink, drive: Drive, systemId: string)
      modifies sink
      ensures sink.samples == old(sink.samples) + DriveCodes(drive, systemId)
    {
      var labels := DriveLabels(drive, systemId);
      var encryptionLabels := labels["encryption_ability" := drive.encryptionAbility];
      var hotspareLabels := labels["hotspare_replacement_mode" := drive.hotspareReplacementMode];
      var encryption := EnumEncryptionStatus(drive.encryptionStatus);
      var hotspare := EnumHotspareType(drive.hotspareType);
      var indicator := EnumDriveStatusIndicator(drive.statusIndicator);
      var encryptionHelp, hotspareHelp, statusHelp := ENCRYPTION_HELP, HOTSPARE_HELP, DRIVE_STATUS_HELP;
      ghost var s0 := sink.samples;
      sink.SendCode(encryption, SUBSYSTEM, "drive_encryption_status", encryptionHelp, encryptionLabels);
      ghost var c1 := CodeSample(encryption, SUBSYSTEM, "drive_encryption_status", encryptionHelp, encryptionLabels);
      sink.SendCode(hotspare, SUBSYSTEM, "drive_hotspare_type", hotspareHelp, hotspareLabels);
      ghost var c2 := CodeSample(hotspare, SUBSYSTEM, "drive_hotspare_type", hotspareHelp, hotspareLabels);
      sink.SendCode(indicator, SUBSYSTEM, "drive_status", statusHelp, labels);
      ghost var c3 := CodeSample(indicator, SUBSYSTEM, "drive_status", statusHelp, labels);
      EmitStatus(sink, SUBSYSTEM, "drive_", "", labels, drive.status);
      ghost var c4 := StatusSamples(SUBSYSTEM, "drive_", "", labels, drive.status);
      AppendAssoc(s0, c1, c2);
      AppendAssoc(s0, c1 + c2, c3);
      AppendAssoc(s0, c1 + c2 + c3, c4);
    }

    // ---- The inner `for` loops ----

    method ProcessEthernetInterfaces(sink: Sink, xs: seq<EthernetInterface>, systemId: string)
      modifies sink
      ensures sink.samples == old(sink.samples) + EthernetsSamples(xs, systemId, macLabel)
    {
      var i := 0;
      while i < |xs|
        invariant 0 <= i <= |xs|
        invariant sink.samples == old(sink.samples) + EthernetsSamples(xs[..i], systemId, macLabel)
      {
        ProcessEthernetInterface(sink, xs[i], systemId);
        EthernetsStep(xs, i, systemId, macLabel);
        AppendAssoc(old(sink.samples), EthernetsSamples(xs[..i], systemId, macLabel), EthernetSamples(xs[i], systemId, macLabel));
        i := i + 1;
      }
      assert xs[..|xs|] == xs;
    }

    method ProcessMemories(sink: Sink, xs: seq<Memory>, systemId: string)
      modifies sink
      ensures sink.samples == old(sink.samples) + MemoriesSamples(xs, systemId)
    {
      var i := 0;
      while i < |xs|
        invariant 0 <= i <= |xs|
        invariant sink.samples == old(sink.samples) + MemoriesSamples(xs[..i], systemId)
      {
        ProcessMemory(sink, xs[i], systemId);
        MemoriesStep(xs, i, systemId);
        AppendAssoc(old(sink.samples), MemoriesSamples(xs[..i], systemId), MemorySamples(xs[i], systemId));
        i := i + 1;
      }
      assert xs[..|xs|] == xs;
    }

    method ProcessNetworkInterfaces(sink: Sink, xs: seq<NetworkInterface>, systemId: string)
      modifies sink
      ensures sink.samples == old(sink.samples) + NetworkInterfacesSamples(xs, systemId)
    {
      var i := 0;
      while i < |xs|
        invariant 0 <= i <= |xs|
        invariant sink.samples == old(sink.samples) + NetworkInterfacesSamples(xs[..i], systemId)
      {
        ProcessNetworkInterface(sink, xs[i], systemId);
        NetworkInterfacesStep(xs, i, systemId);
        AppendAssoc(old(sink.samples), NetworkInterfacesSamples(xs[..i], systemId), NetworkInterfaceSamples(xs[i], systemId));
        i := i + 1;
      }
      assert xs[..|xs|] == xs;
    }

    /** A device whose id was already seen in this system is skipped; the seen-set starts empty for every system. */
    method ProcessPCIeDevices(sink: Sink, xs: seq<PCIeDevice>, systemId: string)
      modifies sink
      ensures sink.samples == old(sink.samples) + PCIeDevicesSamples(FirstById(xs), systemId)
    {
      var devices: map<string, bool> := map[];
      var i := 0;
      while i < |xs|
        invariant 0 <= i <= |xs|
        invariant devices.Keys == DeviceIds(xs[..i])
        invariant sink.samples == old(sink.samples) + PCIeDevicesSamples(FirstById(xs[..i]), systemId)
      {
        var device := xs[i];
        var seen := device.id in devices;
        ghost var before, seenIds := sink.samples, devices.Keys;
        if !seen {
          ProcessPCIeDevice(sink, device, systemId);
          devices := devices[device.id := true];
        }
        PCIeAdvance(old(sink.samples), before, sink.samples, seenIds, devices.Keys, xs, i, systemId);
        i := i + 1;
      }
      assert xs[..|xs|] == xs;
    }

    method ProcessProcessors(sink: Sink, xs: seq<Processor>, systemId: string)
      modifies sink
      ensures sink.samples == old(sink.samples) + ProcessorsSamples(xs, systemId)
    {
      var i := 0;
      while i < |xs|
        invariant 0 <= i <= |xs|
        invariant sink.samples == old(sink.samples) + ProcessorsSamples(xs[..i], systemId)
      {
        ProcessProcessor(sink, xs[i], systemId);
        ProcessorsStep(xs, i, systemId);
        AppendAssoc(old(sink.samples), ProcessorsSamples(xs[..i], systemId), ProcessorSamples(xs[i], systemId));
        i := i + 1;
      }
      assert xs[..|xs|] == xs;
    }

    method ProcessStorageControllers(sink: Sink, xs: seq<StorageController>, systemId: string, storageId: string)
      modifies sink
      ensures sink.samples == old(sink.samples) + ControllersSamples(xs, systemId, storageId)
    {
      var i := 0;
      while i < |xs|
        invariant 0 <= i <= |xs|
        invariant sink.samples == old(sink.samples) + ControllersSamples(xs[..i], systemId, storageId)
      {
        ProcessStorageController(sink, xs[i], systemId, storageId);
        ControllersStep(xs, i, systemId, storageId);
        AppendAssoc(old(sink.samples), ControllersSamples(xs[..i], systemId, storageId), ControllerSamples(xs[i], systemId, storageId));
        i := i + 1;
      }
      assert xs[..|xs|] == xs;
    }

    method ProcessDrives(sink: Sink, xs: seq<Drive>, systemId: string)
      modifies sink
      ensures sink.samples == old(sink.samples) + DrivesSamples(xs, systemId)
    {
      var i := 0;
      while i < |xs|
        invariant 0 <= i <= |xs|
        invariant sink.samples == old(sink.samples) + DrivesSamples(xs[..i], systemId)
      {
        ProcessDrive(sink, xs[i], systemId);
        DrivesStep(xs, i, systemId);
        AppendAssoc(old(sink.samples), DrivesSamples(xs[..i], systemId), DriveSamples(xs[i], systemId));
        i := i + 1;
      }
      assert xs[..|xs|] == xs;
    }
  }
}
