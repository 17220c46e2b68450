/**
 * The remote Redfish resource tree as the collectors see it. Every read that
 * can fail over the network is pre-resolved into a `Result` whose failure
 * carries the client's error message; a read that may legitimately return
 * nothing (the Thermal and Power blocks of a chassis) yields an `Option`.
 * Enumerated Redfish properties are their schema strings, numeric
 * properties their exact values.
 */
module Redfish {
  import opened Wrappers

  type Read<T> = Result<T, string>

  /** The status block common to all resources. */
  datatype Status = Status(health: string, state: string)

  // ---- Chassis subtree ----

  datatype PhysicalSecurity = PhysicalSecurity(
    intrusionSensor: string,
    intrusionSensorNumber: int,
    intrusionSensorReArm: string)

  datatype Fan = Fan(
    memberId: string, name: string, sensorNumber: int, physicalContext: string,
    readingUnits: string, reading: real, status: Status)

  datatype Temperature = Temperature(
    memberId: string, name: string, sensorNumber: int, physicalContext: string,
    readingCelsius: real, status: Status)

  datatype Thermal = Thermal(
    id: string, name: string, status: Status,
    fans: seq<Fan>, temperatures: seq<Temperature>)

  datatype PowerLimit = PowerLimit(limitInWatts: real, correctionInMs: int, limitException: string)

  datatype PowerControl = PowerControl(
    memberId: string, name: string,
    powerAllocatedWatts: real, powerCapacityWatts: real, powerConsumedWatts: real,
    powerLimit: PowerLimit, powerRequestedWatts: real, status: Status)

  datatype PowerSupply = PowerSupply(
    memberId: string, name: string, powerSupplyType: string,
    efficiencyPercent: real, lineInputVoltage: real, lineInputVoltageType: string,
    powerCapacityWatts: real, powerInputWatts: real, powerOutputWatts: real, status: Status)

  datatype Voltage = Voltage(
    memberId: string, name: string, sensorNumber: int, physicalContext: string,
    readingVolts: real, status: Status)

  datatype Power = Power(
    powerControl: seq<PowerControl>, powerSupplies: seq<PowerSupply>, voltages: seq<Voltage>)

  datatype NetworkPort = NetworkPort(
    id: string, name: string, activeLinkTechnology: string,
    currentLinkSpeedMbps: real, linkStatus: string, status: Status)

  datatype NetworkAdapter = NetworkAdapter(
    id: string, name: string, status: Status, networkPorts: Read<seq<NetworkPort>>)

  datatype Chassis = Chassis(
    id: string, name: string, chassisType: string,
    physicalSecurity: PhysicalSecurity, powerState: string, status: Status,
    thermal: Read<Option<Thermal>>,
    power: Read<Option<Power>>,
    networkAdapters: Read<seq<NetworkAdapter>>)

  // ---- ComputerSystem subtree (EthernetInterface is shared with managers) ----

  datatype EthernetInterface = EthernetInterface(
    id: string, name: string, ethernetInterfaceType: string, macAddress: string,
    interfaceEnabled: bool, speedMbps: real, fullDuplex: bool, linkStatus: string, status: Status)

  datatype Memory = Memory(
    id: string, name: string, memoryType: string,
    cacheSizeMiB: real, capacityMiB: real, nonVolatileSizeMiB: real,
    operatingSpeedMhz: real, volatileSizeMiB: real, status: Status)

  datatype NetworkInterface = NetworkInterface(id: string, name: string, status: Status)

  datatype PCIeDevice = PCIeDevice(id: string, name: string, deviceType: string, status: Status)

  datatype Processor = Processor(
    id: string, name: string, processorType: string,
    maxSpeedMHz: real, maxTDPWatts: real, tdpWatts: real,
    totalCores: real, totalEnabledCores: real, totalThreads: real, status: Status)

  datatype CacheSummary = CacheSummary(persistentCacheSizeMiB: real, totalCacheSizeMiB: real, status: Status)

  datatype StorageController = StorageController(
    memberId: string, name: string, speedGbps: real, cacheSummary: CacheSummary, status: Status)

  datatype Drive = Drive(
    id: string, name: string, mediaType: string,
    capableSpeedGbs: real, capacityBytes: real, failurePredicted: bool,
    negotiatedSpeedGbs: real, writeCacheEnabled: bool,
    rotationSpeedRPM: real, predictedMediaLifeLeftPercent: real,
    encryptionStatus: string, encryptionAbility: string,
    hotspareType: string, hotspareReplacementMode: string,
    statusIndicator: string, status: Status)

  /** Controllers are inline in the Storage resource; only the drives need a read. */
  datatype Storage = Storage(
    id: string, name: string, status: Status,
    storageControllers: seq<StorageController>,
    drives: Read<seq<Drive>>)

  datatype ComputerSystem = ComputerSystem(
    id: string, name: string, systemType: string, powerState: string, status: Status,
    ethernetInterfaces: Read<seq<EthernetInterface>>,
    memory: Read<seq<Memory>>,
    networkInterfaces: Read<seq<NetworkInterface>>,
    pcieDevices: Read<seq<PCIeDevice>>,
    processors: Read<seq<Processor>>,
    storage: Read<seq<Storage>>)

  // ---- Manager subtree ----

  datatype Manager = Manager(
    id: string, name: string, managerType: string,
    commandShellEnabled: bool, graphicalConsoleEnabled: bool, serialConsoleEnabled: bool,
    powerState: string, status: Status,
    ethernetInterfaces: Read<seq<EthernetInterface>>)

  /** The service root of a connected client: the three top-level collections. */
  datatype Service = Service(
    chassis: Read<seq<Chassis>>,
    systems: Read<seq<ComputerSystem>>,
    managers: Read<seq<Manager>>)
}
