/**
 * The chassis collector: every chassis, then its thermal block (fans,
 * temperatures), its power block (power controls, power supplies,
 * voltages) and its network adapters with their ports.
 */
module ChassisCollection {
  import opened Wrappers
  import opened Metrics
  import opened Common
  import opened Redfish
  import Strconv

  const SUBSYSTEM := "chassis"

  // ---- Codecs of this file ----

  /** Intrusion sensor readings in ordinal order: 0: Normal, 1: HardwareIntrusion, 2: TamperingDetected. */
  const INTRUSION_SENSORS: seq<string> := ["Normal", "HardwareIntrusion", "TamperingDetected"]

  function EnumIntrusionSensor(e: string): (r: int)
    ensures ABSENT <= r < |INTRUSION_SENSORS|
    ensures r >= 0 <==> e in INTRUSION_SENSORS
    ensures r >= 0 ==> INTRUSION_SENSORS[r] == e
  {
    if e == "Normal" then 0
    else if e == "HardwareIntrusion" then 1
    else if e == "TamperingDetected" then 2
    else ABSENT
  }

  /** Port link statuses in ordinal order: 0: Down, 1: Up. */
  const PORT_LINK_STATUSES: seq<string> := ["Down", "Up"]

  function EnumPortLinkStatus(e: string): (r: int)
    ensures ABSENT <= r < |PORT_LINK_STATUSES|
    ensures r >= 0 <==> e in PORT_LINK_STATUSES
    ensures r >= 0 ==> PORT_LINK_STATUSES[r] == e
  {
    if e == "Down" then 0
    else if e == "Up" then 1
    else ABSENT
  }

  lemma ChassisCodecsInjective(a: string, b: string)
    ensures EnumIntrusionSensor(a) >= 0 && EnumIntrusionSensor(a) == EnumIntrusionSensor(b) ==> a == b
    ensures EnumPortLinkStatus(a) >= 0 && EnumPortLinkStatus(a) == EnumPortLinkStatus(b) ==> a == b
  {
  }

  /** Go's integer `/` on int64: the quotient truncated toward zero. */
  function Quo(a: int, d: int): (q: int)
    requires d > 0
    ensures a >= 0 ==> q * d <= a < q * d + d
    ensures a < 0 ==> q * d - d < a <= q * d
  {
    if a >= 0 then a / d else -((-a) / d)
  }

  // ---- What each process* method sends ----

  function ChassisLabels(c: Chassis): map<string, string>
  {
    map["id" := c.id, "name" := c.name, "chassis_id" := c.id, "chassis_type" := c.chassisType]
  }

  function IntrusionLabels(c: Chassis): map<string, string>
  {
    ChassisLabels(c)["sensor_number" := Strconv.Itoa(c.physicalSecurity.intrusionSensorNumber)]
      ["sensor_re_arm" := c.physicalSecurity.intrusionSensorReArm]
  }

  const INTRUSION_HELP := "Intrusion sensor reading; 0: Normal, 1: HardwareIntrusion, 2: TamperingDetected"
  const CHASSIS_POWER_HELP := "Chassis power state; 0: Off, 1: On, 2: PoweringOn, 3: PoweringOff"

  function ChassisSamples(c: Chassis): seq<Sample>
  {
    CodeSample(EnumIntrusionSensor(c.physicalSecurity.intrusionSensor), SUBSYSTEM, "intrusion_sensor", INTRUSION_HELP, IntrusionLabels(c))
    + CodeSample(EnumPowerState(c.powerState), SUBSYSTEM, "power_state", CHASSIS_POWER_HELP, ChassisLabels(c))
    + StatusSamples(SUBSYSTEM, "", "Chassis", ChassisLabels(c), c.status)
  }

  function ThermalLabels(t: Thermal, chassisId: string): map<string, string>
  {
    map["id" := t.id, "name" := t.name, "chassis_id" := chassisId]
  }

  function ThermalSamples(t: Thermal, chassisId: string): seq<Sample>
  {
    StatusSamples(SUBSYSTEM, "thermal_", "Thermal", ThermalLabels(t, chassisId), t.status)
  }

  function FanLabels(fan: Fan, chassisId: string): map<string, string>
  {
    map["id" := fan.memberId, "name" := fan.name, "chassis_id" := chassisId,
        "sensor_number" := Strconv.Itoa(fan.sensorNumber), "physical_context" := fan.physicalContext]
  }

  /** The reading is in RPM or in percent depending on the units the fan reports. */
  function FanReadingSamples(fan: Fan, chassisId: string): seq<Sample>
  {
    if fan.readingUnits == "RPM" then
      [Gauge(SUBSYSTEM, "fan_speed_rpm", "Fan speed, RPM", FanLabels(fan, chassisId), fan.reading)]
    else if fan.readingUnits == "Percent" then
      [Gauge(SUBSYSTEM, "fan_speed_ratio", "Fan speed, %", FanLabels(fan, chassisId), fan.reading / 100.0)]
    else []
  }

  function FanSamples(fan: Fan, chassisId: string): seq<Sample>
  {
    FanReadingSamples(fan, chassisId) + StatusSamples(SUBSYSTEM, "fan_", "Fan", FanLabels(fan, chassisId), fan.status)
  }

  function TemperatureLabels(t: Temperature, chassisId: string): map<string, string>
  {
    map["id" := t.memberId, "name" := t.name, "chassis_id" := chassisId,
        "sensor_number" := Strconv.Itoa(t.sensorNumber), "physical_context" := t.physicalContext]
  }

  function TemperatureSamples(t: Temperature, chassisId: string): seq<Sample>
  {
    [Gauge(SUBSYSTEM, "temperature_celsius", "Temperature sensor reading, °C", TemperatureLabels(t, chassisId), t.readingCelsius)]
    + StatusSamples(SUBSYSTEM, "temperature_", "Temperature sensor", TemperatureLabels(t, chassisId), t.status)
  }

  function PowerControlLabels(pc: PowerControl, chassisId: string): map<string, string>
  {
    map["id" := pc.memberId, "name" := pc.name, "chassis_id" := chassisId]
  }

  /** The power limit's extra labels: the correction interval in whole seconds and the limit action. */
  function PowerLimitLabels(pc: PowerControl, chassisId: string): map<string, string>
  {
    PowerControlLabels(pc, chassisId)["correction_interval" := Strconv.Itoa(Quo(pc.powerLimit.correctionInMs, 1000))]
      ["action" := pc.powerLimit.limitException]
  }

  function PowerControlSamples(pc: PowerControl, chassisId: string): seq<Sample>
  {
    PowerControlFigures(pc, chassisId) + StatusSamples(SUBSYSTEM, "power_control_", "Power control", PowerControlLabels(pc, chassisId), pc.status)
  }

  /** The five watt figures every power control reports. */
  function PowerControlFigures(pc: PowerControl, chassisId: string): seq<Sample>
  {
    var labels := PowerControlLabels(pc, chassisId);
    [ Gauge(SUBSYSTEM, "power_control_power_allocated_watts", "Power allocated to chassis resources, W", labels, pc.powerAllocatedWatts),
      Gauge(SUBSYSTEM, "power_control_power_capacity_watts", "Power available for allocation to chassis resources, W", labels, pc.powerCapacityWatts),
      Gauge(SUBSYSTEM, "power_control_power_consumed_watts", "Power consumed by the chassis resources, W", labels, pc.powerConsumedWatts),
      Gauge(SUBSYSTEM, "power_control_power_limit_watts", "Configured power limit for the chassis resources, W", PowerLimitLabels(pc, chassisId), pc.powerLimit.limitInWatts),
      Gauge(SUBSYSTEM, "power_control_power_requested_watts", "Power requested by the chassis resources, W", labels, pc.powerRequestedWatts) ]
  }

  function PowerSupplyLabels(ps: PowerSupply, chassisId: string): map<string, string>
  {
    map["id" := ps.memberId, "name" := ps.name, "chassis_id" := chassisId, "power_supply_type" := ps.powerSupplyType]
  }

  function PowerSupplySamples(ps: PowerSupply, chassisId: string): seq<Sample>
  {
    var labels := PowerSupplyLabels(ps, chassisId);
    [ Gauge(SUBSYSTEM, "power_supply_efficiency_ratio", "Power supply measured efficiency, %", labels, ps.efficiencyPercent / 100.0),
      Gauge(SUBSYSTEM, "power_supply_input_voltage_volts", "Power supply measured input voltage, V", labels["input_voltage_type" := ps.lineInputVoltageType], ps.lineInputVoltage),
      Gauge(SUBSYSTEM, "power_supply_capacity_watts", "Power supply maximum capacity, W", labels, ps.powerCapacityWatts),
      Gauge(SUBSYSTEM, "power_supply_input_power_watts", "Power supply measured input power, W", labels, ps.powerInputWatts),
      Gauge(SUBSYSTEM, "power_supply_output_power_watts", "Power supply measured output power, W", labels, ps.powerOutputWatts) ]
    + StatusSamples(SUBSYSTEM, "power_supply_", "Power supply", labels, ps.status)
  }

  function VoltageLabels(v: Voltage, chassisId: string): map<string, string>
  {
    map["id" := v.memberId, "name" := v.name, "chassis_id" := chassisId,
        "sensor_number" := Strconv.Itoa(v.sensorNumber), "physical_context" := v.physicalContext]
  }

  function VoltageSamples(v: Voltage, chassisId: string): seq<Sample>
  {
    [Gauge(SUBSYSTEM, "voltage_reading_volts", "Voltage sensor reading, V", VoltageLabels(v, chassisId), v.readingVolts)]
    + StatusSamples(SUBSYSTEM, "voltage_", "Voltage sensor", VoltageLabels(v, chassisId), v.status)
  }

  function AdapterLabels(a: NetworkAdapter, chassisId: string): map<string, string>
  {
    map["id" := a.id, "name" := a.name, "chassis_id" := chassisId]
  }

  function AdapterSamples(a: NetworkAdapter, chassisId: string): seq<Sample>
  {
    StatusSamples(SUBSYSTEM, "network_adapter_", "Network adapter", AdapterLabels(a, chassisId), a.status)
  }

  function PortLabels(p: NetworkPort, chassisId: string): map<string, string>
  {
    map["id" := p.id, "name" := p.name, "chassis_id" := chassisId, "link_type" := p.activeLinkTechnology]
  }

  /** Link speed in bytes per second, with the decimal mega prefix. */
  function PortSpeed(p: NetworkPort): (r: real)
    ensures r == p.currentLinkSpeedMbps * 125000.0
    ensures p.currentLinkSpeedMbps == 1000.0 ==> r == 125000000.0
  {
    p.currentLinkSpeedMbps * MEGA / 8.0
  }

  function PortSamples(p: NetworkPort, chassisId: string): seq<Sample>
  {
    [Gauge(SUBSYSTEM, "network_port_speed_bytes", "Network port speed, bytes/s", PortLabels(p, chassisId), PortSpeed(p))]
    + CodeSample(EnumPortLinkStatus(p.linkStatus), SUBSYSTEM, "network_port_status", "Network port status; 0: Down, 1: Up", PortLabels(p, chassisId))
    + StatusSamples(SUBSYSTEM, "network_port_", "Network port", PortLabels(p, chassisId), p.status)
  }

  // ---- Lists, in list order ----

  function FansSamples(fans: seq<Fan>, chassisId: string): seq<Sample>
  {
    if fans == [] then [] else FansSamples(fans[..|fans| - 1], chassisId) + FanSamples(fans[|fans| - 1], chassisId)
  }

  lemma FansStep(fans: seq<Fan>, i: int, chassisId: string)
    requires 0 <= i < |fans|
    ensures FansSamples(fans[..i + 1], chassisId) == FansSamples(fans[..i], chassisId) + FanSamples(fans[i], chassisId)
  {
    assert fans[..i + 1][..i] == fans[..i];
  }

  function TemperaturesSamples(ts: seq<Temperature>, chassisId: string): seq<Sample>
  {
    if ts == [] then [] else TemperaturesSamples(ts[..|ts| - 1], chassisId) + TemperatureSamples(ts[|ts| - 1], chassisId)
  }

  lemma TemperaturesStep(ts: seq<Temperature>, i: int, chassisId: string)
    requires 0 <= i < |ts|
    ensures TemperaturesSamples(ts[..i + 1], chassisId) == TemperaturesSamples(ts[..i], chassisId) + TemperatureSamples(ts[i], chassisId)
  {
    assert ts[..i + 1][..i] == ts[..i];
  }

  function PowerControlsSamples(pcs: seq<PowerControl>, chassisId: string): seq<Sample>
  {
    if pcs == [] then [] else PowerControlsSamples(pcs[..|pcs| - 1], chassisId) + PowerControlSamples(pcs[|pcs| - 1], chassisId)
  }

  lemma PowerControlsStep(pcs: seq<PowerControl>, i: int, chassisId: string)
    requires 0 <= i < |pcs|
    ensures PowerControlsSamples(pcs[..i + 1], chassisId) == PowerControlsSamples(pcs[..i], chassisId) + PowerControlSamples(pcs[i], chassisId)
  {
    assert pcs[..i + 1][..i] == pcs[..i];
  }

  function PowerSuppliesSamples(pss: seq<PowerSupply>, chassisId: string): seq<Sample>
  {
    if pss == [] then [] else PowerSuppliesSamples(pss[..|pss| - 1], chassisId) + PowerSupplySamples(pss[|pss| - 1], chassisId)
  }

  lemma PowerSuppliesStep(pss: seq<PowerSupply>, i: int, chassisId: string)
    requires 0 <= i < |pss|
    ensures PowerSuppliesSamples(pss[..i + 1], chassisId) == PowerSuppliesSamples(pss[..i], chassisId) + PowerSupplySamples(pss[i], chassisId)
  {
    assert pss[..i + 1][..i] == pss[..i];
  }

  function VoltagesSamples(vs: seq<Voltage>, chassisId: string): seq<Sample>
  {
    if vs == [] then [] else VoltagesSamples(vs[..|vs| - 1], chassisId) + VoltageSamples(vs[|vs| - 1], chassisId)
  }

  lemma VoltagesStep(vs: seq<Voltage>, i: int, chassisId: string)
    requires 0 <= i < |vs|
    ensures VoltagesSamples(vs[..i + 1], chassisId) == VoltagesSamples(vs[..i], chassisId) + VoltageSamples(vs[i], chassisId)
  {
    assert vs[..i + 1][..i] == vs[..i];
  }

  function PortsSamples(ps: seq<NetworkPort>, chassisId: string): seq<Sample>
  {
    if ps == [] then [] else PortsSamples(ps[..|ps| - 1], chassisId) + PortSamples(ps[|ps| - 1], chassisId)
  }

  lemma PortsStep(ps: seq<NetworkPort>, i: int, chassisId: string)
    requires 0 <= i < |ps|
    ensures PortsSamples(ps[..i + 1], chassisId) == PortsSamples(ps[..i], chassisId) + PortSamples(ps[i], chassisId)
  {
    assert ps[..i + 1][..i] == ps[..i];
  }

  // ---- The traversal ----

  function ChassisPath(chassisId: string): string
  {
    "/Chassis/" + chassisId
  }

  /** A failed Thermal read aborts; an absent Thermal block sends nothing. */
  function ThermalPart(c: Chassis): Trace
  {
    match c.thermal
    case Failure(e) => Failed(ErrorCollecting(ChassisPath(c.id) + "/Thermal", e))
    case Success(None) => Emitted([])
    case Success(Some(t)) =>
      Emitted(ThermalSamples(t, c.id) + FansSamples(t.fans, c.id) + TemperaturesSamples(t.temperatures, c.id))
  }

  /** A failed Power read aborts; an absent Power block sends nothing. */
  function PowerPart(c: Chassis): Trace
  {
    match c.power
    case Failure(e) => Failed(ErrorCollecting(ChassisPath(c.id) + "/Power", e))
    case Success(None) => Emitted([])
    case Success(Some(p)) =>
      Emitted(PowerControlsSamples(p.powerControl, c.id) + PowerSuppliesSamples(p.powerSupplies, c.id) + VoltagesSamples(p.voltages, c.id))
  }

  function AdapterTrace(a: NetworkAdapter, chassisId: string): Trace
  {
    Emitted(AdapterSamples(a, chassisId)).Then(
      match a.networkPorts
      case Failure(e) => Failed(ErrorCollecting(ChassisPath(chassisId) + "/NetworkAdapters/" + a.id + "/NetworkPorts", e))
      case Success(ps) => Emitted(PortsSamples(ps, chassisId)))
  }

  function AdapterTraces(adapters: seq<NetworkAdapter>, chassisId: string): (ts: seq<Trace>)
    ensures |ts| == |adapters|
    ensures forall i :: 0 <= i < |adapters| ==> ts[i] == AdapterTrace(adapters[i], chassisId)
  {
    seq(|adapters|, i requires 0 <= i < |adapters| => AdapterTrace(adapters[i], chassisId))
  }

  function AdaptersPart(c: Chassis): Trace
  {
    match c.networkAdapters
    case Failure(e) => Failed(ErrorCollecting(ChassisPath(c.id) + "/NetworkAdapters", e))
    case Success(adapters) => ThenAll(AdapterTraces(adapters, c.id))
  }

  /** One iteration of the chassis loop, in the order the source visits the subtrees. */
  function ChassisTrace(c: Chassis): Trace
  {
    Emitted(ChassisSamples(c)).Then(ThermalPart(c)).Then(PowerPart(c)).Then(AdaptersPart(c))
  }

  function ChassisTraces(cs: seq<Chassis>): (ts: seq<Trace>)
    ensures |ts| == |cs|
    ensures forall i :: 0 <= i < |cs| ==> ts[i] == ChassisTrace(cs[i])
  {
    seq(|cs|, i requires 0 <= i < |cs| => ChassisTrace(cs[i]))
  }

  /** What `ChassisCollector.Collect` sends and returns for a given service. */
  function ChassisCollect(client: Service): Trace
  {
    match client.chassis
    case Failure(e) => Failed(ErrorCollecting("/Chassis", e))
    case Success(cs) => ThenAll(ChassisTraces(cs))
  }

  // ---- Properties of the traversal ----

  const FAN_RPM_NAME := BuildFQName(NAMESPACE, SUBSYSTEM, "fan_speed_rpm")
  const FAN_RATIO_NAME := BuildFQName(NAMESPACE, SUBSYSTEM, "fan_speed_ratio")

  /**
   * The fan's units pick at most one reading sample: RPM gives the raw
   * reading, Percent gives the reading as a ratio, anything else gives none.
   */
  lemma FanReadingUnits(fan: Fan, chassisId: string)
    ensures (exists s :: s in FanSamples(fan, chassisId) && s.name == FAN_RPM_NAME) <==> fan.readingUnits == "RPM"
    ensures (exists s :: s in FanSamples(fan, chassisId) && s.name == FAN_RATIO_NAME) <==> fan.readingUnits == "Percent"
    ensures forall s :: s in FanSamples(fan, chassisId) && s.name == FAN_RPM_NAME ==> s.value == fan.reading
    ensures forall s :: s in FanSamples(fan, chassisId) && s.name == FAN_RATIO_NAME ==> s.value == fan.reading / 100.0
  {
    var labels := FanLabels(fan, chassisId);
    var reading := FanReadingSamples(fan, chassisId);
    var status := StatusSamples(SUBSYSTEM, "fan_", "Fan", labels, fan.status);
    assert FanSamples(fan, chassisId) == reading + status;
    StatusSuppression(SUBSYSTEM, "fan_", "Fan", labels, fan.status);
    assert |FAN_RPM_NAME| == 29 && |FAN_RATIO_NAME| == 31;
    assert |BuildFQName(NAMESPACE, SUBSYSTEM, "fan_health")| == 26;
    assert |BuildFQName(NAMESPACE, SUBSYSTEM, "fan_state")| == 25;
    if fan.readingUnits == "RPM" {
      assert reading[0] in FanSamples(fan, chassisId);
    } else if fan.readingUnits == "Percent" {
      assert reading[0] in FanSamples(fan, chassisId);
    }
  }

  /**
   * A chassis reports its intrusion sensor, with the sensor's number and
   * re-arm labels, only when the reading is known, and its power state only
   * when known; health and state follow likewise.
   */
  lemma ChassisCodes(c: Chassis)
    ensures var r := ChassisSamples(c);
      && |r| == (if c.physicalSecurity.intrusionSensor in INTRUSION_SENSORS then 1 else 0)
               + (if c.powerState in POWER_STATES then 1 else 0)
               + (if c.status.health in HEALTHS then 1 else 0) + (if c.status.state in STATES then 1 else 0)
      && ((exists x :: x in r && x.name == BuildFQName(NAMESPACE, SUBSYSTEM, "intrusion_sensor"))
          <==> c.physicalSecurity.intrusionSensor in INTRUSION_SENSORS)
      && ((exists x :: x in r && x.name == BuildFQName(NAMESPACE, SUBSYSTEM, "power_state")) <==> c.powerState in POWER_STATES)
      && (forall x :: x in r && x.name == BuildFQName(NAMESPACE, SUBSYSTEM, "intrusion_sensor") ==>
            x.value == EnumIntrusionSensor(c.physicalSecurity.intrusionSensor) as real && x.labels == IntrusionLabels(c))
      && (forall x :: x in r && x.name == BuildFQName(NAMESPACE, SUBSYSTEM, "power_state") ==> x.value == EnumPowerState(c.powerState) as real)
  {
    var intrusion := CodeSample(EnumIntrusionSensor(c.physicalSecurity.intrusionSensor), SUBSYSTEM, "intrusion_sensor", INTRUSION_HELP, IntrusionLabels(c));
    var power := CodeSample(EnumPowerState(c.powerState), SUBSYSTEM, "power_state", CHASSIS_POWER_HELP, ChassisLabels(c));
    var status := StatusSamples(SUBSYSTEM, "", "Chassis", ChassisLabels(c), c.status);
    CodeSampleNamed(EnumIntrusionSensor(c.physicalSecurity.intrusionSensor), SUBSYSTEM, "intrusion_sensor", INTRUSION_HELP, IntrusionLabels(c));
    CodeSampleNamed(EnumPowerState(c.powerState), SUBSYSTEM, "power_state", CHASSIS_POWER_HELP, ChassisLabels(c));
    StatusSuppression(SUBSYSTEM, "", "Chassis", ChassisLabels(c), c.status);
    BuildFQNameInjective(SUBSYSTEM, "intrusion_sensor", "power_state");
    BuildFQNameInjective(SUBSYSTEM, "intrusion_sensor", "health");
    BuildFQNameInjective(SUBSYSTEM, "intrusion_sensor", "state");
    BuildFQNameInjective(SUBSYSTEM, "power_state", "health");
    BuildFQNameInjective(SUBSYSTEM, "power_state", "state");
    assert "" + "health" == "health" && "" + "state" == "state";
    assert ChassisSamples(c) == intrusion + power + status;
  }

  /** The intrusion sensor's labels carry its number, which parses back, and its re-arm policy, beside the chassis labels. */
  lemma IntrusionSensorLabels(c: Chassis)
    ensures Strconv.Atoi(IntrusionLabels(c)["sensor_number"]) == Some(c.physicalSecurity.intrusionSensorNumber)
    ensures IntrusionLabels(c)["sensor_re_arm"] == c.physicalSecurity.intrusionSensorReArm
    ensures forall k :: k in ChassisLabels(c) ==> k in IntrusionLabels(c) && IntrusionLabels(c)[k] == ChassisLabels(c)[k]
  {
    Strconv.ItoaRoundTrip(c.physicalSecurity.intrusionSensorNumber);
  }

  /** A temperature sensor always reports its reading first, labelled with its sensor number; then health and state when known. */
  lemma TemperatureReadingFirst(t: Temperature, chassisId: string)
    ensures var r := TemperatureSamples(t, chassisId);
      && |r| == 1 + (if t.status.health in HEALTHS then 1 else 0) + (if t.status.state in STATES then 1 else 0)
      && r[0].name == BuildFQName(NAMESPACE, SUBSYSTEM, "temperature_celsius") && r[0].value == t.readingCelsius
      && r[0].labels["sensor_number"] == Strconv.Itoa(t.sensorNumber)
      && forall x :: x in r[1..] ==>
           x.name == BuildFQName(NAMESPACE, SUBSYSTEM, "temperature_health") || x.name == BuildFQName(NAMESPACE, SUBSYSTEM, "temperature_state")
  {
    var status := StatusSamples(SUBSYSTEM, "temperature_", "Temperature sensor", TemperatureLabels(t, chassisId), t.status);
    assert forall x :: x in status ==>
      x.name == BuildFQName(NAMESPACE, SUBSYSTEM, "temperature_health") || x.name == BuildFQName(NAMESPACE, SUBSYSTEM, "temperature_state") by {
      assert "temperature_" + "health" == "temperature_health" && "temperature_" + "state" == "temperature_state";
      StatusNames(SUBSYSTEM, "temperature_", "Temperature sensor", TemperatureLabels(t, chassisId), t.status);
    }
    assert |status| == (if t.status.health in HEALTHS then 1 else 0) + (if t.status.state in STATES then 1 else 0);
    assert TemperatureSamples(t, chassisId)[1..] == status;
  }

  /** A voltage sensor always reports its reading first, labelled with its sensor number; then health and state when known. */
  lemma VoltageReadingFirst(v: Voltage, chassisId: string)
    ensures var r := VoltageSamples(v, chassisId);
      && |r| == 1 + (if v.status.health in HEALTHS then 1 else 0) + (if v.status.state in STATES then 1 else 0)
      && r[0].name == BuildFQName(NAMESPACE, SUBSYSTEM, "voltage_reading_volts") && r[0].value == v.readingVolts
      && r[0].labels["sensor_number"] == Strconv.Itoa(v.sensorNumber)
      && forall x :: x in r[1..] ==>
           x.name == BuildFQName(NAMESPACE, SUBSYSTEM, "voltage_health") || x.name == BuildFQName(NAMESPACE, SUBSYSTEM, "voltage_state")
  {
    var status := StatusSamples(SUBSYSTEM, "voltage_", "Voltage sensor", VoltageLabels(v, chassisId), v.status);
    assert forall x :: x in status ==>
      x.name == BuildFQName(NAMESPACE, SUBSYSTEM, "voltage_health") || x.name == BuildFQName(NAMESPACE, SUBSYSTEM, "voltage_state") by {
      assert "voltage_" + "health" == "voltage_health" && "voltage_" + "state" == "voltage_state";
      StatusNames(SUBSYSTEM, "voltage_", "Voltage sensor", VoltageLabels(v, chassisId), v.status);
    }
    assert |status| == (if v.status.health in HEALTHS then 1 else 0) + (if v.status.state in STATES then 1 else 0);
    assert VoltageSamples(v, chassisId)[1..] == status;
  }

  /** A port always reports its speed first; its link status follows exactly when known, then health and state when known. */
  lemma PortSpeedThenLink(p: NetworkPort, chassisId: string)
    ensures var r := PortSamples(p, chassisId);
      && |r| == 1 + (if p.linkStatus in PORT_LINK_STATUSES then 1 else 0)
               + (if p.status.health in HEALTHS then 1 else 0) + (if p.status.state in STATES then 1 else 0)
      && r[0].name == BuildFQName(NAMESPACE, SUBSYSTEM, "network_port_speed_bytes") && r[0].value == p.currentLinkSpeedMbps * 125000.0
      && ((exists x :: x in r && x.name == BuildFQName(NAMESPACE, SUBSYSTEM, "network_port_status")) <==> p.linkStatus in PORT_LINK_STATUSES)
      && (forall x :: x in r && x.name == BuildFQName(NAMESPACE, SUBSYSTEM, "network_port_status") ==>
            x.value == EnumPortLinkStatus(p.linkStatus) as real)
  {
    var labels := PortLabels(p, chassisId);
    var speed := [Gauge(SUBSYSTEM, "network_port_speed_bytes", "Network port speed, bytes/s", labels, PortSpeed(p))];
    var link := CodeSample(EnumPortLinkStatus(p.linkStatus), SUBSYSTEM, "network_port_status", "Network port status; 0: Down, 1: Up", labels);
    var status := StatusSamples(SUBSYSTEM, "network_port_", "Network port", labels, p.status);
    assert |status| == (if p.status.health in HEALTHS then 1 else 0) + (if p.status.state in STATES then 1 else 0);
    assert forall x :: x in speed ==> x.name != BuildFQName(NAMESPACE, SUBSYSTEM, "network_port_status") by {
      BuildFQNameInjective(SUBSYSTEM, "network_port_status", "network_port_speed_bytes");
    }
    assert forall x :: x in status ==> x.name != BuildFQName(NAMESPACE, SUBSYSTEM, "network_port_status") by {
      assert "network_port_" + "health" == "network_port_health" && "network_port_" + "state" == "network_port_state";
      StatusNames(SUBSYSTEM, "network_port_", "Network port", labels, p.status);
      BuildFQNameInjective(SUBSYSTEM, "network_port_status", "network_port_health");
      BuildFQNameInjective(SUBSYSTEM, "network_port_status", "network_port_state");
    }
    CodeSampleAmid(speed, EnumPortLinkStatus(p.linkStatus), SUBSYSTEM, "network_port_status", "Network port status; 0: Down, 1: Up", labels, status);
  }

  /** A Thermal or Power block that is absent sends nothing and is not an error; a failed read of either aborts. */
  lemma NilBlockVersusError(c: Chassis)
    ensures c.thermal == Success(None) ==> ThermalPart(c) == Emitted([])
    ensures c.power == Success(None) ==> PowerPart(c) == Emitted([])
    ensures c.thermal.Failure? ==>
      ChassisTrace(c) == Trace(ChassisSamples(c), Some(ErrorCollecting("/Chassis/" + c.id + "/Thermal", c.thermal.error)))
    ensures c.thermal.Success? && c.power.Failure? ==>
      ChassisTrace(c) == Trace(ChassisSamples(c) + ThermalPart(c).samples, Some(ErrorCollecting("/Chassis/" + c.id + "/Power", c.power.error)))
    ensures c.thermal.Success? && c.power.Success? && c.networkAdapters.Failure? ==>
      ChassisTrace(c) == Trace(ChassisSamples(c) + ThermalPart(c).samples + PowerPart(c).samples,
                               Some(ErrorCollecting("/Chassis/" + c.id + "/NetworkAdapters", c.networkAdapters.error)))
  {
    var t1 := Emitted(ChassisSamples(c)).Then(ThermalPart(c));
    var t2 := t1.Then(PowerPart(c));
    if c.thermal.Failure? {
      assert t1.samples == ChassisSamples(c) + [];
    } else if c.power.Failure? {
      assert t2.samples == t1.samples + [];
    } else if c.networkAdapters.Failure? {
      assert t2.Then(AdaptersPart(c)).samples == t2.samples + [];
    }
  }

  /** The correction interval label is the whole number of seconds, truncated toward zero, written in decimal. */
  lemma CorrectionIntervalLabel(pc: PowerControl, chassisId: string)
    ensures Strconv.Atoi(PowerLimitLabels(pc, chassisId)["correction_interval"]) == Some(Quo(pc.powerLimit.correctionInMs, 1000))
    ensures PowerLimitLabels(pc, chassisId)["action"] == pc.powerLimit.limitException
    ensures pc.powerLimit.correctionInMs == -1500 ==> PowerLimitLabels(pc, chassisId)["correction_interval"] == "-1"
  {
    Strconv.ItoaRoundTrip(Quo(pc.powerLimit.correctionInMs, 1000));
    if pc.powerLimit.correctionInMs == -1500 {
      assert Quo(-1500, 1000) == -1;
      assert Strconv.Digits(1) == "1";
    }
  }

  /**
   * A power control always reports its five watt figures, the limit carrying
   * the correction-interval and action labels; health and state follow only
   * when known.
   */
  lemma PowerControlFiguresAlways(pc: PowerControl, chassisId: string)
    ensures var r := PowerControlSamples(pc, chassisId);
      && |r| == 5 + (if pc.status.health in HEALTHS then 1 else 0) + (if pc.status.state in STATES then 1 else 0)
      && r[0].name == BuildFQName(NAMESPACE, SUBSYSTEM, "power_control_power_allocated_watts") && r[0].value == pc.powerAllocatedWatts
      && r[1].name == BuildFQName(NAMESPACE, SUBSYSTEM, "power_control_power_capacity_watts") && r[1].value == pc.powerCapacityWatts
      && r[2].name == BuildFQName(NAMESPACE, SUBSYSTEM, "power_control_power_consumed_watts") && r[2].value == pc.powerConsumedWatts
      && r[3].name == BuildFQName(NAMESPACE, SUBSYSTEM, "power_control_power_limit_watts") && r[3].value == pc.powerLimit.limitInWatts
      && r[3].labels == PowerLimitLabels(pc, chassisId)
      && r[4].name == BuildFQName(NAMESPACE, SUBSYSTEM, "power_control_power_requested_watts") && r[4].value == pc.powerRequestedWatts
  {
    var r, figures := PowerControlSamples(pc, chassisId), PowerControlFigures(pc, chassisId);
    StatusSuppression(SUBSYSTEM, "power_control_", "Power control", PowerControlLabels(pc, chassisId), pc.status);
    assert |figures| == 5;
    assert forall i :: 0 <= i < 5 ==> r[i] == figures[i];
  }

  /**
   * A power supply always reports its five figures, efficiency as a ratio of
   * the percentage and the input voltage labelled with its type; health and
   * state follow only when known.
   */
  lemma PowerSupplyFiguresAlways(ps: PowerSupply, chassisId: string)
    ensures var r := PowerSupplySamples(ps, chassisId);
      && |r| == 5 + (if ps.status.health in HEALTHS then 1 else 0) + (if ps.status.state in STATES then 1 else 0)
      && r[0].name == BuildFQName(NAMESPACE, SUBSYSTEM, "power_supply_efficiency_ratio") && r[0].value == ps.efficiencyPercent / 100.0
      && r[1].name == BuildFQName(NAMESPACE, SUBSYSTEM, "power_supply_input_voltage_volts") && r[1].value == ps.lineInputVoltage
      && r[1].labels["input_voltage_type"] == ps.lineInputVoltageType
      && r[2].name == BuildFQName(NAMESPACE, SUBSYSTEM, "power_supply_capacity_watts") && r[2].value == ps.powerCapacityWatts
      && r[3].name == BuildFQName(NAMESPACE, SUBSYSTEM, "power_supply_input_power_watts") && r[3].value == ps.powerInputWatts
      && r[4].name == BuildFQName(NAMESPACE, SUBSYSTEM, "power_supply_output_power_watts") && r[4].value == ps.powerOutputWatts
  {
    StatusSuppression(SUBSYSTEM, "power_supply_", "Power supply", PowerSupplyLabels(ps, chassisId), ps.status);
  }

  /** The samples of the adapters of a chassis when every port read succeeds: each adapter, then its ports. */
  function AdaptersSamples(adapters: seq<NetworkAdapter>, chassisId: string): seq<Sample>
    requires forall i :: 0 <= i < |adapters| ==> adapters[i].networkPorts.Success?
  {
    if adapters == [] then []
    else
      var a := adapters[|adapters| - 1];
      AdaptersSamples(adapters[..|adapters| - 1], chassisId) + AdapterSamples(a, chassisId) + PortsSamples(a.networkPorts.value, chassisId)
  }

  /** An adapter whose ports were read sends its own samples, then its ports', and does not fail. */
  lemma AdapterTraceRead(a: NetworkAdapter, chassisId: string)
    requires a.networkPorts.Success?
    ensures AdapterTrace(a, chassisId) == Emitted(AdapterSamples(a, chassisId) + PortsSamples(a.networkPorts.value, chassisId))
  {
  }

  /** An adapter whose ports could not be read sends its own samples, then fails naming the ports' path. */
  lemma AdapterTraceUnread(a: NetworkAdapter, chassisId: string)
    requires a.networkPorts.Failure?
    ensures AdapterTrace(a, chassisId) ==
      Trace(AdapterSamples(a, chassisId), Some(ErrorCollecting(ChassisPath(chassisId) + "/NetworkAdapters/" + a.id + "/NetworkPorts", a.networkPorts.error)))
  {
    assert AdapterSamples(a, chassisId) + [] == AdapterSamples(a, chassisId);
  }

  lemma {:induction false} AllAdapterSamples(adapters: seq<NetworkAdapter>, chassisId: string)
    requires forall i :: 0 <= i < |adapters| ==> adapters[i].networkPorts.Success?
    ensures AllSamples(AdapterTraces(adapters, chassisId)) == AdaptersSamples(adapters, chassisId)
  {
    if adapters != [] {
      var n := |adapters|;
      var init, a := adapters[..n - 1], adapters[n - 1];
      var ts := AdapterTraces(adapters, chassisId);
      AllAdapterSamples(init, chassisId);
      assert ts[..n - 1] == AdapterTraces(init, chassisId);
      AdapterTraceRead(a, chassisId);
      assert AllSamples(ts) == AllSamples(ts[..n - 1]) + ts[n - 1].samples;
      AppendAssoc(AdaptersSamples(init, chassisId), AdapterSamples(a, chassisId), PortsSamples(a.networkPorts.value, chassisId));
    }
  }

  /**
   * When every read succeeds, a chassis sends, in order: its own samples,
   * thermal, fans, temperatures, power controls, power supplies, voltages,
   * then each adapter followed by its ports.
   */
  lemma ChassisOrder(c: Chassis)
    requires c.thermal.Success? && c.thermal.value.Some?
    requires c.power.Success? && c.power.value.Some?
    requires c.networkAdapters.Success?
    requires forall i :: 0 <= i < |c.networkAdapters.value| ==> c.networkAdapters.value[i].networkPorts.Success?
    ensures var t, p := c.thermal.value.value, c.power.value.value;
      ChassisTrace(c) == Emitted(ChassisSamples(c)
        + ThermalSamples(t, c.id) + FansSamples(t.fans, c.id) + TemperaturesSamples(t.temperatures, c.id)
        + PowerControlsSamples(p.powerControl, c.id) + PowerSuppliesSamples(p.powerSupplies, c.id) + VoltagesSamples(p.voltages, c.id)
        + AdaptersSamples(c.networkAdapters.value, c.id))
  {
    var t, p, adapters := c.thermal.value.value, c.power.value.value, c.networkAdapters.value;
    var ts := AdapterTraces(adapters, c.id);
    ThenAllSucceeds(ts);
    AllAdapterSamples(adapters, c.id);
    assert AdaptersPart(c) == Emitted(AdaptersSamples(adapters, c.id));
    ChassisTraceParts(c);
    SeqAppend3(ChassisSamples(c), ThermalSamples(t, c.id), FansSamples(t.fans, c.id), TemperaturesSamples(t.temperatures, c.id));
    SeqAppend3(ChassisSamples(c) + ThermalPart(c).samples,
               PowerControlsSamples(p.powerControl, c.id), PowerSuppliesSamples(p.powerSupplies, c.id), VoltagesSamples(p.voltages, c.id));
  }

  /** A chassis whose three parts all succeed sends its own samples, then each part's, in order. */
  lemma ChassisTraceParts(c: Chassis)
    requires ThermalPart(c).err.None? && PowerPart(c).err.None? && AdaptersPart(c).err.None?
    ensures ChassisTrace(c) == Emitted(ChassisSamples(c) + ThermalPart(c).samples + PowerPart(c).samples + AdaptersPart(c).samples)
  {
  }

  lemma SeqAppend3(a: seq<Sample>, x: seq<Sample>, y: seq<Sample>, z: seq<Sample>)
    ensures a + (x + y + z) == a + x + y + z
  {
  }

  /**
   * A failed port read of an adapter aborts the chassis' adapter walk with an
   * error naming the chassis and the adapter; the adapters before it, and the
   * failing adapter itself, keep their samples.
   */
  lemma AdapterPortsFailure(c: Chassis, i: nat)
    requires c.networkAdapters.Success? && i < |c.networkAdapters.value|
    requires forall j :: 0 <= j < i ==> c.networkAdapters.value[j].networkPorts.Success?
    requires c.networkAdapters.value[i].networkPorts.Failure?
    ensures var a := c.networkAdapters.value[i];
      AdaptersPart(c).err == Some(ErrorCollecting("/Chassis/" + c.id + "/NetworkAdapters/" + a.id + "/NetworkPorts", a.networkPorts.error))
    ensures AdaptersPart(c).samples == AdaptersSamples(c.networkAdapters.value[..i], c.id) + AdapterSamples(c.networkAdapters.value[i], c.id)
  {
    var adapters := c.networkAdapters.value;
    var ts := AdapterTraces(adapters, c.id);
    assert AdaptersPart(c) == ThenAll(ts);
    AdapterTraceUnread(adapters[i], c.id);
    forall j | 0 <= j < i
      ensures ts[j].err.None?
    {
      AdapterTraceRead(adapters[j], c.id);
    }
    ThenAllFirstFailure(ts, i);
    AllAdapterSamples(adapters[..i], c.id);
    assert ts[..i] == AdapterTraces(adapters[..i], c.id);
  }

  /**
   * The chassis walk stops at the first chassis whose walk fails: its error
   * is returned and the chassis before it keep their samples.
   */
  lemma ChassisFirstFailure(client: Service, i: nat)
    requires client.chassis.Success? && i < |client.chassis.value|
    requires forall j :: 0 <= j < i ==> ChassisTrace(client.chassis.value[j]).err.None?
    requires ChassisTrace(client.chassis.value[i]).err.Some?
    ensures ChassisCollect(client).err == ChassisTrace(client.chassis.value[i]).err
    ensures ChassisCollect(client).samples ==
      AllSamples(ChassisTraces(client.chassis.value)[..i]) + ChassisTrace(client.chassis.value[i]).samples
  {
    ThenAllFirstFailure(ChassisTraces(client.chassis.value), i);
  }

  // ---- The collector ----

  class ChassisCollector {
    const client: Service

    constructor (client: Service)
      ensures this.client == client
    {
      this.client := client;
    }

    method Collect(sink: Sink) returns (err: Option<string>)
      modifies sink
      ensures sink.samples == old(sink.samples) + ChassisCollect(client).samples
      ensures err == ChassisCollect(client).err
    {
      match client.chassis {
        case Failure(e) =>
          err := Some(ErrorCollecting("/Chassis", e));
        case Success(cs) =>
          ghost var ts := ChassisTraces(cs);
          var i := 0;
          while i < |cs|
            invariant 0 <= i <= |cs|
            invariant ThenAll(ts[..i]).err.None?
            invariant sink.samples == old(sink.samples) + ThenAll(ts[..i]).samples
          {
            err := CollectChassis(sink, cs[i]);
            ThenAllStep(ts, i);
            AppendAssoc(old(sink.samples), ThenAll(ts[..i]).samples, ts[i].samples);
            if err.Some? {
              ThenAllAbsorbs(ts, i + 1);
              return;
            }
            i := i + 1;
          }
          assert ts[..|cs|] == ts;
          err := None;
      }
    }

    /** The body of the chassis loop: the chassis, then its thermal, power and network adapter subtrees. */
    method CollectChassis(sink: Sink, chassis: Chassis) returns (err: Option<string>)
      modifies sink
      ensures sink.samples == old(sink.samples) + ChassisTrace(chassis).samples
      ensures err == ChassisTrace(chassis).err
    {
      ghost var t0 := Emitted(ChassisSamples(chassis));
      ghost var t1 := t0.Then(ThermalPart(chassis));
      ghost var t2 := t1.Then(PowerPart(chassis));
      ProcessChassis(sink, chassis);
      err := CollectThermal(sink, chassis);
      AppendAssoc(old(sink.samples), t0.samples, ThermalPart(chassis).samples);
      if err.Some? {
        return;
      }
      err := CollectPower(sink, chassis);
      AppendAssoc(old(sink.samples), t1.samples, PowerPart(chassis).samples);
      if err.Some? {
        return;
      }
      err := CollectAdapters(sink, chassis);
      AppendAssoc(old(sink.samples), t2.samples, AdaptersPart(chassis).samples);
    }

    /** The thermal block; an absent one sends nothing. */
    method CollectThermal(sink: Sink, chassis: Chassis) returns (err: Option<string>)
      modifies sink
      ensures sink.samples == old(sink.samples) + ThermalPart(chassis).samples
      ensures err == ThermalPart(chassis).err
    {
      match chassis.thermal {
        case Failure(e) =>
          err := Some(ErrorCollecting(ChassisPath(chassis.id) + "/Thermal", e));
        case Success(None) =>
          err := None;
        case Success(Some(thermal)) =>
          ProcessThermal(sink, thermal, chassis.id);
          ProcessFans(sink, thermal.fans, chassis.id);
          ProcessTemperatures(sink, thermal.temperatures, chassis.id);
          ghost var head := ThermalSamples(thermal, chassis.id);
          ghost var fans := FansSamples(thermal.fans, chassis.id);
          AppendAssoc(old(sink.samples), head, fans);
          AppendAssoc(old(sink.samples), head + fans, TemperaturesSamples(thermal.temperatures, chassis.id));
          err := None;
      }
    }

    /** The power block; an absent one sends nothing. */
    method CollectPower(sink: Sink, chassis: Chassis) returns (err: Option<string>)
      modifies sink
      ensures sink.samples == old(sink.samples) + PowerPart(chassis).samples
      ensures err == PowerPart(chassis).err
    {
      match chassis.power {
        case Failure(e) =>
          err := Some(ErrorCollecting(ChassisPath(chassis.id) + "/Power", e));
        case Success(None) =>
          err := None;
        case Success(Some(power)) =>
          ProcessPowerControls(sink, power.powerControl, chassis.id);
          ProcessPowerSupplies(sink, power.powerSupplies, chassis.id);
          ProcessVoltages(sink, power.voltages, chassis.id);
          ghost var controls := PowerControlsSamples(power.powerControl, chassis.id);
          ghost var supplies := PowerSuppliesSamples(power.powerSupplies, chassis.id);
          AppendAssoc(old(sink.samples), controls, supplies);
          AppendAssoc(old(sink.samples), controls + supplies, VoltagesSamples(power.voltages, chassis.id));
          err := None;
      }
    }

    /** The adapter loop: each adapter, then its ports; a failed read aborts. */
    method CollectAdapters(sink: Sink, chassis: Chassis) returns (err: Option<string>)
      modifies sink
      ensures sink.samples == old(sink.samples) + AdaptersPart(chassis).samples
      ensures err == AdaptersPart(chassis).err
    {
      match chassis.networkAdapters {
        case Failure(e) =>
          err := Some(ErrorCollecting(ChassisPath(chassis.id) + "/NetworkAdapters", e));
        case Success(adapters) =>
          ghost var ts := AdapterTraces(adapters, chassis.id);
          var i := 0;
          while i < |adapters|
            invariant 0 <= i <= |adapters|
            invariant ThenAll(ts[..i]).err.None?
            invariant sink.samples == old(sink.samples) + ThenAll(ts[..i]).samples
          {
            err := CollectAdapter(sink, adapters[i], chassis.id);
            ThenAllStep(ts, i);
            AppendAssoc(old(sink.samples), ThenAll(ts[..i]).samples, ts[i].samples);
            if err.Some? {
              ThenAllAbsorbs(ts, i + 1);
              return;
            }
            i := i + 1;
          }
          assert ts[..|adapters|] == ts;
          err := None;
      }
    }

    /** One adapter, then its ports. */
    method CollectAdapter(sink: Sink, adapter: NetworkAdapter, chassisId: string) returns (err: Option<string>)
      modifies sink
      ensures sink.samples == old(sink.samples) + AdapterTrace(adapter, chassisId).samples
      ensures err == AdapterTrace(adapter, chassisId).err
    {
      ProcessNetworkAdapter(sink, adapter, chassisId);
      match adapter.networkPorts {
        case Failure(e) =>
          assert AdapterSamples(adapter, chassisId) + [] == AdapterSamples(adapter, chassisId);
          err := Some(ErrorCollecting(ChassisPath(chassisId) + "/NetworkAdapters/" + adapter.id + "/NetworkPorts", e));
        case Success(ports) =>
          ProcessNetworkPorts(sink, ports, chassisId);
          AppendAssoc(old(sink.samples), AdapterSamples(adapter, chassisId), PortsSamples(ports, chassisId));
          err := None;
      }
    }

    method ProcessChassis(sink: Sink, chassis: Chassis)
      modifies sink
      ensures sink.samples == old(sink.samples) + ChassisSamples(chassis)
    {
      var labels := ChassisLabels(chassis);
      var sensorLabels := IntrusionLabels(chassis);
      var intrusion := EnumIntrusionSensor(chassis.physicalSecurity.intrusionSensor);
      var powerState := EnumPowerState(chassis.powerState);
      ghost var intrusionSample := CodeSample(intrusion, SUBSYSTEM, "intrusion_sensor", INTRUSION_HELP, sensorLabels);
      ghost var powerSample := CodeSample(powerState, SUBSYSTEM, "power_state", CHASSIS_POWER_HELP, labels);
      ghost var status := StatusSamples(SUBSYSTEM, "", "Chassis", labels, chassis.status);
      sink.SendCode(intrusion, SUBSYSTEM, "intrusion_sensor", INTRUSION_HELP, sensorLabels);
      sink.SendCode(powerState, SUBSYSTEM, "power_state", CHASSIS_POWER_HELP, labels);
      EmitStatus(sink, SUBSYSTEM, "", "Chassis", labels, chassis.status);
      AppendAssoc(old(sink.samples), intrusionSample, powerSample);
      AppendAssoc(old(sink.samples), intrusionSample + powerSample, status);
      assert ChassisSamples(chassis) == intrusionSample + powerSample + status;
    }

    method ProcessThermal(sink: Sink, thermal: Thermal, chassisId: string)
      modifies sink
      ensures sink.samples == old(sink.samples) + ThermalSamples(thermal, chassisId)
    {
      var labels := ThermalLabels(thermal, chassisId);
      EmitStatus(sink, SUBSYSTEM, "thermal_", "Thermal", labels, thermal.status);
    }

    method ProcessFan(sink: Sink, fan: Fan, chassisId: string)
      modifies sink
      ensures sink.samples == old(sink.samples) + FanSamples(fan, chassisId)
    {
      var labels := FanLabels(fan, chassisId);
      if fan.readingUnits == "RPM" {
        sink.Send(Gauge(SUBSYSTEM, "fan_speed_rpm", "Fan speed, RPM", labels, fan.reading));
      } else if fan.readingUnits == "Percent" {
        sink.Send(Gauge(SUBSYSTEM, "fan_speed_ratio", "Fan speed, %", labels, fan.reading / 100.0));
      }
      EmitStatus(sink, SUBSYSTEM, "fan_", "Fan", labels, fan.status);
    }

    method ProcessTemperature(sink: Sink, t: Temperature, chassisId: string)
      modifies sink
      ensures sink.samples == old(sink.samples) + TemperatureSamples(t, chassisId)
    {
      var labels := TemperatureLabels(t, chassisId);
      sink.Send(Gauge(SUBSYSTEM, "temperature_celsius", "Temperature sensor reading, °C", labels, t.readingCelsius));
      EmitStatus(sink, SUBSYSTEM, "temperature_", "Temperature sensor", labels, t.status);
    }

    method ProcessPowerControl(sink: Sink, control: PowerControl, chassisId: string)
      modifies sink
      ensures sink.samples == old(sink.samples) + PowerControlSamples(control, chassisId)
    {
      var labels := PowerControlLabels(control, chassisId);
      var limitLabels := PowerLimitLabels(control, chassisId);
      var allocatedPower := Gauge(SUBSYSTEM, "power_control_power_allocated_watts", "Power allocated to chassis resources, W", labels,
                             control.powerAllocatedWatts);
      var capacity := Gauge(SUBSYSTEM, "power_control_power_capacity_watts", "Power available for allocation to chassis resources, W", labels,
                            control.powerCapacityWatts);
      var consumed := Gauge(SUBSYSTEM, "power_control_power_consumed_watts", "Power consumed by the chassis resources, W", labels,
                            control.powerConsumedWatts);
      var limit := Gauge(SUBSYSTEM, "power_control_power_limit_watts", "Configured power limit for the chassis resources, W", limitLabels,
                         control.powerLimit.limitInWatts);
      var requested := Gauge(SUBSYSTEM, "power_control_power_requested_watts", "Power requested by the chassis resources, W", labels,
                             control.powerRequestedWatts);
      sink.Send(allocatedPower);
      sink.Send(capacity);
      sink.Send(consumed);
      sink.Send(limit);
      sink.Send(requested);
      SentFive(old(sink.samples), allocatedPower, capacity, consumed, limit, requested);
      ghost var figures := [allocatedPower, capacity, consumed, limit, requested];
      ghost var status := StatusSamples(SUBSYSTEM, "power_control_", "Power control", labels, control.status);
      EmitStatus(sink, SUBSYSTEM, "power_control_", "Power control", labels, control.status);
      AppendAssoc(old(sink.samples), figures, status);
      assert PowerControlSamples(control, chassisId) == figures + status;
    }

    method ProcessPowerSupply(sink: Sink, ps: PowerSupply, chassisId: string)
      modifies sink
      ensures sink.samples == old(sink.samples) + PowerSupplySamples(ps, chassisId)
    {
      var labels := PowerSupplyLabels(ps, chassisId);
      var voltageLabels := labels["input_voltage_type" := ps.lineInputVoltageType];
      var efficiency := Gauge(SUBSYSTEM, "power_supply_efficiency_ratio", "Power supply measured efficiency, %", labels, ps.efficiencyPercent / 100.0);
      var voltage := Gauge(SUBSYSTEM, "power_supply_input_voltage_volts", "Power supply measured input voltage, V", voltageLabels, ps.lineInputVoltage);
      var capacity := Gauge(SUBSYSTEM, "power_supply_capacity_watts", "Power supply maximum capacity, W", labels, ps.powerCapacityWatts);
      var input := Gauge(SUBSYSTEM, "power_supply_input_power_watts", "Power supply measured input power, W", labels, ps.powerInputWatts);
      var output := Gauge(SUBSYSTEM, "power_supply_output_power_watts", "Power supply measured output power, W", labels, ps.powerOutputWatts);
      sink.Send(efficiency);
      sink.Send(voltage);
      sink.Send(capacity);
      sink.Send(input);
      sink.Send(output);
      SentFive(old(sink.samples), efficiency, voltage, capacity, input, output);
      ghost var figures := [efficiency, voltage, capacity, input, output];
      ghost var status := StatusSamples(SUBSYSTEM, "power_supply_", "Power supply", labels, ps.status);
      EmitStatus(sink, SUBSYSTEM, "power_supply_", "Power supply", labels, ps.status);
      AppendAssoc(old(sink.samples), figures, status);
      assert PowerSupplySamples(ps, chassisId) == figures + status;
    }

    method ProcessVoltage(sink: Sink, voltage: Voltage, chassisId: string)
      modifies sink
      ensures sink.samples == old(sink.samples) + VoltageSamples(voltage, chassisId)
    {
      var labels := VoltageLabels(voltage, chassisId);
      sink.Send(Gauge(SUBSYSTEM, "voltage_reading_volts", "Voltage sensor reading, V", labels, voltage.readingVolts));
      EmitStatus(sink, SUBSYSTEM, "voltage_", "Voltage sensor", labels, voltage.status);
    }

    method ProcessNetworkAdapter(sink: Sink, adapter: NetworkAdapter, chassisId: string)
      modifies sink
      ensures sink.samples == old(sink.samples) + AdapterSamples(adapter, chassisId)
    {
      var labels := AdapterLabels(adapter, chassisId);
      EmitStatus(sink, SUBSYSTEM, "network_adapter_", "Network adapter", labels, adapter.status);
    }

    method ProcessNetworkPort(sink: Sink, port: NetworkPort, chassisId: string)
      modifies sink
      ensures sink.samples == old(sink.samples) + PortSamples(port, chassisId)
    {
      var labels := PortLabels(port, chassisId);
      var linkStatus := EnumPortLinkStatus(port.linkStatus);
      sink.Send(Gauge(SUBSYSTEM, "network_port_speed_bytes", "Network port speed, bytes/s", labels, PortSpeed(port)));
      sink.SendCode(linkStatus, SUBSYSTEM, "network_port_status", "Network port status; 0: Down, 1: Up", labels);
      EmitStatus(sink, SUBSYSTEM, "network_port_", "Network port", labels, port.status);
    }

    // ---- The inner `for` loops over the members of a block ----

    method ProcessFans(sink: Sink, fans: seq<Fan>, chassisId: string)
      modifies sink
      ensures sink.samples == old(sink.samples) + FansSamples(fans, chassisId)
    {
      var i := 0;
      while i < |fans|
        invariant 0 <= i <= |fans|
        invariant sink.samples == old(sink.samples) + FansSamples(fans[..i], chassisId)
      {
        ProcessFan(sink, fans[i], chassisId);
        FansStep(fans, i, chassisId);
        AppendAssoc(old(sink.samples), FansSamples(fans[..i], chassisId), FanSamples(fans[i], chassisId));
        i := i + 1;
      }
      assert fans[..|fans|] == fans;
    }

    method ProcessTemperatures(sink: Sink, ts: seq<Temperature>, chassisId: string)
      modifies sink
      ensures sink.samples == old(sink.samples) + TemperaturesSamples(ts, chassisId)
    {
      var i := 0;
      while i < |ts|
        invariant 0 <= i <= |ts|
        invariant sink.samples == old(sink.samples) + TemperaturesSamples(ts[..i], chassisId)
      {
        ProcessTemperature(sink, ts[i], chassisId);
        TemperaturesStep(ts, i, chassisId);
        AppendAssoc(old(sink.samples), TemperaturesSamples(ts[..i], chassisId), TemperatureSamples(ts[i], chassisId));
        i := i + 1;
      }
      assert ts[..|ts|] == ts;
    }

    method ProcessPowerControls(sink: Sink, pcs: seq<PowerControl>, chassisId: string)
      modifies sink
      ensures sink.samples == old(sink.samples) + PowerControlsSamples(pcs, chassisId)
    {
      var i := 0;
      while i < |pcs|
        invariant 0 <= i <= |pcs|
        invariant sink.samples == old(sink.samples) + PowerControlsSamples(pcs[..i], chassisId)
      {
        ProcessPowerControl(sink, pcs[i], chassisId);
        PowerControlsStep(pcs, i, chassisId);
        AppendAssoc(old(sink.samples), PowerControlsSamples(pcs[..i], chassisId), PowerControlSamples(pcs[i], chassisId));
        i := i + 1;
      }
      assert pcs[..|pcs|] == pcs;
    }

    method ProcessPowerSupplies(sink: Sink, pss: seq<PowerSupply>, chassisId: string)
      modifies sink
      ensures sink.samples == old(sink.samples) + PowerSuppliesSamples(pss, chassisId)
    {
      var i := 0;
      while i < |pss|
        invariant 0 <= i <= |pss|
        invariant sink.samples == old(sink.samples) + PowerSuppliesSamples(pss[..i], chassisId)
      {
        ProcessPowerSupply(sink, pss[i], chassisId);
        PowerSuppliesStep(pss, i, chassisId);
        AppendAssoc(old(sink.samples), PowerSuppliesSamples(pss[..i], chassisId), PowerSupplySamples(pss[i], chassisId));
        i := i + 1;
      }
      assert pss[..|pss|] == pss;
    }

    method ProcessVoltages(sink: Sink, vs: seq<Voltage>, chassisId: string)
      modifies sink
      ensures sink.samples == old(sink.samples) + VoltagesSamples(vs, chassisId)
    {
      var i := 0;
      while i < |vs|
        invariant 0 <= i <= |vs|
        invariant sink.samples == old(sink.samples) + VoltagesSamples(vs[..i], chassisId)
      {
        ProcessVoltage(sink, vs[i], chassisId);
        VoltagesStep(vs, i, chassisId);
        AppendAssoc(old(sink.samples), VoltagesSamples(vs[..i], chassisId), VoltageSamples(vs[i], chassisId));
        i := i + 1;
      }
      assert vs[..|vs|] == vs;
    }

    method ProcessNetworkPorts(sink: Sink, ports: seq<NetworkPort>, chassisId: string)
      modifies sink
      ensures sink.samples == old(sink.samples) + PortsSamples(ports, chassisId)
    {
      var i := 0;
      while i < |ports|
        invariant 0 <= i <= |ports|
        invariant sink.samples == old(sink.samples) + PortsSamples(ports[..i], chassisId)
      {
        ProcessNetworkPort(sink, ports[i], chassisId);
        PortsStep(ports, i, chassisId);
        AppendAssoc(old(sink.samples), PortsSamples(ports[..i], chassisId), PortSamples(ports[i], chassisId));
        i := i + 1;
      }
      assert ports[..|ports|] == ports;
    }
  }
}
