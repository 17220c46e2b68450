/**
 * Unit constants, the boolean gauge and the three shared enum codecs. Each
 * codec is a closed table: a recognised value maps to its position in the
 * documented order, anything else to the sentinel -1, which callers treat
 * as "do not emit".
 */
module Common {
  import opened Metrics
  import opened Redfish

  const KIBI: real := 1024.0
  const MEBI: real := 1024.0 * KIBI
  const GIBI: real := 1024.0 * MEBI

  const KILO: real := 1000.0
  const MEGA: real := 1000.0 * KILO
  const GIGA: real := 1000.0 * MEGA

  /** The sentinel every codec returns for an unknown or empty value. */
  const ABSENT: int := -1

  lemma UnitConstants()
    ensures MEBI == 1048576.0 && GIBI == 1073741824.0
    ensures MEGA == 1000000.0 && GIGA == 1000000000.0
  {
  }

  function Btof(b: bool): (r: real)
    ensures r == 1.0 <==> b
    ensures r == 0.0 <==> !b
  {
    if b then 1.0 else 0.0
  }

  /** Power states in ordinal order: 0: Off, 1: On, 2: PoweringOn, 3: PoweringOff. */
  const POWER_STATES: seq<string> := ["Off", "On", "PoweringOn", "PoweringOff"]

  function EnumPowerState(e: string): (r: int)
    ensures ABSENT <= r < |POWER_STATES|
    ensures r >= 0 <==> e in POWER_STATES
    ensures r >= 0 ==> POWER_STATES[r] == e
  {
    if e == "Off" then 0
    else if e == "On" then 1
    else if e == "PoweringOn" then 2
    else if e == "PoweringOff" then 3
    else ABSENT
  }

  /** Health values in ordinal order: 0: OK, 1: Warning, 2: Critical. */
  const HEALTHS: seq<string> := ["OK", "Warning", "Critical"]

  function EnumHealth(e: string): (r: int)
    ensures ABSENT <= r < |HEALTHS|
    ensures r >= 0 <==> e in HEALTHS
    ensures r >= 0 ==> HEALTHS[r] == e
  {
    if e == "OK" then 0
    else if e == "Warning" then 1
    else if e == "Critical" then 2
    else ABSENT
  }

  /** Resource states in ordinal order, 0: Disabled through 10: Updating. */
  const STATES: seq<string> := [
    "Disabled", "Enabled", "StandbyOffline", "StandbySpare", "InTest",
    "Starting", "Absent", "UnavailableOffline", "Deferring", "Quiesced", "Updating"]

  function EnumState(e: string): (r: int)
    ensures ABSENT <= r < |STATES|
    ensures r >= 0 <==> e in STATES
    ensures r >= 0 ==> STATES[r] == e
  {
    if e == "Disabled" then 0
    else if e == "Enabled" then 1
    else if e == "StandbyOffline" then 2
    else if e == "StandbySpare" then 3
    else if e == "InTest" then 4
    else if e == "Starting" then 5
    else if e == "Absent" then 6
    else if e == "UnavailableOffline" then 7
    else if e == "Deferring" then 8
    else if e == "Quiesced" then 9
    else if e == "Updating" then 10
    else ABSENT
  }

  /** Every listed value gets exactly its position in the table. */
  lemma CodecsCoverTheirTables()
    ensures forall k :: 0 <= k < |POWER_STATES| ==> EnumPowerState(POWER_STATES[k]) == k
    ensures forall k :: 0 <= k < |HEALTHS| ==> EnumHealth(HEALTHS[k]) == k
    ensures forall k :: 0 <= k < |STATES| ==> EnumState(STATES[k]) == k
  {
  }

  /** Distinct recognised values never share an ordinal. */
  lemma CodecsInjective(a: string, b: string)
    ensures EnumPowerState(a) >= 0 && EnumPowerState(a) == EnumPowerState(b) ==> a == b
    ensures EnumHealth(a) >= 0 && EnumHealth(a) == EnumHealth(b) ==> a == b
    ensures EnumState(a) >= 0 && EnumState(a) == EnumState(b) ==> a == b
  {
  }

  function HealthHelp(what: string): string
  {
    what + " health; 0: OK, 1: Warning, 2: Critical"
  }

  function StateHelp(what: string): string
  {
    what + " state; " + STATE_LEGEND
  }

  /** The state ordinals as the help text lists them (split only to keep each literal short). */
  const STATE_LEGEND := STATE_LEGEND_0 + STATE_LEGEND_1 + STATE_LEGEND_2
  const STATE_LEGEND_0 := "0: Disabled, 1: Enabled, 2: StandbyOffline, "
  const STATE_LEGEND_1 := "3: StandbySpare, 4: InTest, 5: Starting, 6: Absent, "
  const STATE_LEGEND_2 := "7: UnavailableOffline, 8: Deferring, 9: Quiesced, 10: Updating"

  /**
   * The health-then-state pair every resource ends with: metrics
   * `<prefix>health` and `<prefix>state` of the subsystem, each only when its
   * codec recognises the value.
   */
  function StatusSamples(subsystem: string, prefix: string, what: string, labels: map<string, string>, status: Status): seq<Sample>
  {
    CodeSample(EnumHealth(status.health), subsystem, prefix + "health", HealthHelp(what), labels)
    + CodeSample(EnumState(status.state), subsystem, prefix + "state", StateHelp(what), labels)
  }

  /** No fabricated ordinals: a health (state) sample exists exactly when the health (state) is known. */
  lemma StatusSuppression(subsystem: string, prefix: string, what: string, labels: map<string, string>, status: Status)
    ensures var r := StatusSamples(subsystem, prefix, what, labels, status);
      && ((exists s :: s in r && s.name == BuildFQName(NAMESPACE, subsystem, prefix + "health")) <==> status.health in HEALTHS)
      && ((exists s :: s in r && s.name == BuildFQName(NAMESPACE, subsystem, prefix + "state")) <==> status.state in STATES)
      && |r| == (if status.health in HEALTHS then 1 else 0) + (if status.state in STATES then 1 else 0)
      && (forall s :: s in r ==> 0.0 <= s.value <= 10.0)
      && forall s :: s in r ==>
           s.name == BuildFQName(NAMESPACE, subsystem, prefix + "health") || s.name == BuildFQName(NAMESPACE, subsystem, prefix + "state")
  {
    var r := StatusSamples(subsystem, prefix, what, labels, status);
    var h := CodeSample(EnumHealth(status.health), subsystem, prefix + "health", HealthHelp(what), labels);
    var st := CodeSample(EnumState(status.state), subsystem, prefix + "state", StateHelp(what), labels);
    assert r == h + st;
    assert |BuildFQName(NAMESPACE, subsystem, prefix + "health")| != |BuildFQName(NAMESPACE, subsystem, prefix + "state")|;
  }

  /** A health-then-state pair carries only its prefix's two names. */
  lemma StatusNames(subsystem: string, prefix: string, what: string, labels: map<string, string>, status: Status)
    ensures forall x :: x in StatusSamples(subsystem, prefix, what, labels, status) ==>
      x.name == BuildFQName(NAMESPACE, subsystem, prefix + "health") || x.name == BuildFQName(NAMESPACE, subsystem, prefix + "state")
  {
    CodeSampleNamed(EnumHealth(status.health), subsystem, prefix + "health", HealthHelp(what), labels);
    CodeSampleNamed(EnumState(status.state), subsystem, prefix + "state", StateHelp(what), labels);
  }

  /** Two health-then-state pairs under one prefix carry only that prefix's two names, whatever their subjects. */
  lemma StatusPairsNamed(subsystem: string, prefix: string, first: string, second: string, labels: map<string, string>, a: Status, b: Status)
    ensures forall x :: x in StatusSamples(subsystem, prefix, first, labels, a) + StatusSamples(subsystem, prefix, second, labels, b) ==>
      x.name == BuildFQName(NAMESPACE, subsystem, prefix + "health") || x.name == BuildFQName(NAMESPACE, subsystem, prefix + "state")
  {
    StatusNames(subsystem, prefix, first, labels, a);
    StatusNames(subsystem, prefix, second, labels, b);
  }

  method EmitStatus(sink: Sink, subsystem: string, prefix: string, what: string, labels: map<string, string>, status: Status)
    modifies sink
    ensures sink.samples == old(sink.samples) + StatusSamples(subsystem, prefix, what, labels, status)
  {
    var health, state := EnumHealth(status.health), EnumState(status.state);
    var healthMetric, stateMetric := prefix + "health", prefix + "state";
    var healthHelp, stateHelp := HealthHelp(what), StateHelp(what);
    sink.SendCode(health, subsystem, healthMetric, healthHelp, labels);
    sink.SendCode(state, subsystem, stateMetric, stateHelp, labels);
  }
}
