/**
 * The manager collector: every manager (its three console services, power
 * state and status), then its ethernet interfaces.
 */
module ManagerCollection {
  import opened Wrappers
  import opened Metrics
  import opened Common
  import opened Redfish
  import SystemCollection

  const SUBSYSTEM := "manager"

  /** The subsystem the health and state of a manager's interfaces are filed under. */
  const INTERFACE_STATUS_SUBSYSTEM := "system"

  function ManagerLabels(m: Manager): map<string, string>
  {
    map["id" := m.id, "name" := m.name, "manager_id" := m.id, "manager_type" := m.managerType]
  }

  const COMMAND_SHELL_HELP := "Command shell status; 0: Disabled, 1: Enabled"
  const GRAPHICAL_CONSOLE_HELP := "Graphical console status; 0: Disabled, 1: Enabled"
  const SERIAL_CONSOLE_HELP := "Serial console status; 0: Disabled, 1: Enabled"
  const MANAGER_POWER_HELP := "Manager power state; 0: Off, 1: On, 2: PoweringOn, 3: PoweringOff"

  /** The three console services, always sent. */
  function ServiceSamples(m: Manager): seq<Sample>
  {
    var labels := ManagerLabels(m);
    [ Gauge(SUBSYSTEM, "command_shell_status", COMMAND_SHELL_HELP, labels, Btof(m.commandShellEnabled)),
      Gauge(SUBSYSTEM, "console_graphical_status", GRAPHICAL_CONSOLE_HELP, labels, Btof(m.graphicalConsoleEnabled)),
      Gauge(SUBSYSTEM, "console_serial_status", SERIAL_CONSOLE_HELP, labels, Btof(m.serialConsoleEnabled)) ]
  }

  function ManagerSamples(m: Manager): seq<Sample>
  {
    ServiceSamples(m)
    + CodeSample(EnumPowerState(m.powerState), SUBSYSTEM, "power_state", MANAGER_POWER_HELP, ManagerLabels(m))
    + StatusSamples(SUBSYSTEM, "", "Manager", ManagerLabels(m), m.status)
  }

  function InterfaceLabels(intf: EthernetInterface, managerId: string, macLabel: string -> string): map<string, string>
  {
    map["id" := intf.id, "name" := intf.name, "manager_id" := managerId,
        "interface_type" := intf.ethernetInterfaceType, "address" := macLabel(intf.macAddress)]
  }

  /** Status and speed under the manager subsystem, health and state under the system one; no link status. */
  function InterfaceSamples(intf: EthernetInterface, managerId: string, macLabel: string -> string): seq<Sample>
  {
    var labels := InterfaceLabels(intf, managerId, macLabel);
    [ Gauge(SUBSYSTEM, "ethernet_interface_status", SystemCollection.ETHERNET_ENABLED_HELP, labels, Btof(intf.interfaceEnabled)),
      Gauge(SUBSYSTEM, "ethernet_interface_speed_bytes", SystemCollection.ETHERNET_SPEED_HELP,
            labels["duplex" := SystemCollection.Duplex(intf.fullDuplex)], SystemCollection.EthernetSpeed(intf)) ]
    + StatusSamples(INTERFACE_STATUS_SUBSYSTEM, "ethernet_interface_", "Ethernet interface", labels, intf.status)
  }

  function InterfacesSamples(xs: seq<EthernetInterface>, managerId: string, macLabel: string -> string): seq<Sample>
  {
    if xs == [] then [] else InterfacesSamples(xs[..|xs| - 1], managerId, macLabel) + InterfaceSamples(xs[|xs| - 1], managerId, macLabel)
  }

  lemma InterfacesStep(xs: seq<EthernetInterface>, i: int, managerId: string, macLabel: string -> string)
    requires 0 <= i < |xs|
    ensures InterfacesSamples(xs[..i + 1], managerId, macLabel) == InterfacesSamples(xs[..i], managerId, macLabel) + InterfaceSamples(xs[i], managerId, macLabel)
  {
    assert xs[..i + 1][..i] == xs[..i];
  }

  // ---- The traversal ----

  function InterfacesPart(m: Manager, macLabel: string -> string): Trace
  {
    match m.ethernetInterfaces
    case Failure(e) => Failed(ErrorCollecting("/Managers/" + m.id + "/EthernetInterfaces", e))
    case Success(xs) => Emitted(InterfacesSamples(xs, m.id, macLabel))
  }

  /** One iteration of the manager loop: the manager, then its interfaces. */
  function ManagerTrace(m: Manager, macLabel: string -> string): Trace
  {
    Emitted(ManagerSamples(m)).Then(InterfacesPart(m, macLabel))
  }

  function ManagerTraces(xs: seq<Manager>, macLabel: string -> string): (ts: seq<Trace>)
    ensures |ts| == |xs|
    ensures forall i :: 0 <= i < |xs| ==> ts[i] == ManagerTrace(xs[i], macLabel)
  {
    seq(|xs|, i requires 0 <= i < |xs| => ManagerTrace(xs[i], macLabel))
  }

  /** What `ManagerCollector.Collect` sends and returns for a given service. */
  function ManagerCollect(client: Service, macLabel: string -> string): Trace
  {
    match client.managers
    case Failure(e) => Failed(ErrorCollecting("/Managers", e))
    case Success(xs) => ThenAll(ManagerTraces(xs, macLabel))
  }

  // ---- Properties ----

  /**
   * A manager always opens with exactly three service samples whose values
   * are the services' enabled flags as 0/1; the power state, health and
   * state follow only when their codecs recognise the value.
   */
  lemma ManagerServices(m: Manager)
    ensures var r := ManagerSamples(m);
      && |r| >= 3
      && r[0].name == BuildFQName(NAMESPACE, SUBSYSTEM, "command_shell_status") && r[0].value == Btof(m.commandShellEnabled)
      && r[1].name == BuildFQName(NAMESPACE, SUBSYSTEM, "console_graphical_status") && r[1].value == Btof(m.graphicalConsoleEnabled)
      && r[2].name == BuildFQName(NAMESPACE, SUBSYSTEM, "console_serial_status") && r[2].value == Btof(m.serialConsoleEnabled)
      && |r| == 3 + (if m.powerState in POWER_STATES then 1 else 0)
               + (if m.status.health in HEALTHS then 1 else 0) + (if m.status.state in STATES then 1 else 0)
  {
    var labels := ManagerLabels(m);
    var h := CodeSample(EnumHealth(m.status.health), SUBSYSTEM, "" + "health", HealthHelp("Manager"), labels);
    var st := CodeSample(EnumState(m.status.state), SUBSYSTEM, "" + "state", StateHelp("Manager"), labels);
    assert StatusSamples(SUBSYSTEM, "", "Manager", labels, m.status) == h + st;
  }

  /**
   * The health and state of a manager's interface are filed under the
   * system subsystem, its status and speed under the manager subsystem, and
   * no link status is sent.
   */
  lemma InterfaceNames(intf: EthernetInterface, managerId: string, macLabel: string -> string)
    ensures var r := InterfaceSamples(intf, managerId, macLabel);
      && r[0].name == BuildFQName(NAMESPACE, SUBSYSTEM, "ethernet_interface_status") && r[0].value == Btof(intf.interfaceEnabled)
      && r[1].name == BuildFQName(NAMESPACE, SUBSYSTEM, "ethernet_interface_speed_bytes")
      && r[1].value == intf.speedMbps * 131072.0
      && r[1].labels["duplex"] == (if intf.fullDuplex then "full" else "half")
      && forall x :: x in r[2..] ==>
           x.name == BuildFQName(NAMESPACE, INTERFACE_STATUS_SUBSYSTEM, "ethernet_interface_health")
           || x.name == BuildFQName(NAMESPACE, INTERFACE_STATUS_SUBSYSTEM, "ethernet_interface_state")
  {
    var labels := InterfaceLabels(intf, managerId, macLabel);
    var status := StatusSamples(INTERFACE_STATUS_SUBSYSTEM, "ethernet_interface_", "Ethernet interface", labels, intf.status);
    StatusSuppression(INTERFACE_STATUS_SUBSYSTEM, "ethernet_interface_", "Ethernet interface", labels, intf.status);
    assert "ethernet_interface_" + "health" == "ethernet_interface_health";
    assert "ethernet_interface_" + "state" == "ethernet_interface_state";
    assert InterfaceSamples(intf, managerId, macLabel)[2..] == status;
  }

  /** A failed interface read aborts after the manager's own samples, naming the manager. */
  lemma InterfacesFailure(m: Manager, macLabel: string -> string)
    requires m.ethernetInterfaces.Failure?
    ensures ManagerTrace(m, macLabel) ==
      Trace(ManagerSamples(m), Some(ErrorCollecting("/Managers/" + m.id + "/EthernetInterfaces", m.ethernetInterfaces.error)))
  {
    assert ManagerSamples(m) + [] == ManagerSamples(m);
  }

  /**
   * The manager walk stops at the first manager whose interface read fails:
   * its error is returned and the managers before it keep their samples.
   */
  lemma ManagerFirstFailure(client: Service, macLabel: string -> string, i: nat)
    requires client.managers.Success? && i < |client.managers.value|
    requires forall j :: 0 <= j < i ==> client.managers.value[j].ethernetInterfaces.Success?
    requires client.managers.value[i].ethernetInterfaces.Failure?
    ensures var m := client.managers.value[i];
      ManagerCollect(client, macLabel).err == Some(ErrorCollecting("/Managers/" + m.id + "/EthernetInterfaces", m.ethernetInterfaces.error))
    ensures ManagerCollect(client, macLabel).samples ==
      AllSamples(ManagerTraces(client.managers.value, macLabel)[..i]) + ManagerSamples(client.managers.value[i])
  {
    var ts := ManagerTraces(client.managers.value, macLabel);
    InterfacesFailure(client.managers.value[i], macLabel);
    ThenAllFirstFailure(ts, i);
  }

  // ---- The collector ----

  class ManagerCollector {
    const client: Service
    /** The address normaliser the interface labels go through. */
    const macLabel: string -> string

    constructor (client: Service, macLabel: string -> string)
      ensures this.client == client && this.macLabel == macLabel
    {
      this.client := client;
      this.macLabel := macLabel;
    }

    method Collect(sink: Sink) returns (err: Option<string>)
      modifies sink
      ensures sink.samples == old(sink.samples) + ManagerCollect(client, macLabel).samples
      ensures err == ManagerCollect(client, macLabel).err
    {
      match client.managers {
        case Failure(e) =>
          err := Some(ErrorCollecting("/Managers", e));
        case Success(managers) =>
          ghost var ts := ManagerTraces(managers, macLabel);
          var i := 0;
          while i < |managers|
            invariant 0 <= i <= |managers|
            invariant ThenAll(ts[..i]).err.None?
            invariant sink.samples == old(sink.samples) + ThenAll(ts[..i]).samples
          {
            err := CollectManager(sink, managers[i]);
            ThenAllStep(ts, i);
            AppendAssoc(old(sink.samples), ThenAll(ts[..i]).samples, ts[i].samples);
            if err.Some? {
              ThenAllAbsorbs(ts, i + 1);
              return;
            }
            i := i + 1;
          }
          assert ts[..|managers|] == ts;
          err := None;
      }
    }

    /** The body of the manager loop. */
    method CollectManager(sink: Sink, manager: Manager) returns (err: Option<string>)
      modifies sink
      ensures sink.samples == old(sink.samples) + ManagerTrace(manager, macLabel).samples
      ensures err == ManagerTrace(manager, macLabel).err
    {
      ProcessManager(sink, manager);
      match manager.ethernetInterfaces {
        case Failure(e) =>
          assert ManagerSamples(manager) + [] == ManagerSamples(manager);
          err := Some(ErrorCollecting("/Managers/" + manager.id + "/EthernetInterfaces", e));
        case Success(xs) =>
          ProcessEthernetInterfaces(sink, xs, manager.id);
          AppendAssoc(old(sink.samples), ManagerSamples(manager), InterfacesSamples(xs, manager.id, macLabel));
          err := None;
      }
    }

    method ProcessManager(sink: Sink, manager: Manager)
      modifies sink
      ensures sink.samples == old(sink.samples) + ManagerSamples(manager)
    {
      var labels := ManagerLabels(manager);
      var powerState := EnumPowerState(manager.powerState);
      var shell := Gauge(SUBSYSTEM, "command_shell_status", COMMAND_SHELL_HELP, labels, Btof(manager.commandShellEnabled));
      var graphical := Gauge(SUBSYSTEM, "console_graphical_status", GRAPHICAL_CONSOLE_HELP, labels, Btof(manager.graphicalConsoleEnabled));
      var serial := Gauge(SUBSYSTEM, "console_serial_status", SERIAL_CONSOLE_HELP, labels, Btof(manager.serialConsoleEnabled));
      sink.Send(shell);
      sink.Send(graphical);
      sink.Send(serial);
      SentThree(old(sink.samples), shell, graphical, serial);
      ghost var services := [shell, graphical, serial];
      ghost var power := CodeSample(powerState, SUBSYSTEM, "power_state", MANAGER_POWER_HELP, labels);
      ghost var status := StatusSamples(SUBSYSTEM, "", "Manager", labels, manager.status);
      sink.SendCode(powerState, SUBSYSTEM, "power_state", MANAGER_POWER_HELP, labels);
      EmitStatus(sink, SUBSYSTEM, "", "Manager", labels, manager.status);
      AppendAssoc(old(sink.samples), services, power);
      AppendAssoc(old(sink.samples), services + power, status);
      assert ManagerSamples(manager) == services + power + status;
    }

    method ProcessEthernetInterface(sink: Sink, intf: EthernetInterface, managerId: string)
      modifies sink
      ensures sink.samples == old(sink.samples) + InterfaceSamples(intf, managerId, macLabel)
    {
      var labels := InterfaceLabels(intf, managerId, macLabel);
      var speedLabels := labels["duplex" := SystemCollection.Duplex(intf.fullDuplex)];
      sink.Send(Gauge(SUBSYSTEM, "ethernet_interface_status", SystemCollection.ETHERNET_ENABLED_HELP, labels, Btof(intf.interfaceEnabled)));
      sink.Send(Gauge(SUBSYSTEM, "ethernet_interface_speed_bytes", SystemCollection.ETHERNET_SPEED_HELP, speedLabels, SystemCollection.EthernetSpeed(intf)));
      EmitStatus(sink, INTERFACE_STATUS_SUBSYSTEM, "ethernet_interface_", "Ethernet interface", labels, intf.status);
    }

    method ProcessEthernetInterfaces(sink: Sink, xs: seq<EthernetInterface>, managerId: string)
      modifies sink
      ensures sink.samples == old(sink.samples) + InterfacesSamples(xs, managerId, macLabel)
    {
      var i := 0;
      while i < |xs|
        invariant 0 <= i <= |xs|
        invariant sink.samples == old(sink.samples) + InterfacesSamples(xs[..i], managerId, macLabel)
      {
        ProcessEthernetInterface(sink, xs[i], managerId);
        InterfacesStep(xs, i, managerId, macLabel);
        AppendAssoc(old(sink.samples), InterfacesSamples(xs[..i], managerId, macLabel), InterfaceSamples(xs[i], managerId, macLabel));
        i := i + 1;
      }
      assert xs[..|xs|] == xs;
    }
  }
}
