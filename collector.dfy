/**
 * The scrape of one endpoint: connect, run the chassis, system and manager
 * collectors, account for each of them, report the service as up, log out.
 */
module RedfishCollection {
  import opened Wrappers
  import opened Metrics
  import opened Redfish
  import ChassisCollection
  import SystemCollection
  import ManagerCollection

  /** What the client is connected with; only the endpoint is used here, for logging. */
  datatype ClientConfig = ClientConfig(endpoint: string, username: string, password: string, insecure: bool)

  const UP_HELP := "Redfish service status; 0: Down, 1: Up"
  const DURATION_HELP := "Scrape duration, s"
  const SUCCESS_HELP := "Scrape success; 0: Fail, 1: Success"

  /** The entries of the collector map. */
  datatype CollectorKind = ChassisKind | SystemKind | ManagerKind
  {
    /** The entry's key, the value of the `collector` label. */
    function Name(): string
    {
      match this
      case ChassisKind => "chassis"
      case SystemKind => "system"
      case ManagerKind => "manager"
    }
  }

  /** A possible iteration order of the collector map: every entry exactly once. */
  predicate IsCollectorOrder(order: seq<CollectorKind>)
  {
    && |order| == 3
    && forall i, j :: 0 <= i < j < |order| ==> order[i] != order[j]
  }

  function UpSample(value: real): Sample
  {
    Gauge("", "up", UP_HELP, map[], value)
  }

  function DurationSample(name: string, seconds: real): Sample
  {
    Gauge("scrape", "duration_seconds", DURATION_HELP, map["collector" := name], seconds)
  }

  function SuccessSample(name: string, value: real): Sample
  {
    Gauge("scrape", "success", SUCCESS_HELP, map["collector" := name], value)
  }

  /** What the collector of entry `k` sends and returns. */
  function CollectorTrace(k: CollectorKind, client: Service, macLabel: string -> string): Trace
  {
    match k
    case ChassisKind => ChassisCollection.ChassisCollect(client)
    case SystemKind => SystemCollection.SystemCollect(client, macLabel)
    case ManagerKind => ManagerCollection.ManagerCollect(client, macLabel)
  }

  /** `execute`: the collector's samples, then its duration and its success. */
  function ExecuteSamples(k: CollectorKind, t: Trace, seconds: real): seq<Sample>
  {
    t.samples + [DurationSample(k.Name(), seconds), SuccessSample(k.Name(), if t.err.None? then 1.0 else 0.0)]
  }

  /** What each collector of `order` sends and returns, in that order. */
  function CollectorTraces(order: seq<CollectorKind>, client: Service, macLabel: string -> string): (ts: seq<Trace>)
    ensures |ts| == |order|
    ensures forall i :: 0 <= i < |order| ==> ts[i] == CollectorTrace(order[i], client, macLabel)
  {
    seq(|order|, i requires 0 <= i < |order| => CollectorTrace(order[i], client, macLabel))
  }

  /** The collectors' blocks one after the other, none stopping the next. */
  function ExecutionsSamples(order: seq<CollectorKind>, ts: seq<Trace>, seconds: CollectorKind -> real): seq<Sample>
    requires |ts| == |order|
  {
    if order == [] then []
    else ExecutionsSamples(order[..|order| - 1], ts[..|order| - 1], seconds)
         + ExecuteSamples(order[|order| - 1], ts[|order| - 1], seconds(order[|order| - 1]))
  }

  /**
   * Everything a scrape sends: `up = 0` alone when the connection fails,
   * otherwise every collector's block followed by `up = 1`.
   */
  function ScrapeSamples(connection: Read<Service>, order: seq<CollectorKind>, seconds: CollectorKind -> real, macLabel: string -> string): seq<Sample>
  {
    match connection
    case Failure(_) => [UpSample(0.0)]
    case Success(client) => ExecutionsSamples(order, CollectorTraces(order, client, macLabel), seconds) + [UpSample(1.0)]
  }

  // ---- Properties ----

  const UP_NAME := BuildFQName(NAMESPACE, "", "up")
  const DURATION_NAME := BuildFQName(NAMESPACE, "scrape", "duration_seconds")
  const SUCCESS_NAME := BuildFQName(NAMESPACE, "scrape", "success")

  /** The names of the three metrics of this file. */
  lemma AccountingNames()
    ensures UP_NAME == "redfish_up"
    ensures DURATION_NAME == "redfish_scrape_duration_seconds"
    ensures SUCCESS_NAME == "redfish_scrape_success"
    ensures UP_NAME != DURATION_NAME && UP_NAME != SUCCESS_NAME && DURATION_NAME != SUCCESS_NAME
  {
  }

  /** An order of the collector map contains every entry, so every collector is run. */
  lemma OrderNamesCollectors(order: seq<CollectorKind>)
    requires IsCollectorOrder(order)
    ensures forall k: CollectorKind :: k in order
    ensures {order[0].Name(), order[1].Name(), order[2].Name()} == {"chassis", "system", "manager"}
  {
    forall k: CollectorKind ensures k in order {
      if k !in order {
        assert forall i :: 0 <= i < 3 ==> order[i] != k;
        assert false;
      }
    }
  }

  /** A failed connection sends exactly one sample, `up = 0`, and runs no collector. */
  lemma ConnectFailure(connection: Read<Service>, order: seq<CollectorKind>, seconds: CollectorKind -> real, macLabel: string -> string)
    requires IsCollectorOrder(order)
    requires connection.Failure?
    ensures var r := ScrapeSamples(connection, order, seconds, macLabel);
      |r| == 1 && r[0].name == UP_NAME && r[0].value == 0.0
  {
  }

  /**
   * After a successful connection every collector runs exactly once, in the
   * map's order, each whatever the others returned, and `up = 1` comes last.
   */
  lemma EachCollectorOnce(client: Service, order: seq<CollectorKind>, seconds: CollectorKind -> real, macLabel: string -> string)
    requires IsCollectorOrder(order)
    ensures ScrapeSamples(Success(client), order, seconds, macLabel) ==
        ExecuteSamples(order[0], CollectorTrace(order[0], client, macLabel), seconds(order[0]))
        + ExecuteSamples(order[1], CollectorTrace(order[1], client, macLabel), seconds(order[1]))
        + ExecuteSamples(order[2], CollectorTrace(order[2], client, macLabel), seconds(order[2]))
        + [UpSample(1.0)]
  {
    var ts := CollectorTraces(order, client, macLabel);
    var e0 := ExecuteSamples(order[0], ts[0], seconds(order[0]));
    var e1 := ExecuteSamples(order[1], ts[1], seconds(order[1]));
    var e2 := ExecuteSamples(order[2], ts[2], seconds(order[2]));
    assert ExecutionsSamples(order[..1], ts[..1], seconds) == e0 by {
      assert order[..1][..0] == [] && ts[..1][..0] == [];
    }
    assert ExecutionsSamples(order[..2], ts[..2], seconds) == e0 + e1 by {
      assert order[..2][..1] == order[..1] && ts[..2][..1] == ts[..1];
    }
    assert ExecutionsSamples(order, ts, seconds) == e0 + e1 + e2 by {
      assert order[..2] == order[..|order| - 1] && ts[..2] == ts[..|order| - 1];
    }
  }

  /** A successful scrape ends with `up = 1`. */
  lemma UpLast(client: Service, order: seq<CollectorKind>, seconds: CollectorKind -> real, macLabel: string -> string)
    requires IsCollectorOrder(order)
    ensures var r := ScrapeSamples(Success(client), order, seconds, macLabel);
      |r| >= 1 && r[|r| - 1].name == UP_NAME && r[|r| - 1].value == 1.0
  {
  }

  /**
   * A collector's block is its own samples, then its duration, then its
   * success, both labelled with its name; success is 1 exactly when the
   * collector returned no error, and 0 otherwise.
   */
  lemma ExecuteAccounting(k: CollectorKind, t: Trace, seconds: real)
    ensures var r := ExecuteSamples(k, t, seconds);
      && |r| == |t.samples| + 2
      && r[..|t.samples|] == t.samples
      && r[|r| - 2].name == DURATION_NAME && r[|r| - 2].value == seconds
      && r[|r| - 2].labels == map["collector" := k.Name()]
      && r[|r| - 1].name == SUCCESS_NAME && r[|r| - 1].labels == map["collector" := k.Name()]
      && (r[|r| - 1].value == 1.0 <==> t.err.None?)
      && (r[|r| - 1].value == 0.0 <==> t.err.Some?)
  {
  }

  /** The block `execute` sends, recognised after its collector's samples, its duration and its success went out one by one. */
  lemma ExecuteSent(start: seq<Sample>, k: CollectorKind, t: Trace, seconds: real, success: real, sent: seq<Sample>)
    requires success == if t.err.Some? then 0.0 else 1.0
    requires sent == start + t.samples + [DurationSample(k.Name(), seconds)] + [SuccessSample(k.Name(), success)]
    ensures sent == start + ExecuteSamples(k, t, seconds)
  {
    AppendAssoc(start, t.samples, [DurationSample(k.Name(), seconds), SuccessSample(k.Name(), success)]);
  }

  // ---- The collector ----

  class RedfishCollector {
    const config: ClientConfig
    /** The address normaliser handed to the system and manager collectors. */
    const macLabel: string -> string
    /** How many times a connected client has been logged out. */
    var logouts: nat

    constructor (config: ClientConfig, macLabel: string -> string)
      ensures this.config == config && this.macLabel == macLabel && logouts == 0
    {
      this.config := config;
      this.macLabel := macLabel;
      logouts := 0;
    }

    /**
     * One scrape. `connection` is the outcome of connecting with `config`,
     * `order` the order the collector map is walked in and `seconds` the time
     * each collector takes.
     */
    method Collect(sink: Sink, connection: Read<Service>, order: seq<CollectorKind>, seconds: CollectorKind -> real)
      requires IsCollectorOrder(order)
      modifies this, sink
      ensures sink.samples == old(sink.samples) + ScrapeSamples(connection, order, seconds, macLabel)
      ensures logouts == old(logouts) + (if connection.Success? then 1 else 0)
    {
      match connection {
        case Failure(_) =>
          sink.Send(UpSample(0.0));
        case Success(client) =>
          ghost var ts := CollectorTraces(order, client, macLabel);
          var i := 0;
          while i < |order|
            invariant 0 <= i <= |order|
            invariant sink.samples == old(sink.samples) + ExecutionsSamples(order[..i], ts[..i], seconds)
            invariant logouts == old(logouts)
          {
            Execute(sink, order[i], client, seconds(order[i]));
            assert order[..i + 1][..i] == order[..i] && ts[..i + 1][..i] == ts[..i];
            AppendAssoc(old(sink.samples), ExecutionsSamples(order[..i], ts[..i], seconds),
                        ExecuteSamples(order[i], ts[i], seconds(order[i])));
            i := i + 1;
          }
          assert order[..|order|] == order && ts[..|order|] == ts;
          sink.Send(UpSample(1.0));
          logouts := logouts + 1;
      }
    }

    /** `execute`: runs one collector and sends its duration and success. */
    method Execute(sink: Sink, k: CollectorKind, client: Service, seconds: real)
      modifies sink
      ensures sink.samples == old(sink.samples) + ExecuteSamples(k, CollectorTrace(k, client, macLabel), seconds)
    {
      var name := k.Name();
      ghost var t := CollectorTrace(k, client, macLabel);
      var err := RunCollector(sink, k, client);
      var success := 1.0;
      if err.Some? {
        success := 0.0;
      }
      ghost var collected := sink.samples;
      sink.Send(DurationSample(name, seconds));
      sink.Send(SuccessSample(name, success));
      ExecuteSent(old(sink.samples), k, t, seconds, success, sink.samples);
    }

    /** The collector map's entry `k`, and its `Collect`. */
    method RunCollector(sink: Sink, k: CollectorKind, client: Service) returns (err: Option<string>)
      modifies sink
      ensures sink.samples == old(sink.samples) + CollectorTrace(k, client, macLabel).samples
      ensures err == CollectorTrace(k, client, macLabel).err
    {
      match k {
        case ChassisKind =>
          var collector := new ChassisCollection.ChassisCollector(client);
          err := collector.Collect(sink);
        case SystemKind =>
          var collector := new SystemCollection.SystemCollector(client, macLabel);
          err := collector.Collect(sink);
        case ManagerKind =>
          var collector := new ManagerCollection.ManagerCollector(client, macLabel);
          err := collector.Collect(sink);
      }
    }
  }
}
