/**
 * Samples, the sink they are sent to, and the bookkeeping for a traversal
 * that may stop at the first failed read.
 */
module Metrics {
  import opened Wrappers

  /** The metric namespace shared by every collector (collector/collector.go). */
  const NAMESPACE := "redfish"

  /** One observation: fully qualified name, help text, label set, value (always a gauge). */
  datatype Sample = Sample(name: string, help: string, labels: map<string, string>, value: real)

  /**
   * The Prometheus client's name builder: the non-empty parts joined by `_`,
   * and no name at all when the metric name itself is empty.
   */
  function BuildFQName(namespace: string, subsystem: string, name: string): string
  {
    if name == "" then ""
    else if namespace != "" && subsystem != "" then namespace + "_" + subsystem + "_" + name
    else if namespace != "" then namespace + "_" + name
    else if subsystem != "" then subsystem + "_" + name
    else name
  }

  /** The parts that are not empty, joined by `_`. */
  function JoinNonEmpty(parts: seq<string>): string
  {
    if parts == [] then ""
    else
      var rest := JoinNonEmpty(parts[1..]);
      if parts[0] == "" then rest
      else if rest == "" then parts[0]
      else parts[0] + "_" + rest
  }

  /** The name builder is the join of the non-empty parts, once the metric name is given. */
  lemma BuildFQNameJoinsParts(namespace: string, subsystem: string, name: string)
    ensures BuildFQName(namespace, subsystem, name) == if name == "" then "" else JoinNonEmpty([namespace, subsystem, name])
  {
    if name != "" {
      var parts := [namespace, subsystem, name];
      assert parts[1..] == [subsystem, name];
      assert [subsystem, name][1..] == [name];
      assert [name][1..] == [];
      assert JoinNonEmpty([name]) == name;
      var tail := if subsystem == "" then name else subsystem + "_" + name;
      assert JoinNonEmpty([subsystem, name]) == tail;
      assert JoinNonEmpty(parts) == if namespace == "" then tail else namespace + "_" + tail;
    }
  }

  /** Within one subsystem of the namespace, distinct metric names give distinct full names. */
  lemma BuildFQNameInjective(subsystem: string, a: string, b: string)
    requires a != "" && b != ""
    ensures BuildFQName(NAMESPACE, subsystem, a) == BuildFQName(NAMESPACE, subsystem, b) <==> a == b
  {
    var prefix := if subsystem != "" then NAMESPACE + "_" + subsystem + "_" else NAMESPACE + "_";
    assert BuildFQName(NAMESPACE, subsystem, a) == prefix + a;
    assert BuildFQName(NAMESPACE, subsystem, b) == prefix + b;
    if prefix + a == prefix + b {
      assert a == (prefix + a)[|prefix|..];
      assert b == (prefix + b)[|prefix|..];
    }
  }

  /** A gauge sample named `redfish_<subsystem>_<metric>`. */
  function Gauge(subsystem: string, metric: string, help: string, labels: map<string, string>, value: real): Sample
  {
    Sample(BuildFQName(NAMESPACE, subsystem, metric), help, labels, value)
  }

  /**
   * The sample guarded by `if e := enum...(x); e >= 0 { ch <- ... }`: present
   * exactly when the codec recognised its input, and then carrying the ordinal.
   */
  function CodeSample(code: int, subsystem: string, metric: string, help: string, labels: map<string, string>): seq<Sample>
  {
    if code >= 0 then [Gauge(subsystem, metric, help, labels, code as real)] else []
  }

  /** What a guarded sample carries: its own full name, the code as its value, and the given labels. */
  lemma CodeSampleNamed(code: int, subsystem: string, metric: string, help: string, labels: map<string, string>)
    ensures (exists x :: x in CodeSample(code, subsystem, metric, help, labels) && x.name == BuildFQName(NAMESPACE, subsystem, metric)) <==> code >= 0
    ensures forall x :: x in CodeSample(code, subsystem, metric, help, labels) ==>
      x.name == BuildFQName(NAMESPACE, subsystem, metric) && x.value == code as real && x.labels == labels
  {
    if code >= 0 {
      assert Gauge(subsystem, metric, help, labels, code as real) in CodeSample(code, subsystem, metric, help, labels);
    }
  }

  /**
   * A guarded sample between samples of other names: its name is present in
   * the whole exactly when the code is known, and every sample of that name
   * carries the code and the given labels.
   */
  lemma CodeSampleAmid(before: seq<Sample>, code: int, subsystem: string, metric: string, help: string,
                       labels: map<string, string>, after: seq<Sample>)
    requires forall x :: x in before ==> x.name != BuildFQName(NAMESPACE, subsystem, metric)
    requires forall x :: x in after ==> x.name != BuildFQName(NAMESPACE, subsystem, metric)
    ensures var r, name := before + CodeSample(code, subsystem, metric, help, labels) + after, BuildFQName(NAMESPACE, subsystem, metric);
      && ((exists x :: x in r && x.name == name) <==> code >= 0)
      && (forall x :: x in r && x.name == name ==> x.value == code as real && x.labels == labels)
  {
    CodeSampleNamed(code, subsystem, metric, help, labels);
  }

  /** The output channel of a scrape: everything sent so far, in order. */
  class Sink {
    var samples: seq<Sample>

    constructor ()
      ensures samples == []
    {
      samples := [];
    }

    method Send(m: Sample)
      modifies this
      ensures samples == old(samples) + [m]
    {
      samples := samples + [m];
    }

    /** Sends the guarded sample of `CodeSample`, or nothing when the code is the sentinel. */
    method SendCode(code: int, subsystem: string, metric: string, help: string, labels: map<string, string>)
      modifies this
      ensures samples == old(samples) + CodeSample(code, subsystem, metric, help, labels)
    {
      if code >= 0 {
        Send(Gauge(subsystem, metric, help, labels, code as real));
      }
    }
  }

  /** Appending to the sink in two steps is appending once; stated on bare sequences so that no sample is unfolded. */
  lemma AppendAssoc(a: seq<Sample>, b: seq<Sample>, c: seq<Sample>)
    ensures a + (b + c) == (a + b) + c
  {
  }

  /** Sending two samples one by one appends them as a block. */
  lemma SentTwo(o: seq<Sample>, a: Sample, b: Sample)
    ensures o + [a] + [b] == o + [a, b]
  {
  }

  /** Sending three samples one by one appends them as a block. */
  lemma SentThree(o: seq<Sample>, a: Sample, b: Sample, c: Sample)
    ensures o + [a] + [b] + [c] == o + [a, b, c]
  {
  }

  /** Sending five samples one by one appends them as a block. */
  lemma SentFive(o: seq<Sample>, a: Sample, b: Sample, c: Sample, d: Sample, e: Sample)
    ensures o + [a] + [b] + [c] + [d] + [e] == o + [a, b, c, d, e]
  {
  }

  /** Sending six samples one by one appends them as a block. */
  lemma SentSix(o: seq<Sample>, a: Sample, b: Sample, c: Sample, d: Sample, e: Sample, f: Sample)
    ensures o + [a] + [b] + [c] + [d] + [e] + [f] == o + [a, b, c, d, e, f]
  {
  }

  /** The message every collector wraps a failed read in. */
  function ErrorCollecting(path: string, cause: string): string
  {
    "error collecting " + path + ": " + cause
  }

  /**
   * What a (part of a) traversal produced: the samples sent, and the error it
   * returned, if any. After an error nothing more is sent.
   */
  datatype Trace = Trace(samples: seq<Sample>, err: Option<string>) {

    /** Sequencing with early return: a failed trace ignores what would come next. */
    function Then(next: Trace): Trace
    {
      if err.Some? then this else Trace(samples + next.samples, next.err)
    }
  }

  function Emitted(samples: seq<Sample>): Trace
  {
    Trace(samples, None)
  }

  function Failed(message: string): Trace
  {
    Trace([], Some(message))
  }

  /** The traces of the iterations of a loop with early return, run one after the other. */
  function ThenAll(ts: seq<Trace>): Trace
  {
    if ts == [] then Emitted([]) else ThenAll(ts[..|ts| - 1]).Then(ts[|ts| - 1])
  }

  /** Sequencing is associative, so a walk may be grouped part by part. */
  lemma ThenAssociative(a: Trace, b: Trace, c: Trace)
    ensures a.Then(b).Then(c) == a.Then(b.Then(c))
  {
  }

  /** Sending nothing and not failing is the unit of sequencing, on either side. */
  lemma ThenIdentity(t: Trace)
    ensures Emitted([]).Then(t) == t
    ensures t.Then(Emitted([])) == t
  {
  }

  /** A walk over two lists one after the other is the first walk, then the second. */
  lemma {:induction false} ThenAllConcat(xs: seq<Trace>, ys: seq<Trace>)
    ensures ThenAll(xs + ys) == ThenAll(xs).Then(ThenAll(ys))
    decreases |ys|
  {
    if ys == [] {
      assert xs + ys == xs;
      ThenIdentity(ThenAll(xs));
    } else {
      var init, last := ys[..|ys| - 1], ys[|ys| - 1];
      assert (xs + ys)[..|xs + ys| - 1] == xs + init;
      ThenAllConcat(xs, init);
      ThenAssociative(ThenAll(xs), ThenAll(init), last);
    }
  }

  /** The samples of a list of traces, all of them. */
  function AllSamples(ts: seq<Trace>): seq<Sample>
  {
    if ts == [] then [] else AllSamples(ts[..|ts| - 1]) + ts[|ts| - 1].samples
  }

  lemma ThenAllStep(ts: seq<Trace>, i: nat)
    requires i < |ts|
    ensures ThenAll(ts[..i + 1]) == ThenAll(ts[..i]).Then(ts[i])
  {
    assert ts[..i + 1][..i] == ts[..i];
  }

  /** Once an iteration has failed, the later iterations contribute nothing. */
  lemma {:induction false} ThenAllAbsorbs(ts: seq<Trace>, i: nat)
    requires i <= |ts|
    requires ThenAll(ts[..i]).err.Some?
    ensures ThenAll(ts) == ThenAll(ts[..i])
  {
    if i < |ts| {
      assert ts[..|ts| - 1][..i] == ts[..i];
      ThenAllAbsorbs(ts[..|ts| - 1], i);
    } else {
      assert ts[..i] == ts;
    }
  }

  /** The loop succeeds exactly when every iteration does, and then it sends all their samples. */
  lemma {:induction false} ThenAllSucceeds(ts: seq<Trace>)
    ensures ThenAll(ts).err.None? <==> forall j :: 0 <= j < |ts| ==> ts[j].err.None?
    ensures ThenAll(ts).err.None? ==> ThenAll(ts).samples == AllSamples(ts)
  {
    if ts != [] {
      var init := ts[..|ts| - 1];
      ThenAllSucceeds(init);
      if ThenAll(init).err.Some? {
        var j :| 0 <= j < |init| && init[j].err.Some?;
        assert ts[j] == init[j];
      } else {
        forall j | 0 <= j < |ts| - 1 ensures ts[j].err.None? {
          assert ts[j] == init[j];
        }
      }
    }
  }

  /**
   * The first failing iteration decides the outcome: its error is returned,
   * the samples of the iterations before it and its own are kept, and no
   * later iteration sends anything.
   */
  lemma {:induction false} ThenAllFirstFailure(ts: seq<Trace>, i: nat)
    requires i < |ts|
    requires forall j :: 0 <= j < i ==> ts[j].err.None?
    requires ts[i].err.Some?
    ensures ThenAll(ts).err == ts[i].err
    ensures ThenAll(ts).samples == AllSamples(ts[..i]) + ts[i].samples
  {
    var pre := ts[..i];
    ThenAllSucceeds(pre);
    ThenAllStep(ts, i);
    ThenAllAbsorbs(ts, i + 1);
  }
}
