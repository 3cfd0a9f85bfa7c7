/**
 * The metrics collector of `rustline`: pipeline metrics recorded by
 * pipeline name, one entry per name, the latest recording winning.
 */
module RustlineMetrics {
  import opened Wrappers
  import opened Durations

  datatype PipelineMetrics = PipelineMetrics(
    pipelineName: string, duration: Duration, stageCount: nat, successfulStages: nat, failedStages: nat)

  type Collected = map<string, PipelineMetrics>

  /** Every entry is filed under its own pipeline name. */
  predicate WellKeyed(m: Collected) {
    forall name :: name in m ==> m[name].pipelineName == name
  }

  /** `record`: the metrics replace any earlier entry of the same pipeline name. */
  function Recorded(m: Collected, x: PipelineMetrics): (r: Collected)
    ensures WellKeyed(m) ==> WellKeyed(r)
    ensures r.Keys == m.Keys + {x.pipelineName}
  {
    m[x.pipelineName := x]
  }

  /** `get`. */
  function Lookup(m: Collected, name: string): (r: Option<PipelineMetrics>)
    ensures r.Some? <==> name in m
    ensures r.Some? ==> r.value == m[name]
  {
    if name in m then Some(m[name]) else None
  }

  /** A recording is what `get` then returns for its name; other names are untouched; the later of two recordings wins. */
  lemma RecordThenGet(m: Collected, x: PipelineMetrics, y: PipelineMetrics, other: string)
    ensures Lookup(Recorded(m, x), x.pipelineName) == Some(x)
    ensures other != x.pipelineName ==> Lookup(Recorded(m, x), other) == Lookup(m, other)
    ensures y.pipelineName == x.pipelineName ==> Lookup(Recorded(Recorded(m, x), y), x.pipelineName) == Some(y)
  {
  }

  /** The collector after recording each metrics of a list in turn. */
  function RecordAll(m: Collected, xs: seq<PipelineMetrics>): Collected
    decreases |xs|
  {
    if xs == [] then m else RecordAll(Recorded(m, xs[0]), xs[1..])
  }

  /** The pipeline names of a list of metrics. */
  function Names(xs: seq<PipelineMetrics>): set<string>
    decreases |xs|
  {
    if xs == [] then {} else {xs[0].pipelineName} + Names(xs[1..])
  }

  /** Whether `xs[i]` is the last recording of its name in the list. */
  predicate IsLastOfName(xs: seq<PipelineMetrics>, i: nat) {
    i < |xs| && forall j :: i < j < |xs| ==> xs[j].pipelineName != xs[i].pipelineName
  }

  /** After recording a list there is one entry per name recorded, before or in the list. */
  lemma {:induction false} RecordAllKeys(m: Collected, xs: seq<PipelineMetrics>)
    ensures RecordAll(m, xs).Keys == m.Keys + Names(xs)
    decreases |xs|
  {
    if xs != [] {
      RecordAllKeys(Recorded(m, xs[0]), xs[1..]);
    }
  }

  /** After recording a list, each name holds the last recording of that name. */
  lemma {:induction false} RecordAllLast(m: Collected, xs: seq<PipelineMetrics>, i: nat)
    requires IsLastOfName(xs, i)
    ensures xs[i].pipelineName in RecordAll(m, xs) && RecordAll(m, xs)[xs[i].pipelineName] == xs[i]
    decreases |xs|
  {
    var rest := xs[1..];
    if i > 0 {
      assert rest[i - 1] == xs[i];
      assert IsLastOfName(rest, i - 1) by {
        forall j | i - 1 < j < |rest|
          ensures rest[j].pipelineName != rest[i - 1].pipelineName
        {
          assert rest[j] == xs[j + 1];
        }
      }
      RecordAllLast(Recorded(m, xs[0]), rest, i - 1);
    } else {
      forall j | 0 <= j < |rest|
        ensures rest[j].pipelineName != xs[0].pipelineName
      {
        assert rest[j] == xs[j + 1];
      }
      NotRecordedKeeps(Recorded(m, xs[0]), rest, xs[0].pipelineName);
    }
  }

  /** A name no recording of a list carries keeps its entry. */
  lemma {:induction false} NotRecordedKeeps(m: Collected, xs: seq<PipelineMetrics>, name: string)
    requires name in m
    requires forall j :: 0 <= j < |xs| ==> xs[j].pipelineName != name
    ensures name in RecordAll(m, xs) && RecordAll(m, xs)[name] == m[name]
    decreases |xs|
  {
    if xs != [] {
      NotRecordedKeeps(Recorded(m, xs[0]), xs[1..], name);
    }
  }

  /** `MetricsCollector`. */
  class MetricsCollector {
    var metrics: Collected

    predicate Valid()
      reads this
    {
      WellKeyed(metrics)
    }

    constructor ()
      ensures Valid() && metrics == map[]
    {
      metrics := map[];
    }

    method Record(x: PipelineMetrics)
      requires Valid()
      modifies this
      ensures Valid() && metrics == Recorded(old(metrics), x)
    {
      metrics := metrics[x.pipelineName := x];
    }

    function Get(name: string): (r: Option<PipelineMetrics>)
      reads this
      ensures r == Lookup(metrics, name)
    {
      if name in metrics then Some(metrics[name]) else None
    }

    /** `get_all`: one entry per recorded name, in the map's own (unspecified) order. */
    method GetAll() returns (all: seq<PipelineMetrics>)
      requires Valid()
      ensures |all| == |metrics.Keys|
      ensures forall i, j :: 0 <= i < j < |all| ==> all[i].pipelineName != all[j].pipelineName
      ensures forall i :: 0 <= i < |all| ==> all[i].pipelineName in metrics && metrics[all[i].pipelineName] == all[i]
      ensures forall name :: name in metrics ==> metrics[name] in all
    {
      all := [];
      var left := metrics.Keys;
      while left != {}
        invariant left <= metrics.Keys
        invariant |all| + |left| == |metrics.Keys|
        invariant forall i :: 0 <= i < |all| ==> all[i].pipelineName in metrics.Keys - left
        invariant forall i :: 0 <= i < |all| ==> metrics[all[i].pipelineName] == all[i]
        invariant forall name :: name in metrics.Keys - left ==> metrics[name] in all
        invariant forall i, j :: 0 <= i < j < |all| ==> all[i].pipelineName != all[j].pipelineName
        decreases |left|
      {
        var name :| name in left;
        assert forall i :: 0 <= i < |all| ==> all[i].pipelineName != name;
        assert forall i :: 0 <= i < |all| ==> (all + [metrics[name]])[i] == all[i];
        all := all + [metrics[name]];
        left := left - {name};
      }
    }
  }
}
