/** The charts of the dashboard and the `/stats` payload they are drawn from. */
module Charts {

  datatype ChartKind = Doughnut | Bar | Pie

  /** One chart object drawn on a canvas. Its data is fixed when it is built; the only thing
      that changes afterwards is whether it has been destroyed. */
  class Chart {
    const kind: ChartKind
    const canvas: string
    const labels: seq<string>
    const values: seq<int>
    var destroyed: bool

    constructor (kind: ChartKind, canvas: string, labels: seq<string>, values: seq<int>)
      ensures this.kind == kind && this.canvas == canvas
      ensures this.labels == labels && this.values == values
      ensures !destroyed
    {
      this.kind := kind;
      this.canvas := canvas;
      this.labels := labels;
      this.values := values;
      destroyed := false;
    }

    method Destroy()
      modifies this
      ensures destroyed
    {
      destroyed := true;
    }
  }

  /** A breakdown as the dashboard receives it: the entries of a JSON object, in order. */
  type Breakdown = seq<(string, int)>

  /** `Object.keys` of a breakdown. */
  function Labels(b: Breakdown): (ls: seq<string>)
    ensures |ls| == |b| && forall i :: 0 <= i < |b| ==> ls[i] == b[i].0
  {
    seq(|b|, i requires 0 <= i < |b| => b[i].0)
  }

  /** `Object.values` of a breakdown. */
  function Values(b: Breakdown): (vs: seq<int>)
    ensures |vs| == |b| && forall i :: 0 <= i < |b| ==> vs[i] == b[i].1
  {
    seq(|b|, i requires 0 <= i < |b| => b[i].1)
  }

  /** The fields of the `/stats` response that the dashboard reads. */
  datatype StatsPayload = StatsPayload(
    totalProjects: int,
    completedProjects: int,
    inProgressProjects: int,
    cancelledProjects: int,
    onHoldProjects: int,
    totalCost: real,
    projectsByType: Breakdown,
    projectsByRegion: Breakdown,
    projectsByComplexity: Breakdown)

  /** The keys under which the dashboard keeps its charts. */
  const TypeKey := "type"
  const RegionKey := "region"
  const ComplexityKey := "complexity"
  const StatusKey := "status"
  const ChartKeys: set<string> := {TypeKey, RegionKey, ComplexityKey, StatusKey}

  /** The slices of the status chart, in order. */
  const StatusLabels: seq<string> := ["Completed", "In Progress", "Cancelled", "On Hold"]

  function StatusValues(stats: StatsPayload): (vs: seq<int>)
    ensures |vs| == |StatusLabels|
  {
    [stats.completedProjects, stats.inProgressProjects, stats.cancelledProjects, stats.onHoldProjects]
  }
}
