/**
 * The dashboard page: the cached project list, the projects table body, the summary
 * counters, the four charts and the model feature tags, and the handlers that update them
 * once a response has arrived. Fetching itself is left out: each handler receives what
 * `fetch` and `response.json()` gave it.
 */
module App {
  import opened Wrappers
  import opened Records
  import opened Filter
  import opened Table
  import opened Charts

  /** What a handler gets back from `fetch(...)` followed by `response.json()`. */
  datatype Fetched<T> =
    | Decoded(body: T) // a successful response whose JSON body holds the fields the handler reads
    | HttpError        // an error status: `fetch` still resolves, but the body `{"detail": ...}` lacks those fields
    | NetworkError     // `fetch` rejected, or the body was not JSON

  /** At most ten feature names are shown per model. */
  const MaxFeatureTags: nat := 10

  /** `features.slice(0, 10)`: the first ten names, or all of them when there are fewer. */
  function TopFeatures(features: seq<string>): (shown: seq<string>)
    ensures |shown| == if |features| < MaxFeatureTags then |features| else MaxFeatureTags
    ensures shown <= features
  {
    if |features| < MaxFeatureTags then features else features[..MaxFeatureTags]
  }

  /** The fields of the `/model-info` response the dashboard shows as feature tags. */
  datatype ModelInfo = ModelInfo(delayFeatures: seq<string>, bottleneckFeatures: seq<string>)

  class Dashboard {
    var allProjects: Option<seq<Project>>  // None: `undefined`, stored from a body without `projects`
    var tableBody: seq<Row>
    var totalProjects: Option<int>         // None: no number shown
    var completedProjects: Option<int>
    var inProgressProjects: Option<int>
    var totalCost: Option<real>            // None: "$NaN"
    var charts: map<string, Chart>
    var delayFeatureTags: seq<string>
    var bottleneckFeatureTags: seq<string>

    /** Charts are only ever held under the four chart keys. */
    predicate Valid()
      reads this
    {
      charts.Keys <= ChartKeys
    }

    /** The four charts are held and each is drawn from `stats`: the type, region and
        complexity breakdowns in response order, and the four status counts. */
    predicate ChartsShow(stats: StatsPayload)
      reads this, charts.Values
    {
      && charts.Keys == ChartKeys
      && charts[TypeKey].kind == Doughnut
      && charts[TypeKey].labels == Labels(stats.projectsByType)
      && charts[TypeKey].values == Values(stats.projectsByType)
      && charts[RegionKey].kind == Bar
      && charts[RegionKey].labels == Labels(stats.projectsByRegion)
      && charts[RegionKey].values == Values(stats.projectsByRegion)
      && charts[ComplexityKey].kind == Pie
      && charts[ComplexityKey].labels == Labels(stats.projectsByComplexity)
      && charts[ComplexityKey].values == Values(stats.projectsByComplexity)
      && charts[StatusKey].kind == Doughnut
      && charts[StatusKey].labels == StatusLabels
      && charts[StatusKey].values == StatusValues(stats)
    }

    /** The page as first loaded: an empty cache, nothing drawn. */
    constructor ()
      ensures Valid()
      ensures allProjects == Some([]) && tableBody == [] && charts == map[]
      ensures totalProjects == None && completedProjects == None && inProgressProjects == None && totalCost == None
      ensures delayFeatureTags == [] && bottleneckFeatureTags == []
    {
      allProjects := Some([]);
      tableBody := [];
      totalProjects := None;
      completedProjects := None;
      inProgressProjects := None;
      totalCost := None;
      charts := map[];
      delayFeatureTags := [];
      bottleneckFeatureTags := [];
    }

    /** `loadProjects` once the response is in. A decoded list replaces the cache and is
        shown in full (an empty one as the "No projects found" row). An error status stores
        `undefined` in the cache and rendering it throws; a failed request keeps the cache.
        Either failure leaves the single error row. */
    method LoadProjects(response: Fetched<seq<Project>>)
      modifies this`allProjects, this`tableBody
      ensures response.Decoded? ==> allProjects == Some(response.body)
      ensures response.Decoded? ==> tableBody == RenderProjectsTable(response.body)
      ensures response.Decoded? ==> TableProjects(tableBody) == response.body
      ensures response.Decoded? && response.body == [] ==> tableBody == [MessageRow(ColumnCount, NoProjectsMessage)]
      ensures response.HttpError? ==> allProjects == None
      ensures response.NetworkError? ==> allProjects == old(allProjects)
      ensures !response.Decoded? ==> tableBody == [MessageRow(ColumnCount, LoadFailedMessage)]
    {
      match response
      case Decoded(ps) =>
        allProjects := Some(ps);
        tableBody := RenderProjectsTable(ps);
        TableShowsProjects(ps);
      case HttpError =>
        allProjects := None;
        tableBody := [MessageRow(ColumnCount, LoadFailedMessage)];
      case NetworkError =>
        tableBody := [MessageRow(ColumnCount, LoadFailedMessage)];
    }

    /** `filterProjects`: the table shows the matching records of the full cache, in cache
        order, each as often as the cache holds it; the cache itself is untouched. With
        `undefined` in the cache the handler throws before rendering (`rendered` is false)
        and the table is left as it was. */
    method FilterProjects(searchValue: string, statusValue: string) returns (rendered: bool)
      modifies this`tableBody
      ensures rendered <==> allProjects.Some?
      ensures !rendered ==> tableBody == old(tableBody)
      ensures rendered ==> tableBody == RenderProjectsTable(Filter.FilterProjects(allProjects.value, searchValue, statusValue))
      ensures rendered ==> var shown := TableProjects(tableBody);
        && IsSubsequence(shown, allProjects.value)
        && (forall p :: p in shown ==> Keep(p, Text.ToLower(searchValue), statusValue))
        && (forall p :: Keep(p, Text.ToLower(searchValue), statusValue) ==> multiset(shown)[p] == multiset(allProjects.value)[p])
      ensures rendered && searchValue == "" && statusValue == "" ==> TableProjects(tableBody) == allProjects.value
    {
      if allProjects.None? {
        return false;
      }
      var all := allProjects.value;
      var filtered := Filter.FilterProjects(all, searchValue, statusValue);
      tableBody := RenderProjectsTable(filtered);
      TableShowsProjects(filtered);
      FilterSpec(all, searchValue, statusValue);
      if searchValue == "" && statusValue == "" {
        FilterEmptyCriteria(all);
      }
      rendered := true;
    }

    /** `Object.values(charts).forEach(chart => chart?.destroy())`: every chart held is
        destroyed; the map keeps holding them. */
    method DestroyHeld()
      modifies charts.Values
      ensures forall c :: c in charts.Values ==> c.destroyed
    {
      var held := charts.Values;
      while held != {}
        invariant held <= charts.Values
        invariant forall c :: c in charts.Values - held ==> c.destroyed
        decreases |held|
      {
        var c :| c in held;
        c.Destroy();
        held := held - {c};
      }
    }

    /** `createCharts`: every chart held so far is destroyed, then four new charts are
        installed under the four chart keys, drawn from the statistics. */
    method CreateCharts(stats: StatsPayload)
      requires Valid()
      modifies this`charts, charts.Values
      ensures Valid() && ChartsShow(stats)
      ensures forall c :: c in old(charts.Values) ==> c.destroyed
      ensures forall k :: k in charts ==> fresh(charts[k]) && !charts[k].destroyed
    {
      DestroyHeld();
      var typeChart := new Chart(Doughnut, "typeChart", Labels(stats.projectsByType), Values(stats.projectsByType));
      var regionChart := new Chart(Bar, "regionChart", Labels(stats.projectsByRegion), Values(stats.projectsByRegion));
      var complexityChart := new Chart(Pie, "complexityChart", Labels(stats.projectsByComplexity), Values(stats.projectsByComplexity));
      var statusChart := new Chart(Doughnut, "statusChart", StatusLabels, StatusValues(stats));
      charts := charts[TypeKey := typeChart][RegionKey := regionChart][ComplexityKey := complexityChart][StatusKey := statusChart];
    }

    /** `loadStatistics` once the response is in. A decoded payload fills the counters and
        rebuilds the charts. With an error status the counters show nothing and "$NaN", every
        held chart is destroyed, and reading the missing breakdown throws before any new chart
        is built. A failed request changes nothing. */
    method LoadStatistics(response: Fetched<StatsPayload>)
      requires Valid()
      modifies this`totalProjects, this`completedProjects, this`inProgressProjects, this`totalCost
      modifies this`charts, charts.Values
      ensures Valid()
      ensures response.Decoded? ==>
        && totalProjects == Some(response.body.totalProjects)
        && completedProjects == Some(response.body.completedProjects)
        && inProgressProjects == Some(response.body.inProgressProjects)
        && totalCost == Some(response.body.totalCost)
        && ChartsShow(response.body)
        && (forall c :: c in old(charts.Values) ==> c.destroyed)
        && (forall k :: k in charts ==> fresh(charts[k]) && !charts[k].destroyed)
      ensures response.HttpError? ==>
        && totalProjects == None && completedProjects == None && inProgressProjects == None && totalCost == None
        && charts == old(charts)
        && (forall c :: c in charts.Values ==> c.destroyed)
      ensures response.NetworkError? ==>
        && charts == old(charts) && totalProjects == old(totalProjects)
        && completedProjects == old(completedProjects) && inProgressProjects == old(inProgressProjects)
        && totalCost == old(totalCost)
        && (forall c :: c in charts.Values ==> c.destroyed == old(c.destroyed))
    {
      match response
      case Decoded(stats) =>
        totalProjects := Some(stats.totalProjects);
        completedProjects := Some(stats.completedProjects);
        inProgressProjects := Some(stats.inProgressProjects);
        totalCost := Some(stats.totalCost);
        CreateCharts(stats);
      case HttpError =>
        totalProjects, completedProjects, inProgressProjects, totalCost := None, None, None, None;
        DestroyHeld();
      case NetworkError =>
    }

    /** `loadModelInfo` once the response is in: each model shows its first ten feature
        names. On either failure the handler throws before writing and nothing changes. */
    method LoadModelInfo(response: Fetched<ModelInfo>)
      modifies this`delayFeatureTags, this`bottleneckFeatureTags
      ensures response.Decoded? ==> delayFeatureTags == TopFeatures(response.body.delayFeatures)
      ensures response.Decoded? ==> bottleneckFeatureTags == TopFeatures(response.body.bottleneckFeatures)
      ensures !response.Decoded? ==> delayFeatureTags == old(delayFeatureTags)
      ensures !response.Decoded? ==> bottleneckFeatureTags == old(bottleneckFeatureTags)
    {
      if response.Decoded? {
        delayFeatureTags := TopFeatures(response.body.delayFeatures);
        bottleneckFeatureTags := TopFeatures(response.body.bottleneckFeatures);
      }
    }
  }
}
