/** A row of the `projects` table, as `/projects` returns it and the dashboard caches it. */
module Records {

  datatype Project = Project(
    name: string,              // project_name
    projectType: string,       // project_type
    status: string,            // e.g. "Completed", "In - Progress", "On - Hold"
    completionPercent: real,   // completionpercent, 0..100
    cost: real,                // project_cost
    benefit: real,             // project_benefit
    region: string,
    complexity: string)

  /** The `status` column of a list of records, in record order. */
  function Statuses(rs: seq<Project>): (col: seq<string>)
    ensures |col| == |rs| && forall i :: 0 <= i < |rs| ==> col[i] == rs[i].status
  {
    seq(|rs|, i requires 0 <= i < |rs| => rs[i].status)
  }

  /** The `project_type` column. */
  function Types(rs: seq<Project>): (col: seq<string>)
    ensures |col| == |rs| && forall i :: 0 <= i < |rs| ==> col[i] == rs[i].projectType
  {
    seq(|rs|, i requires 0 <= i < |rs| => rs[i].projectType)
  }

  /** The `region` column. */
  function Regions(rs: seq<Project>): (col: seq<string>)
    ensures |col| == |rs| && forall i :: 0 <= i < |rs| ==> col[i] == rs[i].region
  {
    seq(|rs|, i requires 0 <= i < |rs| => rs[i].region)
  }

  /** The `complexity` column. */
  function Complexities(rs: seq<Project>): (col: seq<string>)
    ensures |col| == |rs| && forall i :: 0 <= i < |rs| ==> col[i] == rs[i].complexity
  {
    seq(|rs|, i requires 0 <= i < |rs| => rs[i].complexity)
  }
}
