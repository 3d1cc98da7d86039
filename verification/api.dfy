/**
 * The FastAPI backend: the `/predict` derivations (guarded ratio features, the echoed
 * `input_data`, the one-hot encoding and the alignment to the training columns) and the
 * counts of `/stats` and `/projects`. The database, the pickled models and pandas are
 * replaced by their inputs and outputs.
 */
module Api {
  import opened Wrappers
  import opened Records
  import opened Dummies

  // ---------------------------------------------------------------------------------------
  // Request body of /predict

  /** A JSON field of the request body: absent, `null`, or given. */
  datatype Field<T> = Missing | GivenNull | Present(value: T)

  /** The request body as it arrives, before validation. */
  datatype PredictionRequest = PredictionRequest(
    projectCost: Field<real>,
    projectBenefit: Field<real>,
    complexity: Field<string>,
    completionpercent: Field<real>,
    actualDurationDays: Field<real>,
    projectType: Field<string>,
    projectManager: Field<string>,
    region: Field<string>,
    department: Field<string>,
    phase: Field<string>,
    status: Field<string>)

  /** `ProjectPredictionInput` after validation; `None` is an explicit `null`. */
  datatype PredictionInput = PredictionInput(
    projectCost: real,
    projectBenefit: real,
    complexity: string,
    completionpercent: real,
    actualDurationDays: real,
    projectType: Option<string>,
    projectManager: Option<string>,
    region: Option<string>,
    department: Option<string>,
    phase: Option<string>,
    status: Option<string>)

  const DefaultProjectType := "INCOME GENERATION"
  const DefaultProjectManager := "Unknown"
  const DefaultRegion := "North"
  const DefaultDepartment := "Admin & BI"
  const DefaultPhase := "Phase 1 - Explore"
  const DefaultStatus := "In - Progress"

  /** An `Optional[str]` field with a default: the default when absent, `None` for `null`. */
  function OptionalField(f: Field<string>, default: string): (v: Option<string>)
    ensures v.None? <==> f.GivenNull?
    ensures f.Missing? ==> v == Some(default)
    ensures f.Present? ==> v == Some(f.value)
  {
    match f
    case Missing => Some(default)
    case GivenNull => None
    case Present(s) => Some(s)
  }

  /** The names of the required fields that are absent or `null`, in declaration order. */
  function MissingRequired(req: PredictionRequest): seq<string>
  {
    (if req.projectCost.Present? then [] else ["project_cost"])
    + (if req.projectBenefit.Present? then [] else ["project_benefit"])
    + (if req.complexity.Present? then [] else ["complexity"])
    + (if req.completionpercent.Present? then [] else ["completionpercent"])
    + (if req.actualDurationDays.Present? then [] else ["actual_duration_days"])
  }

  /** Validation of the body against `ProjectPredictionInput`: it fails, naming the fields,
      iff a required field is absent or `null`; otherwise the required values are taken as
      given and the optional ones get their defaults. */
  function ParseRequest(req: PredictionRequest): (r: Result<PredictionInput, seq<string>>)
    ensures r.Success? <==>
      req.projectCost.Present? && req.projectBenefit.Present? && req.complexity.Present?
      && req.completionpercent.Present? && req.actualDurationDays.Present?
    ensures r.Failure? ==> |r.error| >= 1
    ensures r.Success? ==>
      && r.value.projectCost == req.projectCost.value
      && r.value.projectBenefit == req.projectBenefit.value
      && r.value.complexity == req.complexity.value
      && r.value.completionpercent == req.completionpercent.value
      && r.value.actualDurationDays == req.actualDurationDays.value
    // an omitted optional field takes its declared default, an explicit null stays null
    ensures r.Success? ==>
      && (req.projectType.Missing? ==> r.value.projectType == Some(DefaultProjectType))
      && (req.projectManager.Missing? ==> r.value.projectManager == Some(DefaultProjectManager))
      && (req.region.Missing? ==> r.value.region == Some(DefaultRegion))
      && (req.department.Missing? ==> r.value.department == Some(DefaultDepartment))
      && (req.phase.Missing? ==> r.value.phase == Some(DefaultPhase))
      && (req.status.Missing? ==> r.value.status == Some(DefaultStatus))
      && (req.projectType.GivenNull? ==> r.value.projectType == None)
      && (req.projectManager.GivenNull? ==> r.value.projectManager == None)
      && (req.region.GivenNull? ==> r.value.region == None)
      && (req.department.GivenNull? ==> r.value.department == None)
      && (req.phase.GivenNull? ==> r.value.phase == None)
      && (req.status.GivenNull? ==> r.value.status == None)
    ensures r.Success? ==>
      && (req.projectType.Present? ==> r.value.projectType == Some(req.projectType.value))
      && (req.projectManager.Present? ==> r.value.projectManager == Some(req.projectManager.value))
      && (req.region.Present? ==> r.value.region == Some(req.region.value))
      && (req.department.Present? ==> r.value.department == Some(req.department.value))
      && (req.phase.Present? ==> r.value.phase == Some(req.phase.value))
      && (req.status.Present? ==> r.value.status == Some(req.status.value))
  {
    var missing := MissingRequired(req);
    if missing != [] then Failure(missing)
    else Success(PredictionInput(
      req.projectCost.value, req.projectBenefit.value, req.complexity.value,
      req.completionpercent.value, req.actualDurationDays.value,
      OptionalField(req.projectType, DefaultProjectType),
      OptionalField(req.projectManager, DefaultProjectManager),
      OptionalField(req.region, DefaultRegion),
      OptionalField(req.department, DefaultDepartment),
      OptionalField(req.phase, DefaultPhase),
      OptionalField(req.status, DefaultStatus)))
  }

  // ---------------------------------------------------------------------------------------
  // Derived features

  /** `completion_speed`: `completionpercent / actual_duration_days`, or 0 when the duration
      is not positive, so it never divides by zero. Multiplying back by the duration gives the
      percentage, and over at least one day the speed lies between 0 and the percentage. */
  function CompletionSpeed(completionpercent: real, actualDurationDays: real): (speed: real)
    ensures actualDurationDays > 0.0 ==> speed * actualDurationDays == completionpercent
    ensures actualDurationDays <= 0.0 ==> speed == 0.0
    ensures completionpercent >= 0.0 && actualDurationDays >= 1.0 ==> 0.0 <= speed <= completionpercent
  {
    if actualDurationDays > 0.0 then
      var speed := completionpercent / actualDurationDays;
      assert speed * actualDurationDays == completionpercent;
      assert completionpercent - speed == speed * (actualDurationDays - 1.0);
      speed
    else 0.0
  }

  /** `cost_efficiency`: `project_benefit / project_cost`, or 0 when the cost is not positive.
      For a positive cost it exceeds 1 exactly when the benefit exceeds the cost. */
  function CostEfficiency(projectBenefit: real, projectCost: real): (efficiency: real)
    ensures projectCost > 0.0 ==> efficiency * projectCost == projectBenefit
    ensures projectCost <= 0.0 ==> efficiency == 0.0
    ensures projectCost > 0.0 ==> (efficiency > 1.0 <==> projectBenefit > projectCost)
  {
    if projectCost > 0.0 then
      var efficiency := projectBenefit / projectCost;
      assert efficiency * projectCost == projectBenefit;
      assert (efficiency - 1.0) * projectCost == projectBenefit - projectCost;
      assert efficiency > 1.0 ==> (efficiency - 1.0) * projectCost > 0.0;
      assert efficiency <= 1.0 ==> (1.0 - efficiency) * projectCost >= 0.0;
      efficiency
    else 0.0
  }

  // ---------------------------------------------------------------------------------------
  // input_data

  /** A value of the `input_data` dict. */
  datatype Value = Num(x: real) | Str(s: string) | Null

  function OptStr(v: Option<string>): Value
  {
    match v
    case Some(s) => Str(s)
    case None => Null
  }

  /** The thirteen keys of `input_data`. */
  const InputDataKeys: set<string> := {
    "project_cost", "project_benefit", "complexity", "completionpercent", "actual_duration_days",
    "completion_speed", "cost_efficiency", "project_type", "project_manager", "region",
    "department", "phase", "status"}

  /** The dict `input_data`: every input field under its own name plus the two derived features.
      It is returned unchanged in the response, and the input can be read back from it. */
  function InputData(d: PredictionInput): (m: map<string, Value>)
    ensures m.Keys == InputDataKeys
    ensures EchoedInput(m) == Some(d)
    ensures m["completion_speed"] == Num(CompletionSpeed(d.completionpercent, d.actualDurationDays))
    ensures m["cost_efficiency"] == Num(CostEfficiency(d.projectBenefit, d.projectCost))
  {
    map[
      "project_cost" := Num(d.projectCost),
      "project_benefit" := Num(d.projectBenefit),
      "complexity" := Str(d.complexity),
      "completionpercent" := Num(d.completionpercent),
      "actual_duration_days" := Num(d.actualDurationDays),
      "completion_speed" := Num(CompletionSpeed(d.completionpercent, d.actualDurationDays)),
      "cost_efficiency" := Num(CostEfficiency(d.projectBenefit, d.projectCost)),
      "project_type" := OptStr(d.projectType),
      "project_manager" := OptStr(d.projectManager),
      "region" := OptStr(d.region),
      "department" := OptStr(d.department),
      "phase" := OptStr(d.phase),
      "status" := OptStr(d.status)]
  }

  /** A string-or-null value read back as an optional string. */
  function ReadOptStr(v: Value): Option<Option<string>>
  {
    match v
    case Str(s) => Some(Some(s))
    case Null => Some(None)
    case Num(_) => None
  }

  /** What a client reads back from an echoed `input_data`: the input, if every field is there
      with the right kind of value. */
  function EchoedInput(m: map<string, Value>): Option<PredictionInput>
  {
    if && "project_cost" in m && m["project_cost"].Num?
       && "project_benefit" in m && m["project_benefit"].Num?
       && "complexity" in m && m["complexity"].Str?
       && "completionpercent" in m && m["completionpercent"].Num?
       && "actual_duration_days" in m && m["actual_duration_days"].Num?
       && "project_type" in m && ReadOptStr(m["project_type"]).Some?
       && "project_manager" in m && ReadOptStr(m["project_manager"]).Some?
       && "region" in m && ReadOptStr(m["region"]).Some?
       && "department" in m && ReadOptStr(m["department"]).Some?
       && "phase" in m && ReadOptStr(m["phase"]).Some?
       && "status" in m && ReadOptStr(m["status"]).Some?
    then Some(PredictionInput(
      m["project_cost"].x, m["project_benefit"].x, m["complexity"].s,
      m["completionpercent"].x, m["actual_duration_days"].x,
      ReadOptStr(m["project_type"]).value, ReadOptStr(m["project_manager"]).value,
      ReadOptStr(m["region"]).value, ReadOptStr(m["department"]).value,
      ReadOptStr(m["phase"]).value, ReadOptStr(m["status"]).value))
    else None
  }

  // ---------------------------------------------------------------------------------------
  // One-hot encoding and alignment to the training columns

  /** The numeric columns of the one-row frame built from `input_data`. */
  function NumericColumns(d: PredictionInput): map<string, real>
  {
    map[
      "project_cost" := d.projectCost,
      "project_benefit" := d.projectBenefit,
      "completionpercent" := d.completionpercent,
      "actual_duration_days" := d.actualDurationDays,
      "completion_speed" := CompletionSpeed(d.completionpercent, d.actualDurationDays),
      "cost_efficiency" := CostEfficiency(d.projectBenefit, d.projectCost)]
  }

  /** The indicator column `<column>_<value>` of one categorical cell; a null cell has none. */
  function Dummy(column: string, v: Option<string>): map<string, real>
  {
    match v
    case Some(s) => map[DummyName(column, s) := 1.0]
    case None => map[]
  }

  // The categorical cells of a row, one function per column of `input_data`.
  function ComplexityCell(d: PredictionInput): Option<string> { Some(d.complexity) }
  function TypeCell(d: PredictionInput): Option<string> { d.projectType }
  function ManagerCell(d: PredictionInput): Option<string> { d.projectManager }
  function RegionCell(d: PredictionInput): Option<string> { d.region }
  function DepartmentCell(d: PredictionInput): Option<string> { d.department }
  function PhaseCell(d: PredictionInput): Option<string> { d.phase }
  function StatusCell(d: PredictionInput): Option<string> { d.status }

  /** The cells of one categorical column of a frame. */
  function Column(frame: seq<PredictionInput>, cell: PredictionInput -> Option<string>): seq<Option<string>>
  {
    seq(|frame|, i requires 0 <= i < |frame| => cell(frame[i]))
  }

  /** The indicator values of row `d` for one categorical column, whose levels come from the
      whole frame. */
  function Indicators(frame: seq<PredictionInput>, column: string, cell: PredictionInput -> Option<string>,
                      d: PredictionInput, dropFirst: bool): map<string, real>
  {
    DummyRow(column, Levels(Column(frame, cell)), cell(d), dropFirst)
  }

  /** One row of `pd.get_dummies(frame, drop_first=dropFirst)`: the numeric columns as they
      are, then the indicator columns of each categorical column. */
  function EncodeRow(frame: seq<PredictionInput>, d: PredictionInput, dropFirst: bool): map<string, real>
  {
    NumericColumns(d)
    + Indicators(frame, "complexity", ComplexityCell, d, dropFirst)
    + Indicators(frame, "project_type", TypeCell, d, dropFirst)
    + Indicators(frame, "project_manager", ManagerCell, d, dropFirst)
    + Indicators(frame, "region", RegionCell, d, dropFirst)
    + Indicators(frame, "department", DepartmentCell, d, dropFirst)
    + Indicators(frame, "phase", PhaseCell, d, dropFirst)
    + Indicators(frame, "status", StatusCell, d, dropFirst)
  }

  /** `pd.get_dummies(frame, drop_first=dropFirst)`, row by row. */
  function EncodeFrame(frame: seq<PredictionInput>, dropFirst: bool): seq<map<string, real>>
  {
    seq(|frame|, i requires 0 <= i < |frame| => EncodeRow(frame, frame[i], dropFirst))
  }

  /** A categorical column of a one-row frame: with `drop_first` no indicator is left, and
      without it the row's own value gets its indicator set to 1. */
  lemma OneRowIndicators(d: PredictionInput, column: string, cell: PredictionInput -> Option<string>, dropFirst: bool)
    ensures Indicators([d], column, cell, d, dropFirst) == if dropFirst then map[] else Dummy(column, cell(d))
  {
    assert Column([d], cell) == [cell(d)];
    SingleRowDummies(column, cell(d), dropFirst);
  }

  /** The numeric columns plus, for each non-null categorical cell, its own indicator at 1. */
  function OwnIndicators(d: PredictionInput): map<string, real>
  {
    NumericColumns(d)
    + Dummy("complexity", Some(d.complexity))
    + Dummy("project_type", d.projectType)
    + Dummy("project_manager", d.projectManager)
    + Dummy("region", d.region)
    + Dummy("department", d.department)
    + Dummy("phase", d.phase)
    + Dummy("status", d.status)
  }

  /** `pd.get_dummies(pd.DataFrame([input_data]), drop_first=dropFirst)`: the encoding of the
      one-row frame. With `drop_first` every categorical column is gone, since its only level
      is the first one; without it each non-null categorical cell sets its own indicator. */
  function EncodeInput(d: PredictionInput, dropFirst: bool): (encoded: map<string, real>)
    ensures dropFirst ==> encoded == NumericColumns(d)
    ensures !dropFirst ==> encoded == OwnIndicators(d)
  {
    OneRowIndicators(d, "complexity", ComplexityCell, dropFirst);
    OneRowIndicators(d, "project_type", TypeCell, dropFirst);
    OneRowIndicators(d, "project_manager", ManagerCell, dropFirst);
    OneRowIndicators(d, "region", RegionCell, dropFirst);
    OneRowIndicators(d, "department", DepartmentCell, dropFirst);
    OneRowIndicators(d, "phase", PhaseCell, dropFirst);
    OneRowIndicators(d, "status", StatusCell, dropFirst);
    EncodeFrame([d], dropFirst)[0]
  }

  /** The aligned frame, column by column: each training column with its encoded value, or 0
      when the encoding lacks it. */
  function AlignedRow(encoded: map<string, real>, training: seq<string>): seq<(string, real)>
  {
    seq(|training|, i requires 0 <= i < |training| =>
      (training[i], if training[i] in encoded then encoded[training[i]] else 0.0))
  }

  /** The loop `for col in training_columns: if col not in df_encoded: df_encoded[col] = 0`. */
  method AddMissingColumns(encoded: map<string, real>, training: seq<string>) returns (frame: map<string, real>)
    ensures frame.Keys == encoded.Keys + (set c | c in training)
    ensures forall c :: c in encoded ==> frame[c] == encoded[c]
    ensures forall c :: c in frame && c !in encoded ==> frame[c] == 0.0
  {
    frame := encoded;
    for i := 0 to |training|
      invariant frame.Keys == encoded.Keys + (set j | 0 <= j < i :: training[j])
      invariant forall c :: c in encoded ==> frame[c] == encoded[c]
      invariant forall c :: c in frame && c !in encoded ==> frame[c] == 0.0
    {
      if training[i] !in frame {
        frame := frame[training[i] := 0.0];
      }
    }
    assert (set j | 0 <= j < |training| :: training[j]) == (set c | c in training);
  }

  /** `df_encoded[training_columns]`: the columns in training order, extra columns dropped. */
  function SelectColumns(frame: map<string, real>, training: seq<string>): (row: seq<(string, real)>)
    requires forall c :: c in training ==> c in frame
    ensures |row| == |training|
    ensures forall i :: 0 <= i < |row| ==> row[i].0 == training[i] && row[i].1 == frame[row[i].0]
    ensures forall c :: c in frame && c !in training ==> forall i :: 0 <= i < |row| ==> row[i].0 != c
  {
    seq(|training|, i requires 0 <= i < |training| => (training[i], frame[training[i]]))
  }

  /** The encoded row aligned to the training columns: exactly the training columns in their
      order, present columns keeping their encoded value, missing ones holding 0. */
  method AlignColumns(encoded: map<string, real>, training: seq<string>) returns (row: seq<(string, real)>)
    ensures |row| == |training|
    ensures forall i :: 0 <= i < |training| ==> row[i].0 == training[i]
    ensures forall i :: 0 <= i < |training| && training[i] in encoded ==> row[i].1 == encoded[training[i]]
    ensures forall i :: 0 <= i < |training| && training[i] !in encoded ==> row[i].1 == 0.0
    ensures row == AlignedRow(encoded, training)
  {
    var frame := AddMissingColumns(encoded, training);
    row := SelectColumns(frame, training);
  }

  /** As written, two inputs that differ only in their categorical fields reach the models as
      the same row, whatever the training columns. */
  lemma AsWrittenIgnoresCategories(d1: PredictionInput, d2: PredictionInput, training: seq<string>)
    requires d1.projectCost == d2.projectCost && d1.projectBenefit == d2.projectBenefit
    requires d1.completionpercent == d2.completionpercent && d1.actualDurationDays == d2.actualDurationDays
    ensures AlignedRow(EncodeInput(d1, true), training) == AlignedRow(EncodeInput(d2, true), training)
  {
  }

  /** A northern request's own indicators hold no "region_South" column. */
  lemma NorthHasNoSouthColumn(north: PredictionInput)
    requires north.region == Some("North")
    ensures "region_South" !in OwnIndicators(north)
  {
    var key := "region_South";
    assert key !in NumericColumns(north);
    forall k | k in OwnIndicators(north) ensures k != key {
      if k !in NumericColumns(north) {
        if k in Dummy("region", north.region) {
          assert k == "region" + "_" + "North";
          assert k[7] != key[7];
        } else {
          assert k[0] != key[0] by {
            if k in Dummy("complexity", Some(north.complexity)) {
              assert k == "complexity" + "_" + north.complexity;
            } else if k in Dummy("project_type", north.projectType) {
              assert k == "project_type" + "_" + north.projectType.value;
            } else if k in Dummy("project_manager", north.projectManager) {
              assert k == "project_manager" + "_" + north.projectManager.value;
            } else if k in Dummy("department", north.department) {
              assert k == "department" + "_" + north.department.value;
            } else if k in Dummy("phase", north.phase) {
              assert k == "phase" + "_" + north.phase.value;
            } else {
              assert k == "status" + "_" + north.status.value;
            }
          }
        }
      }
    }
  }

  /** As written, a request from the North and the same request from the South reach the
      models alike: both rows hold 0 under "region_South". */
  lemma AsWrittenIgnoresRegion(north: PredictionInput)
    requires north.region == Some("North")
    ensures var south := north.(region := Some("South"));
      && AlignedRow(EncodeInput(north, true), ["region_South"]) == [("region_South", 0.0)]
      && AlignedRow(EncodeInput(south, true), ["region_South"]) == [("region_South", 0.0)]
  {
    var south := north.(region := Some("South"));
    assert "region_South" !in NumericColumns(north);
    assert "region_South" !in NumericColumns(south);
  }

  /** With the corrected encoding the same two requests are told apart: the northern row holds
      0 under "region_South" and the southern one holds 1. */
  lemma CorrectedTellsRegionsApart(north: PredictionInput)
    requires north.region == Some("North")
    ensures var south := north.(region := Some("South"));
      && AlignedRow(EncodeInput(north, false), ["region_South"]) == [("region_South", 0.0)]
      && AlignedRow(EncodeInput(south, false), ["region_South"]) == [("region_South", 1.0)]
  {
    var south := north.(region := Some("South"));
    var key := "region_South";
    NorthHasNoSouthColumn(north);
    assert key == "region_" + south.region.value;
    CorrectedEncodesRegion(south, [key], 0);
  }

  /** With the corrected encoding (`drop_first=False`) the region reaches the models: the
      training column named after the request's region holds 1. */
  lemma CorrectedEncodesRegion(d: PredictionInput, training: seq<string>, i: nat)
    requires d.region.Some? && i < |training| && training[i] == "region_" + d.region.value
    ensures AlignedRow(EncodeInput(d, false), training)[i] == (training[i], 1.0)
  {
    var key := "region_" + d.region.value;
    assert key == "region" + "_" + d.region.value;
    var later := Dummy("department", d.department) + Dummy("phase", d.phase) + Dummy("status", d.status);
    assert key !in later by {
      assert key[0] == 'r';
      forall k | k in later ensures k[0] != 'r' {
        if k in Dummy("department", d.department) {
          assert k == "department" + "_" + d.department.value;
        } else if k in Dummy("phase", d.phase) {
          assert k == "phase" + "_" + d.phase.value;
        } else {
          assert k == "status" + "_" + d.status.value;
        }
      }
    }
  }

  // ---------------------------------------------------------------------------------------
  // /predict

  /** The JSON response of `/predict`. */
  datatype PredictionResponse = PredictionResponse(
    predictedDelayDays: real,
    resourceBottleneck: bool,
    inputData: map<string, Value>)

  /** `predict_project`. `dropFirst` is the flag handed to `pd.get_dummies`: the handler
      passes true, the corrected handler false. The two models are parameters standing for the
      pickled regressor and classifier; both see the same aligned row. The response echoes the
      input with its two derived features. */
  method PredictProject(
    d: PredictionInput,
    dropFirst: bool,
    training: seq<string>,
    delayModel: seq<(string, real)> -> real,
    bottleneckModel: seq<(string, real)> -> int)
    returns (r: PredictionResponse)
    ensures r.inputData == InputData(d)
    ensures EchoedInput(r.inputData) == Some(d) && r.inputData.Keys == InputDataKeys
    ensures r.inputData["completion_speed"] == Num(CompletionSpeed(d.completionpercent, d.actualDurationDays))
    ensures r.inputData["cost_efficiency"] == Num(CostEfficiency(d.projectBenefit, d.projectCost))
    ensures r.predictedDelayDays == delayModel(AlignedRow(EncodeInput(d, dropFirst), training))
    ensures r.resourceBottleneck <==> bottleneckModel(AlignedRow(EncodeInput(d, dropFirst), training)) != 0
  {
    var inputData := InputData(d);
    var encoded := EncodeInput(d, dropFirst);
    var row := AlignColumns(encoded, training);
    r := PredictionResponse(delayModel(row), bottleneckModel(row) != 0, inputData);
  }

  // ---------------------------------------------------------------------------------------
  // /stats and /projects

  /** `len(df[df[col] == v])`: how many entries of a column equal `v`. */
  function CountOf(column: seq<string>, v: string): (n: nat)
    ensures n == multiset(column)[v]
  {
    if column == [] then 0
    else
      assert column == [column[0]] + column[1..];
      (if column[0] == v then 1 else 0) + CountOf(column[1..], v)
  }

  /** `df[col].value_counts().to_dict()`: each distinct value of the column mapped to how many
      entries hold it. */
  function ValueCounts(column: seq<string>): (m: map<string, nat>)
    ensures m.Keys == set v | v in column
    ensures forall v :: v in m ==> m[v] == multiset(column)[v] && m[v] > 0
  {
    if column == [] then map[]
    else
      var rest := ValueCounts(column[1..]);
      var v := column[0];
      assert column == [v] + column[1..];
      rest[v := if v in rest then rest[v] + 1 else 1]
  }

  /** The count fields of the `/stats` response (the float sums and means are not modelled). */
  datatype Statistics = Statistics(
    totalProjects: nat,
    completedProjects: nat,
    inProgressProjects: nat,
    cancelledProjects: nat,
    onHoldProjects: nat,
    projectsByType: map<string, nat>,
    projectsByRegion: map<string, nat>,
    projectsByComplexity: map<string, nat>)

  /** `get_statistics` over the rows of the projects table. */
  function GetStatistics(rs: seq<Project>): (s: Statistics)
    ensures s.totalProjects == |rs|
    ensures s.completedProjects == multiset(Statuses(rs))["Completed"]
    ensures s.inProgressProjects == multiset(Statuses(rs))["In - Progress"]
    ensures s.cancelledProjects == multiset(Statuses(rs))["Cancelled"]
    ensures s.onHoldProjects == multiset(Statuses(rs))["On - Hold"]
    ensures s.projectsByType.Keys == set t | t in Types(rs)
    ensures forall t :: t in s.projectsByType ==> s.projectsByType[t] == multiset(Types(rs))[t]
    ensures s.projectsByRegion.Keys == set g | g in Regions(rs)
    ensures forall g :: g in s.projectsByRegion ==> s.projectsByRegion[g] == multiset(Regions(rs))[g]
    ensures s.projectsByComplexity.Keys == set c | c in Complexities(rs)
    ensures forall c :: c in s.projectsByComplexity ==> s.projectsByComplexity[c] == multiset(Complexities(rs))[c]
  {
    var statuses := Statuses(rs);
    Statistics(
      |rs|,
      CountOf(statuses, "Completed"),
      CountOf(statuses, "In - Progress"),
      CountOf(statuses, "Cancelled"),
      CountOf(statuses, "On - Hold"),
      ValueCounts(Types(rs)),
      ValueCounts(Regions(rs)),
      ValueCounts(Complexities(rs)))
  }

  /** The counts of four distinct values add up to at most the column's length, and to
      exactly its length iff every entry is one of the four. */
  lemma {:induction false} DistinctCountsBounded(column: seq<string>, a: string, b: string, c: string, e: string)
    requires a != b && a != c && a != e && b != c && b != e && c != e
    ensures CountOf(column, a) + CountOf(column, b) + CountOf(column, c) + CountOf(column, e) <= |column|
    ensures CountOf(column, a) + CountOf(column, b) + CountOf(column, c) + CountOf(column, e) == |column|
      <==> forall i :: 0 <= i < |column| ==> column[i] in [a, b, c, e]
  {
    if column != [] {
      DistinctCountsBounded(column[1..], a, b, c, e);
      assert forall i :: 1 <= i < |column| ==> column[i] == column[1..][i - 1];
    }
  }

  /** The four status counts never add up to more than the number of projects, and add up to
      exactly that number iff every status is one of the four. */
  lemma StatusCountsBounded(rs: seq<Project>)
    ensures var s := GetStatistics(rs);
      s.completedProjects + s.inProgressProjects + s.cancelledProjects + s.onHoldProjects <= s.totalProjects
    ensures var s := GetStatistics(rs);
      s.completedProjects + s.inProgressProjects + s.cancelledProjects + s.onHoldProjects == s.totalProjects
      <==> forall i :: 0 <= i < |rs| ==> rs[i].status in ["Completed", "In - Progress", "Cancelled", "On - Hold"]
  {
    DistinctCountsBounded(Statuses(rs), "Completed", "In - Progress", "Cancelled", "On - Hold");
  }

  /** No key is listed twice. */
  predicate Distinct(keys: seq<string>)
  {
    forall i, j :: 0 <= i < j < |keys| ==> keys[i] != keys[j]
  }

  /** The counts of a breakdown summed over the given keys; a key the map lacks adds 0. */
  function SumCounts(keys: seq<string>, m: map<string, nat>): nat
  {
    if keys == [] then 0 else (if keys[0] in m then m[keys[0]] else 0) + SumCounts(keys[1..], m)
  }

  /** The multiplicities of a multiset summed over the given keys. */
  function SumMultiplicities(keys: seq<string>, ms: multiset<string>): nat
  {
    if keys == [] then 0 else ms[keys[0]] + SumMultiplicities(keys[1..], ms)
  }

  lemma {:induction false} SumOfEmpty(keys: seq<string>)
    ensures SumMultiplicities(keys, multiset{}) == 0
  {
    if keys != [] {
      SumOfEmpty(keys[1..]);
    }
  }

  lemma {:induction false} SumOfAgreeing(keys: seq<string>, ms: multiset<string>, ns: multiset<string>)
    requires forall i :: 0 <= i < |keys| ==> ms[keys[i]] == ns[keys[i]]
    ensures SumMultiplicities(keys, ms) == SumMultiplicities(keys, ns)
  {
    if keys != [] {
      SumOfAgreeing(keys[1..], ms, ns);
    }
  }

  /** Taking one copy of a listed key out of the multiset lowers the sum by one. */
  lemma {:induction false} SumOfRemoval(keys: seq<string>, ms: multiset<string>, x: string)
    requires Distinct(keys) && x in keys && x in ms
    ensures SumMultiplicities(keys, ms) == SumMultiplicities(keys, ms - multiset{x}) + 1
  {
    var rest := keys[1..];
    if keys[0] == x {
      assert forall i :: 0 <= i < |rest| ==> rest[i] == keys[i + 1] != x;
      SumOfAgreeing(rest, ms, ms - multiset{x});
    } else {
      assert x in rest;
      SumOfRemoval(rest, ms, x);
    }
  }

  /** Summed over distinct keys that include every element, the multiplicities add up to the
      size of the multiset. */
  lemma {:induction false} SumOfCovering(keys: seq<string>, ms: multiset<string>)
    requires Distinct(keys) && forall x :: x in ms ==> x in keys
    ensures SumMultiplicities(keys, ms) == |ms|
    decreases |ms|
  {
    if ms == multiset{} {
      SumOfEmpty(keys);
    } else {
      var x :| x in ms;
      SumOfRemoval(keys, ms, x);
      SumOfCovering(keys, ms - multiset{x});
    }
  }

  lemma {:induction false} SumCountsIsMultiplicities(keys: seq<string>, column: seq<string>)
    ensures SumCounts(keys, ValueCounts(column)) == SumMultiplicities(keys, multiset(column))
  {
    if keys != [] {
      SumCountsIsMultiplicities(keys[1..], column);
    }
  }

  /** Listing each distinct value once, the counts of `value_counts` add up to the length of
      the column: every entry is counted once. */
  lemma CountsAddUp(column: seq<string>, keys: seq<string>)
    requires Distinct(keys) && (set k | k in keys) == (set v | v in column)
    ensures SumCounts(keys, ValueCounts(column)) == |column|
  {
    SumCountsIsMultiplicities(keys, column);
    assert forall x :: x in multiset(column) ==> x in keys by {
      forall x | x in multiset(column) ensures x in keys {
        assert x in column;
        assert x in (set v | v in column);
      }
    }
    SumOfCovering(keys, multiset(column));
  }

  /** Each of the three breakdowns of `/stats`, summed over its categories (each distinct
      value of the column listed once), gives `total_projects`: the slices of a breakdown
      chart cover every project exactly once. */
  lemma BreakdownsAddUp(rs: seq<Project>, types: seq<string>, regions: seq<string>, complexities: seq<string>)
    requires Distinct(types) && (set k | k in types) == (set v | v in Types(rs))
    requires Distinct(regions) && (set k | k in regions) == (set v | v in Regions(rs))
    requires Distinct(complexities) && (set k | k in complexities) == (set v | v in Complexities(rs))
    ensures var s := GetStatistics(rs);
      && SumCounts(types, s.projectsByType) == s.totalProjects
      && SumCounts(regions, s.projectsByRegion) == s.totalProjects
      && SumCounts(complexities, s.projectsByComplexity) == s.totalProjects
  {
    CountsAddUp(Types(rs), types);
    CountsAddUp(Regions(rs), regions);
    CountsAddUp(Complexities(rs), complexities);
  }

  /** The JSON response of `/projects`. */
  datatype ProjectsResponse = ProjectsResponse(count: nat, projects: seq<Project>)

  /** `get_projects` over the rows the query returned: `count` is the length of `projects`. */
  function GetProjects(rows: seq<Project>): (r: ProjectsResponse)
    ensures r.count == |r.projects| && r.projects == rows
  {
    ProjectsResponse(|rows|, rows)
  }
}
