/**
 * `renderProjectsTable`: the rows and cells written into the projects table body,
 * and the CSS token derived from a project's status.
 */
module Table {
  import opened Wrappers
  import opened Text
  import opened Records

  /** One `<td>` of a project row. */
  datatype Cell =
    | Bold(text: string)                      // <td><strong>text</strong></td>
    | Plain(text: string)                     // <td>text</td>
    | StatusBadge(token: string, text: string) // <span class="status-badge status-token">text</span>
    | Percent(value: real)                    // <td>value%</td>
    | Money(amount: real)                     // <td>formatCurrency(amount)</td>

  /** One `<tr>` of the table body. */
  datatype Row =
    | MessageRow(colspan: nat, message: string) // <td colspan=.. class="loading-cell">message</td>
    | ProjectRow(cells: seq<Cell>)

  /** The table has eight columns. */
  const ColumnCount: nat := 8
  const NoProjectsMessage := "No projects found"
  const LoadFailedMessage := "Failed to load projects"

  /** How many columns a row spans. */
  function Width(r: Row): nat
  {
    match r
    case MessageRow(colspan, _) => colspan
    case ProjectRow(cells) => |cells|
  }

  /** The class token of a status badge: lower-cased, then the first " - " replaced by "-".
      A status without " - " is only lower-cased; one with it loses two characters. */
  function StatusClass(status: string): (token: string)
    ensures !Includes(status, " - ") ==> token == ToLower(status)
    ensures Includes(status, " - ") ==> |token| == |status| - 2
  {
    SeparatorSurvivesLowering(status);
    ReplaceFirst(ToLower(status), " - ", "-")
  }

  /** Lower-casing never creates nor destroys an occurrence of " - ". */
  lemma LowerKeepsSeparator(s: string, i: int)
    ensures OccursAt(ToLower(s), " - ", i) <==> OccursAt(s, " - ", i)
  {
    if 0 <= i && i + 3 <= |s| {
      var t := ToLower(s);
      assert t[i..i + 3] == [t[i], t[i + 1], t[i + 2]];
      assert s[i..i + 3] == [s[i], s[i + 1], s[i + 2]];
    }
  }

  /** A string holds " - " iff its lower-cased form does. */
  lemma SeparatorSurvivesLowering(s: string)
    ensures Includes(ToLower(s), " - ") <==> Includes(s, " - ")
  {
    forall i ensures OccursAt(ToLower(s), " - ", i) <==> OccursAt(s, " - ", i) {
      LowerKeepsSeparator(s, i);
    }
  }

  /** A status `a - b` whose first " - " follows `a` becomes lower(a) + "-" + lower(b). */
  lemma StatusClassSplit(a: string, b: string)
    requires forall j :: 0 <= j < |a| ==> !OccursAt(a + " - " + b, " - ", j)
    ensures StatusClass(a + " - " + b) == ToLower(a) + "-" + ToLower(b)
  {
    var s := a + " - " + b;
    var la, lb := ToLower(a), ToLower(b);
    LowerConcat(a + " - ", b);
    LowerConcat(a, " - ");
    assert ToLower(" - ") == " - ";
    assert ToLower(s) == la + " - " + lb;
    forall j | 0 <= j < |la|
      ensures !OccursAt(la + " - " + lb, " - ", j)
    {
      LowerKeepsSeparator(s, j);
    }
    ReplaceFirstSplit(la, " - ", lb, "-");
  }

  /** A status whose first word holds no space: the " - " after that word is the one replaced. */
  lemma StatusClassFirstWord(a: string, b: string)
    requires ' ' !in a
    ensures StatusClass(a + " - " + b) == ToLower(a) + "-" + ToLower(b)
  {
    var s := a + " - " + b;
    forall j | 0 <= j < |a|
      ensures !OccursAt(s, " - ", j)
    {
      assert s[j] == a[j];
      MismatchAt(s, " - ", j, 0);
    }
    StatusClassSplit(a, b);
  }

  /** A status without any '-' is only lower-cased. */
  lemma StatusClassWithoutDash(status: string)
    requires '-' !in status
    ensures StatusClass(status) == ToLower(status)
  {
    forall j | 0 <= j
      ensures !OccursAt(status, " - ", j)
    {
      if j + 1 < |status| {
        MismatchAt(status, " - ", j, 1);
      }
    }
  }

  /** The words of the statuses the backend stores, lower-cased. */
  lemma LowerStatusWords()
    ensures ToLower("In") == "in" && ToLower("Progress") == "progress"
    ensures ToLower("On") == "on" && ToLower("Hold") == "hold"
  {
  }

  // The examples below are stated on concatenations: a goal on one long string literal makes
  // the verifier unfold the string functions character by character.

  /** "In - Progress", as the backend stores it, gives the token "in-progress". */
  lemma StatusClassInProgress()
    ensures StatusClass("In" + " - " + "Progress") == "in-progress"
  {
    StatusClassFirstWord("In", "Progress");
    LowerStatusWords();
  }

  /** "On - Hold" gives "on-hold". */
  lemma StatusClassOnHold()
    ensures StatusClass("On" + " - " + "Hold") == "on-hold"
  {
    StatusClassFirstWord("On", "Hold");
    LowerStatusWords();
  }

  /** "In Progress", written without dashes, is only lower-cased: its token is "in progress",
      not "in-progress". */
  lemma StatusClassPlainSpace()
    ensures StatusClass("In" + " " + "Progress") == "in" + " " + "progress"
  {
    var s := "In" + " " + "Progress";
    assert '-' !in s;
    StatusClassWithoutDash(s);
    LowerConcat("In" + " ", "Progress");
    LowerConcat("In", " ");
    assert ToLower(" ") == " ";
    LowerStatusWords();
  }

  /** The row of one project: its eight columns in the order name, type, status, completion,
      cost, benefit, region, complexity; the row reads back as exactly that project. */
  function RenderRow(p: Project): (r: Row)
    ensures Width(r) == ColumnCount
    ensures ReadRow(r) == Some(p)
    ensures r.ProjectRow? && r.cells[2] == StatusBadge(StatusClass(p.status), p.status)
  {
    ProjectRow([
      Bold(p.name),
      Plain(p.projectType),
      StatusBadge(StatusClass(p.status), p.status),
      Percent(p.completionPercent),
      Money(p.cost),
      Money(p.benefit),
      Plain(p.region),
      Plain(p.complexity)])
  }

  /** What a reader of the table learns from one row: the project it shows, if it shows one. */
  function ReadRow(r: Row): Option<Project>
  {
    match r
    case MessageRow(_, _) => None
    case ProjectRow(c) =>
      if |c| == ColumnCount && c[0].Bold? && c[1].Plain? && c[2].StatusBadge? && c[3].Percent?
         && c[4].Money? && c[5].Money? && c[6].Plain? && c[7].Plain?
      then Some(Project(c[0].text, c[1].text, c[2].text, c[3].value, c[4].amount, c[5].amount, c[6].text, c[7].text))
      else None
  }

  /** `projects.map(...)`: one row per project, in input order. */
  function RenderRows(ps: seq<Project>): (rows: seq<Row>)
    ensures |rows| == |ps|
    ensures forall i :: 0 <= i < |ps| ==> rows[i] == RenderRow(ps[i])
  {
    if ps == [] then [] else [RenderRow(ps[0])] + RenderRows(ps[1..])
  }

  /** The table body for a list of projects: a single placeholder row for an empty list,
      otherwise one row per project in order; every row spans the eight columns. */
  function RenderProjectsTable(ps: seq<Project>): (rows: seq<Row>)
    ensures ps == [] ==> rows == [MessageRow(ColumnCount, NoProjectsMessage)]
    ensures ps != [] ==> |rows| == |ps| && forall i :: 0 <= i < |ps| ==> rows[i] == RenderRow(ps[i])
    ensures forall r :: r in rows ==> Width(r) == ColumnCount
  {
    if |ps| == 0 then [MessageRow(ColumnCount, NoProjectsMessage)] else RenderRows(ps)
  }

  /** The projects a table body shows, top to bottom. */
  function TableProjects(rows: seq<Row>): seq<Project>
  {
    if rows == [] then []
    else
      var rest := TableProjects(rows[1..]);
      match ReadRow(rows[0])
      case Some(p) => [p] + rest
      case None => rest
  }

  lemma {:induction false} RowsShowProjects(ps: seq<Project>)
    ensures TableProjects(RenderRows(ps)) == ps
  {
    if ps != [] {
      var rows := RenderRows(ps);
      assert rows[1..] == RenderRows(ps[1..]);
      RowsShowProjects(ps[1..]);
    }
  }

  /** The table shows exactly the given projects, in order, and nothing else
      (the placeholder of an empty list shows no project). */
  lemma TableShowsProjects(ps: seq<Project>)
    ensures TableProjects(RenderProjectsTable(ps)) == ps
  {
    if ps != [] {
      RowsShowProjects(ps);
    }
  }
}
