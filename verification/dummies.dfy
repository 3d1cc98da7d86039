/**
 * One-hot encoding of one categorical column of a frame, as `pd.get_dummies` does it for a
 * column of strings: the levels are the distinct non-null values in sorted order, each level
 * `l` becomes an indicator column `<column>_<l>`, and `drop_first` leaves out the column of
 * the first level. A null cell holds 0 in every indicator column.
 */
module Dummies {
  import opened Wrappers

  /** Strict lexicographic order on strings, by code point: the order levels are sorted in. */
  predicate Below(a: string, b: string)
  {
    b != [] && (a == [] || a[0] < b[0] || (a[0] == b[0] && Below(a[1..], b[1..])))
  }

  lemma {:induction false} BelowIrreflexive(a: string)
    ensures !Below(a, a)
  {
    if a != [] {
      BelowIrreflexive(a[1..]);
    }
  }

  lemma {:induction false} BelowTransitive(a: string, b: string, c: string)
    requires Below(a, b) && Below(b, c)
    ensures Below(a, c)
  {
    if a != [] && a[0] == b[0] && b[0] == c[0] {
      BelowTransitive(a[1..], b[1..], c[1..]);
    }
  }

  lemma {:induction false} BelowTotal(a: string, b: string)
    requires a != b
    ensures Below(a, b) || Below(b, a)
  {
    if a != [] && b != [] && a[0] == b[0] {
      assert a == [a[0]] + a[1..] && b == [b[0]] + b[1..];
      BelowTotal(a[1..], b[1..]);
    }
  }

  /** Strictly increasing, hence without repetitions. */
  predicate Sorted(levels: seq<string>)
  {
    forall i, j :: 0 <= i < j < |levels| ==> Below(levels[i], levels[j])
  }

  /** `v` put into its place among sorted levels, unless it is already one of them. */
  function InsertLevel(levels: seq<string>, v: string): (r: seq<string>)
    requires Sorted(levels)
    ensures Sorted(r)
    ensures forall l :: l in r <==> l in levels || l == v
  {
    if levels == [] then [v]
    else if v == levels[0] then levels
    else if Below(v, levels[0]) then
      assert forall j :: 0 <= j < |levels| ==> Below(v, levels[j]) by {
        forall j | 0 < j < |levels| ensures Below(v, levels[j]) {
          BelowTransitive(v, levels[0], levels[j]);
        }
      }
      [v] + levels
    else
      BelowTotal(v, levels[0]);
      var rest := InsertLevel(levels[1..], v);
      assert forall l :: l in rest ==> Below(levels[0], l);
      [levels[0]] + rest
  }

  /** The levels of a column: its distinct non-null values, sorted. */
  function Levels(cells: seq<Option<string>>): (levels: seq<string>)
    ensures Sorted(levels)
    ensures forall l :: l in levels <==> Some(l) in cells
  {
    if cells == [] then []
    else
      var rest := Levels(cells[1..]);
      assert cells == [cells[0]] + cells[1..];
      if cells[0].Some? then InsertLevel(rest, cells[0].value) else rest
  }

  /** The indicator column of one level. */
  function DummyName(column: string, level: string): string
  {
    column + "_" + level
  }

  /** Different levels give different indicator columns. */
  lemma DummyNameInjective(column: string, l1: string, l2: string)
    requires DummyName(column, l1) == DummyName(column, l2)
    ensures l1 == l2
  {
    assert l1 == DummyName(column, l1)[|column| + 1..];
    assert l2 == DummyName(column, l2)[|column| + 1..];
  }

  /** The indicator columns of a column with these levels; `drop_first` leaves out the first. */
  function DummyNames(column: string, levels: seq<string>, dropFirst: bool): set<string>
  {
    set i | (if dropFirst then 1 else 0) <= i < |levels| :: DummyName(column, levels[i])
  }

  /** With distinct levels, `drop_first` removes exactly the first level's column, so k
      levels give k - 1 indicator columns instead of k. */
  lemma DropFirstDropsFirstLevel(column: string, levels: seq<string>)
    requires Sorted(levels) && levels != []
    ensures DummyNames(column, levels, true) == DummyNames(column, levels, false) - {DummyName(column, levels[0])}
  {
    forall i | 1 <= i < |levels|
      ensures DummyName(column, levels[i]) != DummyName(column, levels[0])
    {
      if DummyName(column, levels[i]) == DummyName(column, levels[0]) {
        DummyNameInjective(column, levels[i], levels[0]);
        BelowIrreflexive(levels[0]);
      }
    }
  }

  /** One cell's indicator values: 1 under its own level's column, 0 under the others. */
  function DummyRow(column: string, levels: seq<string>, cell: Option<string>, dropFirst: bool): (row: map<string, real>)
    ensures row.Keys == DummyNames(column, levels, dropFirst)
    ensures forall k :: k in row ==> (row[k] == 1.0 <==> cell.Some? && k == DummyName(column, cell.value))
    ensures forall k :: k in row ==> row[k] == 0.0 || row[k] == 1.0
  {
    map k | k in DummyNames(column, levels, dropFirst) ::
      if cell.Some? && k == DummyName(column, cell.value) then 1.0 else 0.0
  }

  /** A column of a single row: its one level, or none for a null cell. */
  lemma {:induction false} SingleCellLevels(cell: Option<string>)
    ensures Levels([cell]) == if cell.Some? then [cell.value] else []
  {
    assert [cell][1..] == [];
  }

  /** In a one-row frame the only level is the row's own value, so `drop_first` drops its
      column and leaves no indicator at all; without it, the row's own column holds 1. */
  lemma SingleRowDummies(column: string, cell: Option<string>, dropFirst: bool)
    ensures var row := DummyRow(column, Levels([cell]), cell, dropFirst);
      if dropFirst || cell.None? then row == map[]
      else row == map[DummyName(column, cell.value) := 1.0]
  {
    SingleCellLevels(cell);
    if cell.Some? && !dropFirst {
      assert DummyNames(column, [cell.value], false) == {DummyName(column, cell.value)};
    }
  }
}
