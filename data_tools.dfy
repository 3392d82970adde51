/**
 * The HR directory tools over the employee table. The table read from the CSV file
 * is an input: its column names in file order and its rows, each row mapping a
 * column to its text; a column missing from a row is a missing value (NaN), which
 * no filter matches. Every filter is pandas' `str.contains(value, case=False, na=False)`,
 * modelled as a literal case-insensitive substring test.
 */
module DataTools {
  import opened Wrappers
  import opened Text

  type Row = map<string, string>

  datatype Table = Table(columns: seq<string>, rows: seq<Row>)

  /** An output record: every output column, with `None` for a missing value. */
  type Record = map<string, Option<string>>

  function Value(row: Row, col: string): Option<string> {
    if col in row then Some(row[col]) else None
  }

  /** `str.contains(value, case=False, na=False)` on one cell. */
  predicate CellMatches(row: Row, col: string, value: string) {
    col in row && ContainsCI(row[col], value)
  }

  /** A boolean-mask selection on one column, keeping row order. */
  function Matching(rows: seq<Row>, col: string, value: string): (r: seq<Row>)
    ensures |r| <= |rows|
  {
    if rows == [] then []
    else
      var row := rows[|rows| - 1];
      Matching(rows[..|rows| - 1], col, value) + (if CellMatches(row, col, value) then [row] else [])
  }

  /** A filter criterion `column: value`; criteria are kept in dictionary order. */
  datatype Criterion = Criterion(col: string, value: string)

  /** The rows left after applying the criteria one after another, skipping unknown columns. */
  function ApplyFilters(columns: seq<string>, rows: seq<Row>, criteria: seq<Criterion>): seq<Row> {
    if criteria == [] then rows
    else
      var prev := ApplyFilters(columns, rows, criteria[..|criteria| - 1]);
      var c := criteria[|criteria| - 1];
      if c.col in columns then Matching(prev, c.col, c.value) else prev
  }

  /** Whether a row satisfies every criterion on a known column. */
  predicate Passes(columns: seq<string>, criteria: seq<Criterion>, row: Row) {
    forall k :: 0 <= k < |criteria| && criteria[k].col in columns ==> CellMatches(row, criteria[k].col, criteria[k].value)
  }

  /** The independent reading of the filters: one pass keeping the rows that satisfy all of them. */
  function Selected(columns: seq<string>, criteria: seq<Criterion>, rows: seq<Row>): seq<Row> {
    if rows == [] then []
    else
      var row := rows[|rows| - 1];
      Selected(columns, criteria, rows[..|rows| - 1]) + (if Passes(columns, criteria, row) then [row] else [])
  }

  /** `available_cols`: the requested columns that exist, in request order. */
  function AvailableColumns(columns: seq<string>, requested: seq<string>): seq<string> {
    if requested == [] then []
    else
      var c := requested[|requested| - 1];
      AvailableColumns(columns, requested[..|requested| - 1]) + (if c in columns then [c] else [])
  }

  /** The columns of the result: all of them unless a non-empty list was requested. */
  function OutputColumns(columns: seq<string>, requested: seq<string>): seq<string> {
    if requested != [] then AvailableColumns(columns, requested) else columns
  }

  function Project(row: Row, cols: seq<string>): Record {
    map c | c in cols :: Value(row, c)
  }

  /** `to_dict('records')` after a projection. */
  function Records(rows: seq<Row>, cols: seq<string>): (r: seq<Record>)
    ensures |r| == |rows|
    ensures forall i :: 0 <= i < |rows| ==> r[i] == Project(rows[i], cols)
  {
    seq(|rows|, i requires 0 <= i < |rows| => Project(rows[i], cols))
  }

  /**
   * `to_dict('records')` on a frame with these rows and columns: a frame without
   * columns yields no records at all, however many rows it has.
   */
  function FrameRecords(rows: seq<Row>, cols: seq<string>): (r: seq<Record>)
    ensures |r| == (if cols == [] then 0 else |rows|)
    ensures forall i :: 0 <= i < |r| ==> r[i] == Project(rows[i], cols)
  {
    if cols == [] then [] else Records(rows, cols)
  }

  // ---------------------------------------------------------------------------
  // query_employee_database
  // ---------------------------------------------------------------------------

  datatype QueryResult = QueryResult(employees: seq<Record>, count: nat, columns: seq<string>)

  /** `query_employee_database`: the criteria rebind the rows one after another, then the projection. */
  method QueryEmployeeDatabase(t: Table, criteria: seq<Criterion>, requested: seq<string>) returns (r: QueryResult)
    ensures r.columns == OutputColumns(t.columns, requested)
    ensures r.employees == FrameRecords(ApplyFilters(t.columns, t.rows, criteria), r.columns)
    ensures r.count == |r.employees|
    ensures requested != [] && (forall c :: c in requested ==> c !in t.columns) ==>
      r.columns == [] && r.employees == [] && r.count == 0
  {
    var rows := t.rows;
    for i := 0 to |criteria|
      invariant rows == ApplyFilters(t.columns, t.rows, criteria[..i])
    {
      assert criteria[..i + 1][..i] == criteria[..i];
      var c := criteria[i];
      if c.col in t.columns {
        rows := Matching(rows, c.col, c.value);
      }
    }
    assert criteria[..|criteria|] == criteria;
    var cols := t.columns;
    if requested != [] {
      cols := AvailableColumns(t.columns, requested);
    }
    if requested != [] && forall c :: c in requested ==> c !in t.columns {
      NoAvailableColumns(t.columns, requested);
    }
    var employees := FrameRecords(rows, cols);
    r := QueryResult(employees, |employees|, cols);
  }

  lemma {:induction false} SelectedMembers(columns: seq<string>, criteria: seq<Criterion>, rows: seq<Row>)
    ensures |Selected(columns, criteria, rows)| <= |rows|
    ensures forall row :: row in Selected(columns, criteria, rows) <==> row in rows && Passes(columns, criteria, row)
  {
    if rows != [] {
      var init := rows[..|rows| - 1];
      SelectedMembers(columns, criteria, init);
      assert rows == init + [rows[|rows| - 1]];
    }
  }

  /** Filtering by one more known column is the one-pass selection with that criterion added. */
  lemma {:induction false} MatchingSelected(columns: seq<string>, criteria: seq<Criterion>, c: Criterion, rows: seq<Row>)
    requires c.col in columns
    ensures Matching(Selected(columns, criteria, rows), c.col, c.value) == Selected(columns, criteria + [c], rows)
  {
    if rows != [] {
      var init, row := rows[..|rows| - 1], rows[|rows| - 1];
      MatchingSelected(columns, criteria, c, init);
      var extended := criteria + [c];
      assert Passes(columns, extended, row) <==> Passes(columns, criteria, row) && CellMatches(row, c.col, c.value) by {
        assert extended[|criteria|] == c;
        assert forall k :: 0 <= k < |criteria| ==> extended[k] == criteria[k];
      }
      var prev := Selected(columns, criteria, init);
      var sel := Selected(columns, criteria, rows);
      assert sel == prev + (if Passes(columns, criteria, row) then [row] else []);
      assert Selected(columns, extended, rows)
          == Selected(columns, extended, init) + (if Passes(columns, extended, row) then [row] else []);
      if Passes(columns, criteria, row) {
        assert sel[..|sel| - 1] == prev;
        assert Matching(sel, c.col, c.value)
            == Matching(prev, c.col, c.value) + (if CellMatches(row, c.col, c.value) then [row] else []);
      } else {
        assert sel == prev;
      }
    }
  }

  /** A criterion on an unknown column leaves the selection unchanged. */
  lemma {:induction false} UnknownColumnSelected(columns: seq<string>, criteria: seq<Criterion>, c: Criterion, rows: seq<Row>)
    requires c.col !in columns
    ensures Selected(columns, criteria + [c], rows) == Selected(columns, criteria, rows)
  {
    if rows != [] {
      var init, row := rows[..|rows| - 1], rows[|rows| - 1];
      UnknownColumnSelected(columns, criteria, c, init);
      var extended := criteria + [c];
      assert Passes(columns, extended, row) <==> Passes(columns, criteria, row) by {
        assert extended[|criteria|] == c;
        assert forall k :: 0 <= k < |criteria| ==> extended[k] == criteria[k];
      }
    }
  }

  /**
   * Applying the criteria one after another is the same as one pass keeping, in
   * their order, the rows that match every criterion on a known column.
   */
  lemma {:induction false} FiltersAreConjunctive(columns: seq<string>, rows: seq<Row>, criteria: seq<Criterion>)
    ensures ApplyFilters(columns, rows, criteria) == Selected(columns, criteria, rows)
  {
    if criteria == [] {
      NoCriteriaSelectsAll(columns, rows);
    } else {
      var init, c := criteria[..|criteria| - 1], criteria[|criteria| - 1];
      FiltersAreConjunctive(columns, rows, init);
      assert criteria == init + [c];
      if c.col in columns {
        MatchingSelected(columns, init, c, rows);
      } else {
        UnknownColumnSelected(columns, init, c, rows);
      }
    }
  }

  lemma {:induction false} NoCriteriaSelectsAll(columns: seq<string>, rows: seq<Row>)
    ensures Selected(columns, [], rows) == rows
  {
    if rows != [] {
      NoCriteriaSelectsAll(columns, rows[..|rows| - 1]);
      assert rows == rows[..|rows| - 1] + [rows[|rows| - 1]];
    }
  }

  /**
   * A row is returned exactly when it is in the table and, for every criterion on an
   * existing column, has a value there containing the criterion's value; a missing
   * value never matches, and criteria on unknown columns are ignored.
   */
  lemma FilterSemantics(t: Table, criteria: seq<Criterion>, row: Row)
    ensures row in ApplyFilters(t.columns, t.rows, criteria) <==>
      row in t.rows
      && forall k :: 0 <= k < |criteria| && criteria[k].col in t.columns ==>
           criteria[k].col in row && ContainsCI(row[criteria[k].col], criteria[k].value)
    ensures |ApplyFilters(t.columns, t.rows, criteria)| <= |t.rows|
  {
    FiltersAreConjunctive(t.columns, t.rows, criteria);
    SelectedMembers(t.columns, criteria, t.rows);
  }

  /** The projection keeps exactly the requested columns that exist, in request order. */
  lemma {:induction false} AvailableColumnsExactly(columns: seq<string>, requested: seq<string>)
    ensures forall c :: c in AvailableColumns(columns, requested) <==> c in requested && c in columns
    ensures |AvailableColumns(columns, requested)| <= |requested|
    ensures forall c :: c in requested && c in columns ==> AvailableColumns(columns, requested + [c]) == AvailableColumns(columns, requested) + [c]
  {
    if requested != [] {
      AvailableColumnsExactly(columns, requested[..|requested| - 1]);
      assert requested == requested[..|requested| - 1] + [requested[|requested| - 1]];
    }
    forall c | c in requested && c in columns
      ensures AvailableColumns(columns, requested + [c]) == AvailableColumns(columns, requested) + [c]
    {
      assert (requested + [c])[..|requested|] == requested;
    }
  }

  /** Requested columns that the table lacks leave nothing to select. */
  lemma {:induction false} NoAvailableColumns(columns: seq<string>, requested: seq<string>)
    requires forall c :: c in requested ==> c !in columns
    ensures AvailableColumns(columns, requested) == []
  {
    if requested != [] {
      var init := requested[..|requested| - 1];
      assert forall c :: c in init ==> c in requested;
      NoAvailableColumns(columns, init);
      assert requested[|requested| - 1] in requested;
    }
  }

  /** Every returned record holds exactly the output columns, with the row's values. */
  lemma QueryRecordsShape(t: Table, criteria: seq<Criterion>, requested: seq<string>, i: nat)
    requires i < |FrameRecords(ApplyFilters(t.columns, t.rows, criteria), OutputColumns(t.columns, requested))|
    ensures var cols := OutputColumns(t.columns, requested);
      var row := ApplyFilters(t.columns, t.rows, criteria)[i];
      var rec := FrameRecords(ApplyFilters(t.columns, t.rows, criteria), cols)[i];
      && rec.Keys == set c | c in cols
      && (forall c :: c in cols ==> rec[c] == (if c in row then Some(row[c]) else None))
  {
  }

  // ---------------------------------------------------------------------------
  // get_employee_by_name
  // ---------------------------------------------------------------------------

  datatype NameLookup =
    | NoEmployee(message: string)
    | OneEmployee(employee: Record)
    | MultipleMatches(count: nat, employees: seq<Record>)

  function NoEmployeeMessage(name: string): string {
    "No employee found matching '" + name + "'"
  }

  /** `get_employee_by_name`: one lookup on `full_name`, branching on how many rows match. */
  function GetEmployeeByName(t: Table, name: string): (r: NameLookup)
    requires "full_name" in t.columns
  {
    var matches := Matching(t.rows, "full_name", name);
    if |matches| == 0 then NoEmployee(NoEmployeeMessage(name))
    else if |matches| == 1 then OneEmployee(Project(matches[0], t.columns))
    else MultipleMatches(|matches|, Records(matches, t.columns))
  }

  lemma {:induction false} MatchingMembers(rows: seq<Row>, col: string, value: string)
    ensures forall row :: row in Matching(rows, col, value) <==> row in rows && CellMatches(row, col, value)
  {
    if rows != [] {
      MatchingMembers(rows[..|rows| - 1], col, value);
      assert rows == rows[..|rows| - 1] + [rows[|rows| - 1]];
    }
  }

  /** The positions of the rows whose cell matches. */
  function MatchIndices(rows: seq<Row>, col: string, value: string): set<nat> {
    set i: nat | i < |rows| && CellMatches(rows[i], col, value)
  }

  /** The matching positions grow by the last position exactly when the last row matches. */
  lemma MatchIndicesSnoc(rows: seq<Row>, col: string, value: string)
    requires rows != []
    ensures var n := |rows| - 1;
      MatchIndices(rows, col, value)
        == MatchIndices(rows[..n], col, value) + (if CellMatches(rows[n], col, value) then {n} else {})
  {
    var n := |rows| - 1;
    var init := rows[..n];
    forall i: nat | i < n ensures init[i] == rows[i] { }
  }

  /** The selection keeps one row per matching position. */
  lemma {:induction false} MatchingCountsMatches(rows: seq<Row>, col: string, value: string)
    ensures |Matching(rows, col, value)| == |MatchIndices(rows, col, value)|
  {
    if rows != [] {
      var n := |rows| - 1;
      var extra: set<nat> := if CellMatches(rows[n], col, value) then {n} else {};
      var before := MatchIndices(rows[..n], col, value);
      MatchingCountsMatches(rows[..n], col, value);
      assert MatchIndices(rows, col, value) == before + extra by {
        MatchIndicesSnoc(rows, col, value);
      }
      assert n !in before;
    }
  }

  /** Some position holds a matching row. */
  predicate AnyMatch(rows: seq<Row>, col: string, value: string) {
    exists i :: 0 <= i < |rows| && CellMatches(rows[i], col, value)
  }

  /** Some row matches exactly when the selection is non-empty. */
  lemma MatchingNonEmpty(rows: seq<Row>, col: string, value: string)
    ensures |Matching(rows, col, value)| > 0 <==> AnyMatch(rows, col, value)
  {
    MatchingMembers(rows, col, value);
    var m := Matching(rows, col, value);
    if |m| > 0 {
      assert m[0] in m;
    }
    if i :| 0 <= i < |rows| && CellMatches(rows[i], col, value) {
      assert rows[i] in m;
    }
  }

  /** Exactly one position holds a matching row. */
  predicate UniqueMatch(rows: seq<Row>, col: string, value: string) {
    exists i :: 0 <= i < |rows| && CellMatches(rows[i], col, value)
      && forall j :: 0 <= j < |rows| && j != i ==> !CellMatches(rows[j], col, value)
  }

  /** Two different positions hold matching rows. */
  predicate SeveralMatch(rows: seq<Row>, col: string, value: string) {
    exists i, j :: 0 <= i < j < |rows| && CellMatches(rows[i], col, value) && CellMatches(rows[j], col, value)
  }

  /** Two positions match in a longer table when they did before, or the last row pairs with an earlier one. */
  lemma SeveralMatchSnoc(rows: seq<Row>, col: string, value: string)
    requires rows != []
    ensures var n := |rows| - 1;
      SeveralMatch(rows, col, value) <==>
        SeveralMatch(rows[..n], col, value) || (CellMatches(rows[n], col, value) && AnyMatch(rows[..n], col, value))
  {
    var n := |rows| - 1;
    var init := rows[..n];
    assert forall i :: 0 <= i < n ==> init[i] == rows[i];
    if SeveralMatch(rows, col, value) {
      var i, j :| 0 <= i < j < |rows| && CellMatches(rows[i], col, value) && CellMatches(rows[j], col, value);
      if j < n {
        assert CellMatches(init[i], col, value) && CellMatches(init[j], col, value);
      } else {
        assert CellMatches(init[i], col, value);
      }
    }
  }

  /** Two or more rows are selected exactly when two different positions match. */
  lemma {:induction false} MatchingAtLeastTwo(rows: seq<Row>, col: string, value: string)
    ensures |Matching(rows, col, value)| >= 2 <==> SeveralMatch(rows, col, value)
  {
    if rows != [] {
      var n := |rows| - 1;
      MatchingAtLeastTwo(rows[..n], col, value);
      MatchingNonEmpty(rows[..n], col, value);
      SeveralMatchSnoc(rows, col, value);
    }
  }

  /** Exactly one row is selected exactly when exactly one position matches. */
  lemma MatchingExactlyOne(rows: seq<Row>, col: string, value: string)
    ensures |Matching(rows, col, value)| == 1 <==> UniqueMatch(rows, col, value)
  {
    MatchingNonEmpty(rows, col, value);
    MatchingAtLeastTwo(rows, col, value);
    if |Matching(rows, col, value)| == 1 {
      var i :| 0 <= i < |rows| && CellMatches(rows[i], col, value);
      forall j | 0 <= j < |rows| && j != i ensures !CellMatches(rows[j], col, value) {
      }
    }
    if UniqueMatch(rows, col, value) {
      var i :| 0 <= i < |rows| && CellMatches(rows[i], col, value)
        && forall j :: 0 <= j < |rows| && j != i ==> !CellMatches(rows[j], col, value);
      assert !SeveralMatch(rows, col, value);
    }
  }

  /**
   * Not found exactly when no row's name contains the text; a single employee
   * holds a matching row.
   */
  lemma EmployeeLookupCases(t: Table, name: string)
    requires "full_name" in t.columns
    ensures GetEmployeeByName(t, name).NoEmployee? <==>
      forall row :: row in t.rows ==> !CellMatches(row, "full_name", name)
    ensures GetEmployeeByName(t, name).OneEmployee? ==>
      exists row :: row in t.rows && CellMatches(row, "full_name", name)
        && GetEmployeeByName(t, name).employee == Project(row, t.columns)
  {
    var matches := Matching(t.rows, "full_name", name);
    MatchingMembers(t.rows, "full_name", name);
    if |matches| > 0 {
      assert matches[0] in matches;
    }
  }

  /** A single employee exactly when one position matches; several exactly when two do. */
  lemma EmployeeLookupBranches(t: Table, name: string)
    requires "full_name" in t.columns
    ensures GetEmployeeByName(t, name).OneEmployee? <==> UniqueMatch(t.rows, "full_name", name)
    ensures GetEmployeeByName(t, name).MultipleMatches? <==> SeveralMatch(t.rows, "full_name", name)
  {
    MatchingExactlyOne(t.rows, "full_name", name);
    MatchingAtLeastTwo(t.rows, "full_name", name);
  }

  /**
   * Several matches list every matching row, in table order, projected on all
   * columns, and the count is the number of matching positions.
   */
  lemma EmployeeLookupListsEveryMatch(t: Table, name: string)
    requires "full_name" in t.columns
    ensures var r := GetEmployeeByName(t, name);
      r.MultipleMatches? ==>
        && r.employees == Records(Matching(t.rows, "full_name", name), t.columns)
        && r.count == |r.employees| == |MatchIndices(t.rows, "full_name", name)|
        && (forall row :: row in t.rows && CellMatches(row, "full_name", name) ==> Project(row, t.columns) in r.employees)
        && (forall e :: e in r.employees ==>
              exists row :: row in t.rows && CellMatches(row, "full_name", name) && e == Project(row, t.columns))
  {
    var matches := Matching(t.rows, "full_name", name);
    var r := GetEmployeeByName(t, name);
    if r.MultipleMatches? {
      var recs := Records(matches, t.columns);
      assert r.employees == recs;
      assert |matches| == |MatchIndices(t.rows, "full_name", name)| by {
        MatchingCountsMatches(t.rows, "full_name", name);
      }
      MatchingMembers(t.rows, "full_name", name);
      forall row | row in t.rows && CellMatches(row, "full_name", name)
        ensures Project(row, t.columns) in recs
      {
        var k :| 0 <= k < |matches| && matches[k] == row;
        assert recs[k] == Project(row, t.columns);
      }
      forall e | e in recs
        ensures exists row :: row in t.rows && CellMatches(row, "full_name", name) && e == Project(row, t.columns)
      {
        var k :| 0 <= k < |recs| && recs[k] == e;
        assert matches[k] in matches;
      }
    }
  }

  // ---------------------------------------------------------------------------
  // get_team_members
  // ---------------------------------------------------------------------------

  /** A truthy optional argument: given and non-empty. */
  predicate Given(arg: Option<string>) {
    arg.Some? && arg.value != ""
  }

  /** pandas' `unique()`: each value once, in order of first appearance. */
  function Distinct<T(==)>(s: seq<T>): (r: seq<T>)
    ensures |r| <= |s|
  {
    if s == [] then []
    else
      var prev := Distinct(s[..|s| - 1]);
      if s[|s| - 1] in prev then prev else prev + [s[|s| - 1]]
  }

  function ColumnValues(rows: seq<Row>, col: string): (r: seq<Option<string>>)
    ensures |r| == |rows|
    ensures forall i :: 0 <= i < |rows| ==> r[i] == Value(rows[i], col)
  {
    seq(|rows|, i requires 0 <= i < |rows| => Value(rows[i], col))
  }

  /** The department filter, then the manager filter, each only when given. */
  function TeamRows(t: Table, department: Option<string>, manager: Option<string>): seq<Row> {
    var byDepartment := if Given(department) then Matching(t.rows, "department", department.value) else t.rows;
    if Given(manager) then Matching(byDepartment, "manager", manager.value) else byDepartment
  }

  datatype TeamResult =
    | NoTeamMembers   // `found: False` with the message "No team members found matching criteria"
    | Team(count: nat, teamMembers: seq<Record>, roles: seq<Option<string>>, locations: seq<Option<string>>)

  /** `get_team_members`. */
  method GetTeamMembers(t: Table, department: Option<string>, manager: Option<string>) returns (r: TeamResult)
    requires "department" in t.columns && "manager" in t.columns
    requires "role" in t.columns && "location" in t.columns
    ensures var rows := TeamRows(t, department, manager);
      && (rows == [] ==> r == NoTeamMembers)
      && (rows != [] ==> r == Team(|rows|, Records(rows, t.columns),
                                   Distinct(ColumnValues(rows, "role")),
                                   Distinct(ColumnValues(rows, "location"))))
  {
    var rows := t.rows;
    if Given(department) {
      rows := Matching(rows, "department", department.value);
    }
    if Given(manager) {
      rows := Matching(rows, "manager", manager.value);
    }
    if |rows| == 0 {
      return NoTeamMembers;
    }
    r := Team(|rows|, Records(rows, t.columns),
              Distinct(ColumnValues(rows, "role")), Distinct(ColumnValues(rows, "location")));
  }

  /** The team is the rows matching every given filter; an absent or empty argument filters nothing. */
  lemma TeamFiltersConjunctive(t: Table, department: Option<string>, manager: Option<string>, row: Row)
    ensures row in TeamRows(t, department, manager) <==>
      row in t.rows
      && (Given(department) ==> CellMatches(row, "department", department.value))
      && (Given(manager) ==> CellMatches(row, "manager", manager.value))
  {
    MatchingMembers(t.rows, "department", department.GetOr(""));
    var byDepartment := if Given(department) then Matching(t.rows, "department", department.value) else t.rows;
    MatchingMembers(byDepartment, "manager", manager.GetOr(""));
  }

  /** The position of the first occurrence. */
  function FirstIndex<T(==)>(s: seq<T>, x: T): (i: nat)
    requires x in s
    ensures i < |s| && s[i] == x && x !in s[..i]
  {
    if s[0] == x then 0 else 1 + FirstIndex(s[1..], x)
  }

  lemma {:induction false} FirstIndexExtend<T>(s: seq<T>, y: T, x: T)
    requires x in s
    ensures FirstIndex(s + [y], x) == FirstIndex(s, x)
  {
    if s[0] != x {
      assert (s + [y])[1..] == s[1..] + [y];
      FirstIndexExtend(s[1..], y, x);
    }
  }

  /**
   * `unique()` keeps each value once, loses none, and lists them in order of their
   * first appearance.
   */
  lemma {:induction false} DistinctSpec<T>(s: seq<T>)
    ensures forall x :: x in Distinct(s) <==> x in s
    ensures forall i :: 0 <= i < |Distinct(s)| ==> Distinct(s)[i] in s
    ensures forall i, j :: 0 <= i < j < |Distinct(s)| ==> Distinct(s)[i] != Distinct(s)[j]
    ensures forall i, j :: 0 <= i < j < |Distinct(s)| ==> FirstIndex(s, Distinct(s)[i]) < FirstIndex(s, Distinct(s)[j])
  {
    if s != [] {
      var init, y := s[..|s| - 1], s[|s| - 1];
      DistinctSpec(init);
      var prev := Distinct(init);
      assert s == init + [y];
      forall i | 0 <= i < |prev| ensures prev[i] in init && FirstIndex(s, prev[i]) == FirstIndex(init, prev[i]) {
        FirstIndexExtend(init, y, prev[i]);
      }
      if y !in prev {
        assert FirstIndex(s, y) == |init|;
      }
    }
  }

  // ---------------------------------------------------------------------------
  // get_location_summary
  // ---------------------------------------------------------------------------

  /** How many rows hold `v` in `col`. */
  function CountValue(rows: seq<Row>, col: string, v: string): (n: nat)
    ensures n <= |rows|
  {
    if rows == [] then 0
    else CountValue(rows[..|rows| - 1], col, v) + (if Value(rows[|rows| - 1], col) == Some(v) then 1 else 0)
  }

  /** `value_counts()`: every present value of the column with its number of rows (missing values dropped). */
  function ValueCounts(rows: seq<Row>, col: string): map<string, nat> {
    map v | v in (set i | 0 <= i < |rows| && col in rows[i] :: rows[i][col]) :: CountValue(rows, col, v)
  }

  datatype LocationSummary = LocationSummary(
    totalEmployees: nat,
    locations: map<string, nat>,
    departments: map<string, nat>)

  /** `get_location_summary`, without the per-(location, role) breakdown. */
  function GetLocationSummary(t: Table, location: Option<string>): (r: LocationSummary)
    requires "location" in t.columns && "department" in t.columns
  {
    var rows := if Given(location) then Matching(t.rows, "location", location.value) else t.rows;
    LocationSummary(|rows|, ValueCounts(rows, "location"), ValueCounts(rows, "department"))
  }

  lemma {:induction false} CountValuePositive(rows: seq<Row>, col: string, i: nat)
    requires i < |rows| && col in rows[i]
    ensures CountValue(rows, col, rows[i][col]) >= 1
  {
    if i < |rows| - 1 {
      CountValuePositive(rows[..|rows| - 1], col, i);
    }
  }

  /**
   * `total_employees` counts the rows left after the location filter, and every
   * reported location and department occurs in at least one and at most all of them.
   */
  lemma LocationSummaryCounts(t: Table, location: Option<string>)
    requires "location" in t.columns && "department" in t.columns
    ensures var r := GetLocationSummary(t, location);
      var rows := if Given(location) then Matching(t.rows, "location", location.value) else t.rows;
      && r.totalEmployees == |rows|
      && (Given(location) ==> forall row :: row in rows <==> row in t.rows && CellMatches(row, "location", location.value))
      && (forall v :: v in r.locations ==> 1 <= r.locations[v] <= r.totalEmployees)
      && (forall v :: v in r.departments ==> 1 <= r.departments[v] <= r.totalEmployees)
  {
    var rows := if Given(location) then Matching(t.rows, "location", location.value) else t.rows;
    MatchingMembers(t.rows, "location", location.GetOr(""));
    forall v | v in ValueCounts(rows, "location") ensures ValueCounts(rows, "location")[v] >= 1 {
      var i :| 0 <= i < |rows| && "location" in rows[i] && rows[i]["location"] == v;
      CountValuePositive(rows, "location", i);
    }
    forall v | v in ValueCounts(rows, "department") ensures ValueCounts(rows, "department")[v] >= 1 {
      var i :| 0 <= i < |rows| && "department" in rows[i] && rows[i]["department"] == v;
      CountValuePositive(rows, "department", i);
    }
  }
}
