/**
  The bounded CSV query (internal/query/service.go): cell comparison, column
  typing, one file in two passes, and many files under one row budget.

  A file is what `encoding/csv` yields: equal-width records and, after them,
  either the end of the file or a parse error.
 */
module CsvCells {
  import opened Prelude
  import opened FoldSearch

  type Row = seq<string>

  /** `parse` is the finite decimal parser; `fold` the rune folding. */
  datatype Tools = Tools(fold: char -> char, parse: string -> Option<real>)

  /** Code-point order, -1, 0 or 1. */
  function LexCompare(a: string, b: string): (r: int)
    ensures -1 <= r <= 1
  {
    if a == [] && b == [] then 0
    else if a == [] then -1
    else if b == [] then 1
    else if a[0] < b[0] then -1
    else if a[0] > b[0] then 1
    else LexCompare(a[1..], b[1..])
  }

  lemma {:induction false} LexCompareIsAnOrder(a: string, b: string)
    ensures LexCompare(a, b) == 0 <==> a == b
    ensures LexCompare(b, a) == -LexCompare(a, b)
  {
    if a != [] && b != [] && a[0] == b[0] {
      LexCompareIsAnOrder(a[1..], b[1..]);
      assert a == [a[0]] + a[1..] && b == [b[0]] + b[1..];
    }
  }

  lemma {:induction false} LexCompareTransitive(a: string, b: string, c: string)
    requires LexCompare(a, b) <= 0 && LexCompare(b, c) <= 0
    ensures LexCompare(a, c) <= 0
  {
    if a != [] && b != [] && c != [] && a[0] == b[0] == c[0] {
      LexCompareTransitive(a[1..], b[1..], c[1..]);
    }
  }

  /** Dictionary order: `a` is a proper front of `b`, or has the smaller character where
      they first differ. */
  ghost predicate Precedes(a: string, b: string) {
    || a < b
    || exists i | 0 <= i < |a| && i < |b| :: a[..i] == b[..i] && a[i] < b[i]
  }

  lemma PrecedesInTail(a: string, b: string)
    requires a != [] && b != [] && a[0] == b[0]
    ensures Precedes(a, b) <==> Precedes(a[1..], b[1..])
  {
    assert a == [a[0]] + a[1..] && b == [b[0]] + b[1..];
    if i :| 0 <= i < |a| && i < |b| && a[..i] == b[..i] && a[i] < b[i] {
      assert a[1..][..i - 1] == a[..i][1..] && b[1..][..i - 1] == b[..i][1..];
      assert a[1..][i - 1] < b[1..][i - 1];
    }
    if i :| 0 <= i < |a[1..]| && i < |b[1..]| && a[1..][..i] == b[1..][..i] && a[1..][i] < b[1..][i] {
      assert a[..i + 1] == [a[0]] + a[1..][..i] && b[..i + 1] == [b[0]] + b[1..][..i];
      assert a[i + 1] < b[i + 1];
    }
  }

  lemma {:induction false} LexCompareIsDictionaryOrder(a: string, b: string)
    ensures LexCompare(a, b) < 0 <==> Precedes(a, b)
    ensures LexCompare(a, b) > 0 <==> Precedes(b, a)
  {
    if a != [] && b != [] && a[0] == b[0] {
      PrecedesInTail(a, b);
      PrecedesInTail(b, a);
      LexCompareIsDictionaryOrder(a[1..], b[1..]);
      hide Precedes;
    } else if a != [] && b != [] {
      assert a[..0] == b[..0];
      assert forall i | 0 < i < |a| && i < |b| :: a[..i][0] != b[..i][0];
    }
  }

  /** Numbers compare as numbers in a numeric column, everything else as text. */
  function Comparison(tools: Tools, cell: string, value: string, numericColumn: bool): (r: int)
    ensures -1 <= r <= 1
  {
    if numericColumn && cell != "" && tools.parse(cell).Some? && tools.parse(value).Some? then
      var left, right := tools.parse(cell).value, tools.parse(value).value;
      if left < right then -1 else if left > right then 1 else 0
    else LexCompare(cell, value)
  }

  predicate ValidOperator(op: string) {
    op in ["=", "!=", "contains", ">", "<", ">=", "<="]
  }

  predicate FilterMatches(tools: Tools, cell: string, op: string, value: string, numericColumn: bool) {
    if op == "contains" then value == "" || FirstFold(tools.fold, cell, value).Some?
    else
      var comparison := Comparison(tools, cell, value, numericColumn);
      if op == "=" then comparison == 0
      else if op == "!=" then comparison != 0
      else if op == ">" then comparison > 0
      else if op == "<" then comparison < 0
      else if op == ">=" then comparison >= 0
      else if op == "<=" then comparison <= 0
      else false
  }

  predicate Numbers(tools: Tools, cell: string, value: string) {
    cell != "" && tools.parse(cell).Some? && tools.parse(value).Some?
  }

  /** What the comparing operators keep: numbers by their values in a numeric column. */
  lemma NumbersAreComparedByValue(tools: Tools, cell: string, value: string)
    requires Numbers(tools, cell, value)
    ensures var left, right := tools.parse(cell).value, tools.parse(value).value;
      && (FilterMatches(tools, cell, "=", value, true) <==> left == right)
      && (FilterMatches(tools, cell, "!=", value, true) <==> left != right)
      && (FilterMatches(tools, cell, "<", value, true) <==> left < right)
      && (FilterMatches(tools, cell, ">", value, true) <==> left > right)
      && (FilterMatches(tools, cell, "<=", value, true) <==> left <= right)
      && (FilterMatches(tools, cell, ">=", value, true) <==> left >= right)
  {
  }

  /** Everything else is compared in dictionary order. */
  lemma TextIsComparedByOrder(tools: Tools, cell: string, value: string, numericColumn: bool)
    requires !(numericColumn && Numbers(tools, cell, value))
    ensures FilterMatches(tools, cell, "=", value, numericColumn) <==> cell == value
    ensures FilterMatches(tools, cell, "!=", value, numericColumn) <==> cell != value
    ensures FilterMatches(tools, cell, "<", value, numericColumn) <==> Precedes(cell, value)
    ensures FilterMatches(tools, cell, ">", value, numericColumn) <==> Precedes(value, cell)
    ensures FilterMatches(tools, cell, "<=", value, numericColumn) <==> cell == value || Precedes(cell, value)
    ensures FilterMatches(tools, cell, ">=", value, numericColumn) <==> cell == value || Precedes(value, cell)
  {
    LexCompareIsAnOrder(cell, value);
    LexCompareIsDictionaryOrder(cell, value);
    hide Precedes, LexCompare;
  }

  /** `contains` keeps the cells in which the value occurs up to case. */
  lemma ContainsFindsFolded(tools: Tools, cell: string, value: string, numericColumn: bool)
    ensures FilterMatches(tools, cell, "contains", value, numericColumn) <==> Occurs(tools.fold, cell, value)
  {
    if value == "" {
      assert OccursAt(tools.fold, cell, value, 0);
    } else {
      FoundWhereItOccurs(tools.fold, cell, value);
    }
    hide FirstFold;
  }

  predicate Rectangular(rows: seq<Row>, width: nat) {
    forall r | 0 <= r < |rows| :: |rows[r]| == width
  }

  /** A column is numeric when it holds a non-empty cell and every non-empty cell parses. */
  predicate Numeric(tools: Tools, rows: seq<Row>, column: nat)
    requires forall r | 0 <= r < |rows| :: column < |rows[r]|
  {
    && (exists r | 0 <= r < |rows| :: rows[r][column] != "")
    && (forall r | 0 <= r < |rows| :: rows[r][column] != "" ==> tools.parse(rows[r][column]).Some?)
  }

  method InferNumeric(tools: Tools, rows: seq<Row>, column: nat) returns (numeric: bool)
    requires forall r | 0 <= r < |rows| :: column < |rows[r]|
    ensures numeric <==> Numeric(tools, rows, column)
  {
    var found := false;
    for r := 0 to |rows|
      invariant found <==> exists k | 0 <= k < r :: rows[k][column] != ""
      invariant forall k | 0 <= k < r :: rows[k][column] != "" ==> tools.parse(rows[k][column]).Some?
    {
      var value := rows[r][column];
      if value != "" {
        found := true;
        if tools.parse(value).None? {
          return false;
        }
      }
    }
    return found;
  }

  datatype Inference = Inference(found: bool, numeric: bool)

  ghost predicate Inferred(tools: Tools, rows: seq<Row>, n: nat, column: nat, i: Inference)
    requires n <= |rows| && forall r | 0 <= r < |rows| :: column < |rows[r]|
  {
    && (i.found <==> exists k | 0 <= k < n :: rows[k][column] != "")
    && (i.numeric <==> forall k | 0 <= k < n :: rows[k][column] != "" ==> tools.parse(rows[k][column]).Some?)
  }

  function Advance(tools: Tools, before: Inference, cell: string): Inference {
    if cell == "" then before else Inference(true, before.numeric && tools.parse(cell).Some?)
  }

  method InferRow(tools: Tools, row: Row, before: seq<Inference>) returns (after: seq<Inference>)
    requires |before| == |row|
    ensures |after| == |row|
    ensures forall i | 0 <= i < |row| :: after[i] == Advance(tools, before[i], row[i])
  {
    after := before;
    for i := 0 to |row|
      invariant |after| == |row|
      invariant forall k | i <= k < |row| :: after[k] == before[k]
      invariant forall k | 0 <= k < i :: after[k] == Advance(tools, before[k], row[k])
    {
      if row[i] != "" {
        after := after[i := Inference(true, after[i].numeric && tools.parse(row[i]).Some?)];
      }
    }
  }

  lemma InferredGrows(tools: Tools, rows: seq<Row>, n: nat, column: nat, before: Inference)
    requires n < |rows| && forall r | 0 <= r < |rows| :: column < |rows[r]|
    requires Inferred(tools, rows, n, column, before)
    ensures Inferred(tools, rows, n + 1, column, Advance(tools, before, rows[n][column]))
  {
  }

  /** The first streaming pass: the flags of all columns at once agree with the
      per-column scan. */
  method InferColumns(tools: Tools, rows: seq<Row>, width: nat) returns (numeric: seq<bool>)
    requires Rectangular(rows, width)
    ensures |numeric| == width && forall i | 0 <= i < width :: numeric[i] == Numeric(tools, rows, i)
  {
    var inferred := seq(width, _ => Inference(false, true));
    for r := 0 to |rows|
      invariant |inferred| == width
      invariant forall i | 0 <= i < width :: Inferred(tools, rows, r, i, inferred[i])
    {
      var next := InferRow(tools, rows[r], inferred);
      forall i | 0 <= i < width ensures Inferred(tools, rows, r + 1, i, next[i]) {
        InferredGrows(tools, rows, r, i, inferred[i]);
      }
      inferred := next;
    }
    numeric := seq(width, i requires 0 <= i < |inferred| => inferred[i].found && inferred[i].numeric);
  }
}

module CsvQuery {
  import opened Prelude
  import opened Domain
  import opened CsvCells

  datatype Filter = Filter(column: string, op: string, value: string)

  datatype Request = Request(select: seq<string>, filters: seq<Filter>, limit: int, offset: int)

  /** The records the reader yields, then the end of the file or an error. */
  datatype CsvFile = CsvFile(records: seq<Row>, malformed: bool)

  datatype FileResult = FileResult(columns: seq<string>, rows: seq<Row>, returned: nat, matched: nat, hasMore: bool)

  predicate WellFormed(file: CsvFile) {
    file.records != [] ==> Rectangular(file.records, |file.records[0]|)
  }

  // ---------------------------------------------------------------- columns

  function IndexOf(headers: seq<string>, name: string): (r: Option<nat>)
    ensures r.Some? ==> r.value < |headers| && headers[r.value] == name
    ensures r.None? <==> name !in headers
  {
    if headers == [] then None
    else if headers[|headers| - 1] == name then Some(|headers| - 1)
    else IndexOf(headers[..|headers| - 1], name)
  }

  predicate HeaderOk(headers: seq<string>) {
    Distinct(headers) && "" !in headers
  }

  method ParseHeader(headers: seq<string>) returns (columns: map<string, nat>, ok: bool)
    ensures ok <==> HeaderOk(headers)
    ensures ok ==> forall name :: name in columns <==> name in headers
    ensures ok ==> forall name | name in columns :: Some(columns[name]) == IndexOf(headers, name)
  {
    columns := map[];
    for i := 0 to |headers|
      invariant Distinct(headers[..i]) && "" !in headers[..i]
      invariant forall name :: name in columns <==> name in headers[..i]
      invariant forall name | name in columns :: columns[name] < i && headers[columns[name]] == name
    {
      var header := headers[i];
      if header == "" || header in columns {
        assert header in headers[..i] ==> !Distinct(headers);
        return map[], false;
      }
      columns := columns[header := i];
    }
    assert headers[..|headers|] == headers;
    return columns, true;
  }

  predicate SelectOk(headers: seq<string>, selected: seq<string>) {
    Distinct(selected) && forall i | 0 <= i < |selected| :: selected[i] in headers
  }

  /** Positions of the selected columns, in selection order. */
  predicate Locates(headers: seq<string>, selected: seq<string>, indexes: seq<nat>) {
    |indexes| == |selected| && forall i | 0 <= i < |selected| :: Some(indexes[i]) == IndexOf(headers, selected[i])
  }

  method ResolveSelect(headers: seq<string>, columns: map<string, nat>, selected: seq<string>)
    returns (indexes: seq<nat>, ok: bool)
    requires forall name :: name in columns <==> name in headers
    requires forall name | name in columns :: Some(columns[name]) == IndexOf(headers, name)
    ensures ok <==> SelectOk(headers, selected)
    ensures ok ==> Locates(headers, selected, indexes)
  {
    indexes := [];
    var seen: set<string> := {};
    for i := 0 to |selected|
      invariant |indexes| == i && Distinct(selected[..i])
      invariant forall k | 0 <= k < i :: selected[k] in headers
      invariant forall k | 0 <= k < i :: Some(indexes[k]) == IndexOf(headers, selected[k])
      invariant forall name :: name in seen <==> name in selected[..i]
    {
      var name := selected[i];
      if name !in columns || name in seen {
        assert name in seen ==> !Distinct(selected);
        return [], false;
      }
      seen := seen + {name};
      indexes := indexes + [columns[name]];
    }
    assert selected[..|selected|] == selected;
    return indexes, true;
  }

  predicate FiltersOk(headers: seq<string>, filters: seq<Filter>) {
    forall i | 0 <= i < |filters| :: filters[i].column in headers && ValidOperator(filters[i].op)
  }

  method CheckFilters(headers: seq<string>, columns: map<string, nat>, filters: seq<Filter>) returns (ok: bool)
    requires forall name :: name in columns <==> name in headers
    ensures ok <==> FiltersOk(headers, filters)
  {
    for i := 0 to |filters|
      invariant forall k | 0 <= k < i :: filters[k].column in headers && ValidOperator(filters[k].op)
    {
      if filters[i].column !in columns || !ValidOperator(filters[i].op) {
        return false;
      }
    }
    return true;
  }

  // ---------------------------------------------------------------- rows

  /** One filter on one row; a filter on an unknown column keeps nothing. */
  predicate Keeps(tools: Tools, headers: seq<string>, numeric: seq<bool>, filter: Filter, row: Row)
    requires |numeric| == |headers| == |row|
  {
    var column := IndexOf(headers, filter.column);
    && column.Some?
    && FilterMatches(tools, row[column.value], filter.op, filter.value, numeric[column.value])
  }

  predicate KeepsAll(tools: Tools, headers: seq<string>, numeric: seq<bool>, filters: seq<Filter>, row: Row)
    requires |numeric| == |headers| == |row|
  {
    forall i | 0 <= i < |filters| :: Keeps(tools, headers, numeric, filters[i], row)
  }

  /** The rows every filter keeps, in file order. */
  function Filtered(tools: Tools, headers: seq<string>, numeric: seq<bool>, filters: seq<Filter>,
                    rows: seq<Row>): (r: seq<Row>)
    requires |numeric| == |headers| && Rectangular(rows, |headers|)
    ensures |r| <= |rows| && Rectangular(r, |headers|)
  {
    if rows == [] then []
    else
      var before, row := rows[..|rows| - 1], rows[|rows| - 1];
      var kept := Filtered(tools, headers, numeric, filters, before);
      if KeepsAll(tools, headers, numeric, filters, row) then kept + [row] else kept
  }

  function Project(indexes: seq<nat>, row: Row): (r: Row)
    requires forall i | 0 <= i < |indexes| :: indexes[i] < |row|
    ensures |r| == |indexes| && forall i | 0 <= i < |indexes| :: r[i] == row[indexes[i]]
  {
    seq(|indexes|, i requires 0 <= i < |indexes| => row[indexes[i]])
  }

  function ProjectAll(indexes: seq<nat>, width: nat, rows: seq<Row>): (r: seq<Row>)
    requires Rectangular(rows, width) && forall i | 0 <= i < |indexes| :: indexes[i] < width
    ensures |r| == |rows| && forall k | 0 <= k < |rows| :: r[k] == Project(indexes, rows[k])
  {
    seq(|rows|, k requires 0 <= k < |rows| => Project(indexes, rows[k]))
  }

  /** Positions `offset` up to `offset + limit` of a listing, cut at its end. */
  function Window<T>(s: seq<T>, offset: nat, limit: nat): (r: seq<T>)
    ensures |r| == Min(offset + limit, |s|) - Min(offset, |s|)
  {
    s[Min(offset, |s|)..Min(offset + limit, |s|)]
  }

  lemma {:induction false} FilteredStep(tools: Tools, headers: seq<string>, numeric: seq<bool>, filters: seq<Filter>,
                                        rows: seq<Row>, n: nat)
    requires |numeric| == |headers| && Rectangular(rows, |headers|) && n < |rows|
    ensures var kept := Filtered(tools, headers, numeric, filters, rows[..n]);
      Filtered(tools, headers, numeric, filters, rows[..n + 1])
      == if KeepsAll(tools, headers, numeric, filters, rows[n]) then kept + [rows[n]] else kept
  {
    assert rows[..n + 1][..n] == rows[..n];
  }

  /** One more kept row enters the projected window exactly when its rank is in range. */
  lemma WindowGrows(indexes: seq<nat>, width: nat, kept: seq<Row>, row: Row, offset: nat, limit: nat)
    requires Rectangular(kept, width) && |row| == width && forall i | 0 <= i < |indexes| :: indexes[i] < width
    ensures Rectangular(Window(kept, offset, limit), width) && Rectangular(Window(kept + [row], offset, limit), width)
    ensures ProjectAll(indexes, width, Window(kept + [row], offset, limit))
         == ProjectAll(indexes, width, Window(kept, offset, limit))
            + if |kept| >= offset && |Window(kept, offset, limit)| < limit then [Project(indexes, row)] else []
  {
    if |kept| >= offset && |Window(kept, offset, limit)| < limit {
      assert Window(kept + [row], offset, limit) == Window(kept, offset, limit) + [row];
    } else {
      assert Window(kept + [row], offset, limit) == Window(kept, offset, limit);
    }
  }

  method MatchRow(tools: Tools, headers: seq<string>, columns: map<string, nat>, numeric: seq<bool>,
                  filters: seq<Filter>, row: Row)
    returns (ok: bool)
    requires |numeric| == |headers| == |row| && FiltersOk(headers, filters)
    requires forall name :: name in columns <==> name in headers
    requires forall name | name in columns :: Some(columns[name]) == IndexOf(headers, name)
    ensures ok <==> KeepsAll(tools, headers, numeric, filters, row)
  {
    for i := 0 to |filters|
      invariant forall k | 0 <= k < i :: Keeps(tools, headers, numeric, filters[k], row)
    {
      hide FilterMatches;
      var filter := filters[i];
      var index := columns[filter.column];
      if !FilterMatches(tools, row[index], filter.op, filter.value, numeric[index]) {
        assert !Keeps(tools, headers, numeric, filter, row);
        return false;
      }
    }
    return true;
  }

  lemma NothingCollected(tools: Tools, headers: seq<string>, numeric: seq<bool>, filters: seq<Filter>,
                         indexes: seq<nat>,
                         records: seq<Row>, offset: nat, limit: nat)
    requires |numeric| == |headers| && Rectangular(records, |headers|) && FiltersOk(headers, filters)
    requires forall i | 0 <= i < |indexes| :: indexes[i] < |headers|
    ensures Rectangular([], |headers|) && Window<Row>([], offset, limit) == []
    ensures Rectangular(records[..0], |headers|) && Filtered(tools, headers, numeric, filters, records[..0]) == []
    ensures ProjectAll(indexes, |headers|, []) == []
  {
  }

  /** The second streaming pass. */
  method CollectRows(tools: Tools, headers: seq<string>, columns: map<string, nat>, numeric: seq<bool>,
                     filters: seq<Filter>, indexes: seq<nat>, records: seq<Row>, offset: nat, limit: nat)
    returns (rows: seq<Row>, matched: nat)
    requires |numeric| == |headers| && Rectangular(records, |headers|) && FiltersOk(headers, filters)
    requires forall i | 0 <= i < |indexes| :: indexes[i] < |headers|
    requires forall name :: name in columns <==> name in headers
    requires forall name | name in columns :: Some(columns[name]) == IndexOf(headers, name)
    ensures var kept := Filtered(tools, headers, numeric, filters, records);
      && Rectangular(Window(kept, offset, limit), |headers|)
      && rows == ProjectAll(indexes, |headers|, Window(kept, offset, limit))
      && matched == |kept|
  {
    rows, matched := [], 0;
    ghost var kept: seq<Row> := [];
    hide Filtered, KeepsAll, ProjectAll, Window, Project, FiltersOk;
    NothingCollected(tools, headers, numeric, filters, indexes, records, offset, limit);
    for n := 0 to |records|
      invariant Rectangular(kept, |headers|) && Rectangular(Window(kept, offset, limit), |headers|)
      invariant kept == Filtered(tools, headers, numeric, filters, records[..n]) && matched == |kept|
      invariant rows == ProjectAll(indexes, |headers|, Window(kept, offset, limit))
    {
      FilteredStep(tools, headers, numeric, filters, records, n);
      var row := records[n];
      var ok := MatchRow(tools, headers, columns, numeric, filters, row);
      if ok {
        WindowGrows(indexes, |headers|, kept, row, offset, limit);
        if matched >= offset && |rows| < limit {
          rows := rows + [Project(indexes, row)];
        }
        matched := matched + 1;
        kept := kept + [row];
      }
    }
    assert records[..|records|] == records;
  }

  // ---------------------------------------------------------------- one file

  function Selected(headers: seq<string>, select: seq<string>): seq<string> {
    if select == [] then headers else select
  }

  /** What a file and a request must satisfy for the query to succeed. */
  predicate Acceptable(file: CsvFile, req: Request) {
    && file.records != [] && !file.malformed
    && HeaderOk(file.records[0])
    && SelectOk(file.records[0], Selected(file.records[0], req.select))
    && FiltersOk(file.records[0], req.filters)
  }

  function Flags(tools: Tools, rows: seq<Row>, width: nat): (r: seq<bool>)
    requires Rectangular(rows, width)
    ensures |r| == width && forall i | 0 <= i < width :: r[i] == Numeric(tools, rows, i)
  {
    seq(width, i requires 0 <= i < width => Numeric(tools, rows, i))
  }

  function Positions(headers: seq<string>, selected: seq<string>): (r: seq<nat>)
    requires SelectOk(headers, selected)
    ensures Locates(headers, selected, r) && forall i | 0 <= i < |r| :: r[i] < |headers|
  {
    seq(|selected|, i requires 0 <= i < |selected| => IndexOf(headers, selected[i]).value)
  }

  /** All rows the request keeps, projected to the selected columns. */
  function Answer(tools: Tools, file: CsvFile, req: Request): seq<Row>
    requires WellFormed(file) && Acceptable(file, req)
  {
    var headers, data := file.records[0], file.records[1..];
    var numeric := Flags(tools, data, |headers|);
    ProjectAll(Positions(headers, Selected(headers, req.select)), |headers|,
               Filtered(tools, headers, numeric, req.filters, data))
  }

  /** The simple form of one file's result. */
  function Page(tools: Tools, file: CsvFile, req: Request, offset: nat, limit: nat): FileResult
    requires WellFormed(file) && Acceptable(file, req)
  {
    var all := Answer(tools, file, req);
    var rows := Window(all, offset, limit);
    FileResult(Selected(file.records[0], req.select), rows, |rows|, |all|, |all| > offset + limit)
  }

  lemma WindowOfProjection(indexes: seq<nat>, width: nat, kept: seq<Row>, offset: nat, limit: nat)
    requires Rectangular(kept, width) && forall i | 0 <= i < |indexes| :: indexes[i] < width
    ensures Rectangular(Window(kept, offset, limit), width)
    ensures ProjectAll(indexes, width, Window(kept, offset, limit))
         == Window(ProjectAll(indexes, width, kept), offset, limit)
  {
  }

  method QueryCsvAsset(tools: Tools, file: CsvFile, req: Request, limit: nat) returns (r: Result<FileResult, Code>)
    requires WellFormed(file) && req.offset >= 0
    ensures r.Ok? <==> Acceptable(file, req)
    ensures r.Ok? ==> r.value == Page(tools, file, req, req.offset, limit)
    ensures r.Err? ==> r.error == QueryInvalid
  {
    if file.records == [] {
      return Err(QueryInvalid);
    }
    var headers := file.records[0];
    var columns, headerOk := ParseHeader(headers);
    if !headerOk || file.malformed {
      return Err(QueryInvalid);
    }
    var data := file.records[1..];
    var numeric := InferColumns(tools, data, |headers|);
    var selected := if |req.select| == 0 then headers else req.select;
    var indexes, selectOk := ResolveSelect(headers, columns, selected);
    if !selectOk {
      return Err(QueryInvalid);
    }
    var filtersOk := CheckFilters(headers, columns, req.filters);
    if !filtersOk {
      return Err(QueryInvalid);
    }
    assert numeric == Flags(tools, data, |headers|);
    assert indexes == Positions(headers, selected);
    var rows, matched := CollectRows(tools, headers, columns, numeric, req.filters, indexes, data, req.offset, limit);
    WindowOfProjection(indexes, |headers|, Filtered(tools, headers, numeric, req.filters, data), req.offset, limit);
    return Ok(FileResult(selected, rows, |rows|, matched, req.offset + |rows| < matched));
  }
}
