/** What the rows of a CSV query are, in terms of the file's cells alone
    (internal/query/service.go). */
module CsvMeaning {
  import opened Prelude
  import opened Domain
  import opened FoldSearch
  import opened CsvCells
  import opened CsvQuery
  import opened CsvPaging
  import FilterLaws

  /** What an operator asks of two values of which the first may be smaller or equal. */
  predicate Asks(op: string, smaller: bool, equal: bool) {
    match op
    case "=" => equal
    case "!=" => !equal
    case "<" => smaller
    case "<=" => smaller || equal
    case ">" => !smaller && !equal
    case ">=" => !smaller
    case _ => false
  }

  /** The column has a cell that is not empty, and all such cells are numbers. */
  predicate NumberColumn(tools: Tools, rows: seq<Row>, c: nat)
    requires forall r | 0 <= r < |rows| :: c < |rows[r]|
  {
    && (exists r | 0 <= r < |rows| :: rows[r][c] != "")
    && (forall r | 0 <= r < |rows| && rows[r][c] != "" :: tools.parse(rows[r][c]).Some?)
  }

  /** A cell of a column meets a filter: numbers by value in a column of numbers, text in
      dictionary order, `contains` up to case. */
  ghost predicate CellMeets(tools: Tools, cell: string, filter: Filter, numbers: bool) {
    if filter.op == "contains" then Occurs(tools.fold, cell, filter.value)
    else if numbers && Numbers(tools, cell, filter.value) then
      var left, right := tools.parse(cell).value, tools.parse(filter.value).value;
      Asks(filter.op, left < right, left == right)
    else Asks(filter.op, Precedes(cell, filter.value), cell == filter.value)
  }

  /** The row's cell in the column the filter names meets it. */
  ghost predicate RowMeets(tools: Tools, headers: seq<string>, rows: seq<Row>, filter: Filter, row: Row)
    requires Rectangular(rows, |headers|) && |row| == |headers|
  {
    exists c | 0 <= c < |headers| ::
      headers[c] == filter.column && CellMeets(tools, row[c], filter, NumberColumn(tools, rows, c))
  }

  lemma CellMeetsWhen(tools: Tools, cell: string, filter: Filter, numbers: bool)
    requires ValidOperator(filter.op)
    ensures FilterMatches(tools, cell, filter.op, filter.value, numbers) <==> CellMeets(tools, cell, filter, numbers)
  {
    if filter.op == "contains" {
      ContainsFindsFolded(tools, cell, filter.value, numbers);
    } else if numbers && Numbers(tools, cell, filter.value) {
      NumbersAreComparedByValue(tools, cell, filter.value);
    } else {
      TextIsComparedByOrder(tools, cell, filter.value, numbers);
      LexCompareIsDictionaryOrder(cell, filter.value);
    }
    hide Comparison, FilterMatches, Occurs, Precedes;
  }

  lemma KeepsWhen(tools: Tools, headers: seq<string>, rows: seq<Row>, filter: Filter, row: Row)
    requires Rectangular(rows, |headers|) && |row| == |headers| && Distinct(headers)
    requires filter.column in headers && ValidOperator(filter.op)
    ensures Keeps(tools, headers, Flags(tools, rows, |headers|), filter, row)
        <==> RowMeets(tools, headers, rows, filter, row)
  {
    var column := IndexOf(headers, filter.column).value;
    assert Numeric(tools, rows, column) == NumberColumn(tools, rows, column);
    CellMeetsWhen(tools, row[column], filter, NumberColumn(tools, rows, column));
    hide FilterMatches, CellMeets, Numeric, NumberColumn;
    forall c | 0 <= c < |headers| && headers[c] == filter.column ensures c == column {
    }
  }

  ghost predicate MeetsAll(tools: Tools, headers: seq<string>, rows: seq<Row>, filters: seq<Filter>, row: Row)
    requires Rectangular(rows, |headers|) && |row| == |headers|
  {
    forall i | 0 <= i < |filters| :: RowMeets(tools, headers, rows, filters[i], row)
  }

  lemma KeepsAllWhen(tools: Tools, headers: seq<string>, rows: seq<Row>, filters: seq<Filter>, row: Row)
    requires Rectangular(rows, |headers|) && |row| == |headers| && Distinct(headers)
    requires forall i | 0 <= i < |filters| :: filters[i].column in headers && ValidOperator(filters[i].op)
    ensures KeepsAll(tools, headers, Flags(tools, rows, |headers|), filters, row)
        <==> MeetsAll(tools, headers, rows, filters, row)
  {
    forall i | 0 <= i < |filters|
      ensures Keeps(tools, headers, Flags(tools, rows, |headers|), filters[i], row)
          <==> RowMeets(tools, headers, rows, filters[i], row)
    {
      KeepsWhen(tools, headers, rows, filters[i], row);
    }
    hide Keeps, RowMeets, Flags;
  }

  /** `shown` is the row cut to the named columns. */
  predicate Shows(headers: seq<string>, columns: seq<string>, row: Row, shown: Row)
    requires |row| == |headers|
  {
    && |shown| == |columns|
    && forall i, c | 0 <= i < |columns| && 0 <= c < |headers| && headers[c] == columns[i] :: shown[i] == row[c]
  }

  lemma ProjectShows(headers: seq<string>, columns: seq<string>, row: Row)
    requires SelectOk(headers, columns) && Distinct(headers) && |row| == |headers|
    ensures Shows(headers, columns, row, Project(Positions(headers, columns), row))
  {
  }

  /** The file's data rows that meet every filter, by position. */
  ghost predicate Kept(tools: Tools, file: CsvFile, req: Request, at: seq<nat>)
    requires WellFormed(file) && file.records != []
  {
    var headers, rows := file.records[0], file.records[1..];
    && (forall k | 0 <= k < |at| :: at[k] < |rows|) && (forall i, j | 0 <= i < j < |at| :: at[i] < at[j])
    && forall r | 0 <= r < |rows| :: r in at <==> MeetsAll(tools, headers, rows, req.filters, rows[r])
  }

  /** What the query answers for one file: of the data rows that meet every filter, those
      at the offset and up to the limit, in file order and cut to the chosen columns. */
  ghost predicate IsAnswer(tools: Tools, file: CsvFile, req: Request, offset: nat, limit: nat, r: FileResult,
                           at: seq<nat>)
    requires WellFormed(file) && file.records != []
  {
    && Kept(tools, file, req, at)
    && r.columns == (if req.select == [] then file.records[0] else req.select)
    && r.matched == |at| && r.returned == |r.rows|
    && |r.rows| == (if offset >= |at| then 0 else Min(limit, |at| - offset))
    && (r.hasMore <==> offset + |r.rows| < |at|)
    && forall j | 0 <= j < |r.rows| ::
         Shows(file.records[0], r.columns, file.records[1 + at[offset + j]], r.rows[j])
  }

  lemma KeptRows(tools: Tools, file: CsvFile, req: Request) returns (at: seq<nat>)
    requires WellFormed(file) && Acceptable(file, req)
    ensures Kept(tools, file, req, at) && |at| == |Answer(tools, file, req)|
    ensures forall k | 0 <= k < |at| ::
      Shows(file.records[0], Selected(file.records[0], req.select), file.records[1 + at[k]],
            Answer(tools, file, req)[k])
  {
    var headers, rows := file.records[0], file.records[1..];
    var columns, numeric := Selected(headers, req.select), Flags(tools, rows, |headers|);
    at := FilterLaws.FilteredIsSubsequence(tools, headers, numeric, req.filters, rows);
    forall r | 0 <= r < |rows| ensures r in at <==> MeetsAll(tools, headers, rows, req.filters, rows[r]) {
      KeepsAllWhen(tools, headers, rows, req.filters, rows[r]);
    }
    var kept := Filtered(tools, headers, numeric, req.filters, rows);
    forall k | 0 <= k < |at| ensures Shows(headers, columns, rows[at[k]], Answer(tools, file, req)[k]) {
      ProjectShows(headers, columns, kept[k]);
    }
    hide MeetsAll, KeepsAll, Filtered, Shows, Flags, Positions, Project;
  }

  lemma PageIsAnswer(tools: Tools, file: CsvFile, req: Request, offset: nat, limit: nat) returns (at: seq<nat>)
    requires WellFormed(file) && Acceptable(file, req)
    ensures IsAnswer(tools, file, req, offset, limit, Page(tools, file, req, offset, limit), at)
  {
    hide Kept, Shows, Acceptable, Answer, WellFormed;
    at := KeptRows(tools, file, req);
  }

  /** The request can be answered on the file: it parses, its header cells are distinct
      and not empty, and the request names its columns, each at most once in the
      selection, and uses the seven operators. */
  predicate CanAnswer(file: CsvFile, req: Request) {
    && file.records != [] && !file.malformed
    && var headers := file.records[0];
       && (forall i | 0 <= i < |headers| :: headers[i] != "")
       && (forall i, j | 0 <= i < j < |headers| :: headers[i] != headers[j])
       && (forall i | 0 <= i < |req.select| :: req.select[i] in headers)
       && (forall i, j | 0 <= i < j < |req.select| :: req.select[i] != req.select[j])
       && forall i | 0 <= i < |req.filters| ::
            req.filters[i].column in headers && req.filters[i].op in {"=", "!=", "contains", ">", "<", ">=", "<="}
  }

  lemma AcceptableWhen(file: CsvFile, req: Request)
    ensures Acceptable(file, req) <==> CanAnswer(file, req)
  {
  }

  /** The files are answered in turn: each Csv file that is ready, under the limit that
      the earlier ones leave, and no other. */
  lemma FileByFile(tools: Tools, assets: seq<CsvAsset>, n: nat, req: Request, limit: nat)
    returns (at: seq<nat>)
    requires n < |assets| && AllAcceptable(assets, n + 1, req) && req.offset >= 0
    ensures AllAcceptable(assets, n, req)
    ensures var before := Answers(tools, assets, n, req, limit);
            var after := Answers(tools, assets, n + 1, req, limit);
      if assets[n].format == Csv && assets[n].state == Ready then
        && |after| == |before| + 1 && after[..|before|] == before
        && WellFormed(assets[n].file) && CanAnswer(assets[n].file, req)
        && IsAnswer(tools, assets[n].file, req, req.offset, limit - Returned(before), after[|before|], at)
        && SkippedIds(assets, n + 1) == SkippedIds(assets, n)
      else after == before && SkippedIds(assets, n + 1) == SkippedIds(assets, n) + [assets[n].id]
  {
    hide Page, IsAnswer, Acceptable, WellFormed, CanAnswer, Answers, Returned, AllAcceptable;
    at := [];
    AcceptableHere(assets, n + 1, req);
    var files := Answers(tools, assets, n, req, limit);
    if Queryable(assets[n]) {
      var page := Page(tools, assets[n].file, req, req.offset, limit - Returned(files));
      at := PageIsAnswer(tools, assets[n].file, req, req.offset, limit - Returned(files));
      AcceptableWhen(assets[n].file, req);
      OneMoreFile(tools, assets, n, req, limit, files, page);
      assert (files + [page])[..|files|] == files;
    } else {
      SkippedFile(tools, assets, n, req, limit);
    }
  }
}
