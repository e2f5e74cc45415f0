/** Laws of CSV filtering and paging (internal/query/service.go). */
module FilterLaws {
  import opened Prelude
  import opened CsvCells
  import opened CsvQuery

  /** Adding filters keeps filtering what was already kept: the result of more
      filters is obtained from the result of fewer, in the same order. */
  lemma {:induction false} AddingFilters(tools: Tools, headers: seq<string>, numeric: seq<bool>,
                                         first: seq<Filter>, more: seq<Filter>, rows: seq<Row>)
    requires |numeric| == |headers| && Rectangular(rows, |headers|)
    ensures Filtered(tools, headers, numeric, first + more, rows)
         == Filtered(tools, headers, numeric, more, Filtered(tools, headers, numeric, first, rows))
  {
    if rows != [] {
      hide KeepsAll;
      var before, row := rows[..|rows| - 1], rows[|rows| - 1];
      AddingFilters(tools, headers, numeric, first, more, before);
      KeepsBoth(tools, headers, numeric, first, more, row);
      FilteredAppend(tools, headers, numeric, more, Filtered(tools, headers, numeric, first, before), row);
    }
  }

  lemma KeepsBoth(tools: Tools, headers: seq<string>, numeric: seq<bool>, first: seq<Filter>, more: seq<Filter>,
                  row: Row)
    requires |numeric| == |headers| == |row|
    ensures KeepsAll(tools, headers, numeric, first + more, row)
        <==> KeepsAll(tools, headers, numeric, first, row) && KeepsAll(tools, headers, numeric, more, row)
  {
    hide Keeps;
    var both := first + more;
    assert forall i | 0 <= i < |first| :: both[i] == first[i];
    assert forall i | 0 <= i < |more| :: both[|first| + i] == more[i];
  }

  lemma {:induction false} FilteredAppend(tools: Tools, headers: seq<string>, numeric: seq<bool>, filters: seq<Filter>,
                                          rows: seq<Row>, row: Row)
    requires |numeric| == |headers| == |row| && Rectangular(rows, |headers|)
    ensures var kept := Filtered(tools, headers, numeric, filters, rows);
      Filtered(tools, headers, numeric, filters, rows + [row])
      == if KeepsAll(tools, headers, numeric, filters, row) then kept + [row] else kept
  {
    assert (rows + [row])[..|rows|] == rows;
  }

  /** The kept rows are a subsequence of the file, and nothing kept is missed. */
  lemma {:induction false} FilteredIsSubsequence(tools: Tools, headers: seq<string>, numeric: seq<bool>,
                                                 filters: seq<Filter>, rows: seq<Row>)
    returns (at: seq<nat>)
    requires |numeric| == |headers| && Rectangular(rows, |headers|)
    ensures var kept := Filtered(tools, headers, numeric, filters, rows);
      && |at| == |kept|
      && (forall k | 0 <= k < |at| :: at[k] < |rows| && rows[at[k]] == kept[k])
      && (forall i, j | 0 <= i < j < |at| :: at[i] < at[j])
    ensures forall r | 0 <= r < |rows| :: r in at <==> KeepsAll(tools, headers, numeric, filters, rows[r])
  {
    at := [];
    if rows != [] {
      hide KeepsAll;
      var n := |rows| - 1;
      at := FilteredIsSubsequence(tools, headers, numeric, filters, rows[..n]);
      if KeepsAll(tools, headers, numeric, filters, rows[n]) {
        at := at + [n];
      }
    }
  }

  /** When two filters exclude each other and together make up a third, the rows
      the third keeps are those of the first plus those of the second. */
  lemma {:induction false} FilteredSum(tools: Tools, headers: seq<string>, numeric: seq<bool>,
                                       f: Filter, g: Filter, either: Filter, rows: seq<Row>)
    requires |numeric| == |headers| && Rectangular(rows, |headers|)
    requires forall k | 0 <= k < |rows| :: ExactlyOne(tools, headers, numeric, f, g, either, rows[k])
    ensures multiset(Filtered(tools, headers, numeric, [either], rows))
         == multiset(Filtered(tools, headers, numeric, [f], rows))
            + multiset(Filtered(tools, headers, numeric, [g], rows))
  {
    if rows != [] {
      var n := |rows| - 1;
      FilteredSum(tools, headers, numeric, f, g, either, rows[..n]);
      assert ExactlyOne(tools, headers, numeric, f, g, either, rows[n]);
      hide Keeps;
      SingleFilter(tools, headers, numeric, f, rows[n]);
      SingleFilter(tools, headers, numeric, g, rows[n]);
      SingleFilter(tools, headers, numeric, either, rows[n]);
    }
  }

  lemma SingleFilter(tools: Tools, headers: seq<string>, numeric: seq<bool>, f: Filter, row: Row)
    requires |numeric| == |headers| == |row|
    ensures KeepsAll(tools, headers, numeric, [f], row) <==> Keeps(tools, headers, numeric, f, row)
  {
    hide Keeps;
    assert [f][0] == f;
  }

  predicate ExactlyOne(tools: Tools, headers: seq<string>, numeric: seq<bool>, f: Filter, g: Filter, either: Filter,
                       row: Row)
    requires |numeric| == |headers| == |row|
  {
    && (Keeps(tools, headers, numeric, either, row)
        <==> Keeps(tools, headers, numeric, f, row) || Keeps(tools, headers, numeric, g, row))
    && !(Keeps(tools, headers, numeric, f, row) && Keeps(tools, headers, numeric, g, row))
  }

  lemma {:induction false} EverythingKept(tools: Tools, headers: seq<string>, numeric: seq<bool>, rows: seq<Row>)
    requires |numeric| == |headers| && Rectangular(rows, |headers|)
    ensures Filtered(tools, headers, numeric, [], rows) == rows
  {
    if rows != [] {
      EverythingKept(tools, headers, numeric, rows[..|rows| - 1]);
    }
  }

  /** Two filters that disagree on every row split the file between them. */
  lemma {:induction false} FilteredComplement(tools: Tools, headers: seq<string>, numeric: seq<bool>,
                                              f: Filter, g: Filter, rows: seq<Row>)
    requires |numeric| == |headers| && Rectangular(rows, |headers|)
    requires forall k | 0 <= k < |rows| ::
               Keeps(tools, headers, numeric, f, rows[k]) != Keeps(tools, headers, numeric, g, rows[k])
    ensures multiset(Filtered(tools, headers, numeric, [f], rows))
            + multiset(Filtered(tools, headers, numeric, [g], rows))
         == multiset(rows)
  {
    hide Keeps, KeepsAll;
    if rows != [] {
      hide Filtered;
      var before, row := rows[..|rows| - 1], rows[|rows| - 1];
      FilteredComplement(tools, headers, numeric, f, g, before);
      assert rows[|rows| - 1] == row;
      SingleFilter(tools, headers, numeric, f, row);
      SingleFilter(tools, headers, numeric, g, row);
      FilteredAppend(tools, headers, numeric, [f], before, row);
      FilteredAppend(tools, headers, numeric, [g], before, row);
      assert rows == before + [row];
      OneSideGrows(Filtered(tools, headers, numeric, [f], before), Filtered(tools, headers, numeric, [g], before),
                   before, row,
                   KeepsAll(tools, headers, numeric, [f], row));
    }
  }

  lemma OneSideGrows(a: seq<Row>, b: seq<Row>, all: seq<Row>, row: Row, first: bool)
    requires multiset(a) + multiset(b) == multiset(all)
    ensures multiset(if first then a + [row] else a) + multiset(if first then b else b + [row]) == multiset(all + [row])
  {
  }

  function Matching(tools: Tools, headers: seq<string>, numeric: seq<bool>, column: string, op: string, value: string,
                    rows: seq<Row>): seq<Row>
    requires |numeric| == |headers| && Rectangular(rows, |headers|)
  {
    Filtered(tools, headers, numeric, [Filter(column, op, value)], rows)
  }

  lemma ComplementaryOps(tools: Tools, headers: seq<string>, numeric: seq<bool>, column: string, op: string,
                         other: string,
                         value: string, row: Row)
    requires |numeric| == |headers| == |row| && column in headers
    requires (op, other) in {("<", ">="), (">", "<="), ("=", "!=")}
    ensures Keeps(tools, headers, numeric, Filter(column, op, value), row)
         != Keeps(tools, headers, numeric, Filter(column, other, value), row)
  {
    hide Comparison;
  }

  /** `>=` is the complement of `<`, `<=` of `>`, `!=` of `=`, in every column and table. */
  lemma {:induction false} Complements(tools: Tools, headers: seq<string>, numeric: seq<bool>, column: string,
                                       op: string,
                                       other: string, value: string, rows: seq<Row>)
    requires |numeric| == |headers| && Rectangular(rows, |headers|) && column in headers
    requires (op, other) in {("<", ">="), (">", "<="), ("=", "!=")}
    ensures multiset(Matching(tools, headers, numeric, column, op, value, rows))
          + multiset(Matching(tools, headers, numeric, column, other, value, rows)) == multiset(rows)
  {
    var f, g := Filter(column, op, value), Filter(column, other, value);
    forall k | 0 <= k < |rows|
      ensures Keeps(tools, headers, numeric, f, rows[k]) != Keeps(tools, headers, numeric, g, rows[k])
    {
      ComplementaryOps(tools, headers, numeric, column, op, other, value, rows[k]);
    }
    FilteredComplement(tools, headers, numeric, f, g, rows);
  }

  lemma AtMostIsLessOrEqual(tools: Tools, headers: seq<string>, numeric: seq<bool>, column: string, value: string,
                            row: Row)
    requires |numeric| == |headers| == |row|
    ensures ExactlyOne(tools, headers, numeric, Filter(column, "<", value), Filter(column, "=", value),
                       Filter(column, "<=", value), row)
  {
    hide Comparison;
  }

  /** The rows matched by `<`, `=` and `>` partition the file, whatever the cells
      hold, so their counts sum to the row count. */
  lemma {:induction false} Trichotomy(tools: Tools, headers: seq<string>, numeric: seq<bool>, column: string,
                                      value: string,
                                      rows: seq<Row>)
    requires |numeric| == |headers| && Rectangular(rows, |headers|) && column in headers
    ensures multiset(Matching(tools, headers, numeric, column, "<", value, rows))
          + multiset(Matching(tools, headers, numeric, column, "=", value, rows))
          + multiset(Matching(tools, headers, numeric, column, ">", value, rows)) == multiset(rows)
    ensures |Matching(tools, headers, numeric, column, "<", value, rows)|
          + |Matching(tools, headers, numeric, column, "=", value, rows)|
          + |Matching(tools, headers, numeric, column, ">", value, rows)| == |rows|
  {
    forall k | 0 <= k < |rows|
      ensures ExactlyOne(tools, headers, numeric, Filter(column, "<", value), Filter(column, "=", value),
                         Filter(column, "<=", value), rows[k])
    {
      AtMostIsLessOrEqual(tools, headers, numeric, column, value, rows[k]);
    }
    FilteredSum(tools, headers, numeric, Filter(column, "<", value), Filter(column, "=", value),
                Filter(column, "<=", value), rows);
    Complements(tools, headers, numeric, column, ">", "<=", value, rows);
    hide Matching;
    var lt, eq, gt := Matching(tools, headers, numeric, column, "<", value, rows),
      Matching(tools, headers, numeric, column, "=", value, rows),
      Matching(tools, headers, numeric, column, ">", value, rows);
    assert |multiset(lt) + multiset(eq) + multiset(gt)| == |lt| + |eq| + |gt|;
  }
}

module CsvPaging {
  import opened Prelude
  import opened Domain
  import opened CsvCells
  import opened CsvQuery

  datatype CsvAsset = CsvAsset(id: RecordId, format: AssetFormat, state: AssetState, file: CsvFile)

  predicate Queryable(a: CsvAsset) {
    a.format == Csv && a.state == Ready
  }

  function Returned(results: seq<FileResult>): nat {
    if results == [] then 0
    else Returned(results[..|results| - 1]) + results[|results| - 1].returned
  }

  predicate AllAcceptable(assets: seq<CsvAsset>, n: nat, req: Request)
    requires n <= |assets|
  {
    forall k | 0 <= k < n ::
      WellFormed(assets[k].file) && (Queryable(assets[k]) ==> Acceptable(assets[k].file, req))
  }

  /** Each queryable file in turn, with the budget the earlier files left. */
  function Answers(tools: Tools, assets: seq<CsvAsset>, n: nat, req: Request, limit: nat): (r: seq<FileResult>)
    requires n <= |assets| && AllAcceptable(assets, n, req) && req.offset >= 0
    ensures Returned(r) <= limit
  {
    if n == 0 then []
    else
      var before := Answers(tools, assets, n - 1, req, limit);
      if !Queryable(assets[n - 1]) then before
      else
        var page := Page(tools, assets[n - 1].file, req, req.offset, limit - Returned(before));
        ReturnedAppend(before, page);
        before + [page]
  }

  lemma NothingReturned()
    ensures Returned([]) == 0
  {
  }

  lemma ReturnedAppend(results: seq<FileResult>, last: FileResult)
    ensures Returned(results + [last]) == Returned(results) + last.returned
  {
    assert (results + [last])[..|results|] == results;
  }

  /** Rows past the offset in every queryable file. */
  function Available(tools: Tools, assets: seq<CsvAsset>, n: nat, req: Request): nat
    requires n <= |assets| && AllAcceptable(assets, n, req) && req.offset >= 0
  {
    if n == 0 then 0
    else
      Available(tools, assets, n - 1, req)
      + if Queryable(assets[n - 1])
        then |Answer(tools, assets[n - 1].file, req)| - Min(req.offset, |Answer(tools, assets[n - 1].file, req)|)
        else 0
  }

  lemma PageCount(tools: Tools, file: CsvFile, req: Request, limit: nat)
    requires WellFormed(file) && Acceptable(file, req) && req.offset >= 0
    ensures var all := |Answer(tools, file, req)|;
            Page(tools, file, req, req.offset, limit).returned == Min(limit, all - Min(req.offset, all))
  {
    hide Answer, Acceptable, WellFormed;
  }

  lemma AcceptableHere(assets: seq<CsvAsset>, n: nat, req: Request)
    requires 0 < n <= |assets| && AllAcceptable(assets, n, req)
    ensures AllAcceptable(assets, n - 1, req) && WellFormed(assets[n - 1].file)
    ensures Queryable(assets[n - 1]) ==> Acceptable(assets[n - 1].file, req)
  {
    hide WellFormed, Acceptable, Queryable;
  }

  /** The shared budget is spent completely or every available row is returned. */
  lemma {:induction false} BudgetIsExact(tools: Tools, assets: seq<CsvAsset>, n: nat, req: Request, limit: nat)
    requires n <= |assets| && AllAcceptable(assets, n, req) && req.offset >= 0
    ensures Returned(Answers(tools, assets, n, req, limit)) == Min(limit, Available(tools, assets, n, req))
  {
    hide Answer, Page, Acceptable, WellFormed, Queryable, AllAcceptable, Returned;
    if n == 0 {
      NothingReturned();
    } else {
      AcceptableHere(assets, n, req);
      BudgetIsExact(tools, assets, n - 1, req, limit);
      var before := Answers(tools, assets, n - 1, req, limit);
      if Queryable(assets[n - 1]) {
        PageCount(tools, assets[n - 1].file, req, limit - Returned(before));
        ReturnedAppend(before, Page(tools, assets[n - 1].file, req, req.offset, limit - Returned(before)));
      }
    }
  }

  function EffectiveLimit(limit: nat, defaultRows: nat, maxRows: nat): nat {
    Min(if limit == 0 then defaultRows else limit, maxRows)
  }

  method ClampLimit(requested: nat, defaultRows: nat, maxRows: nat) returns (limit: nat)
    ensures limit == EffectiveLimit(requested, defaultRows, maxRows)
  {
    limit := requested;
    if limit == 0 {
      limit := defaultRows;
    }
    if limit > maxRows {
      limit := maxRows;
    }
  }

  function SkippedIds(assets: seq<CsvAsset>, n: nat): (r: seq<RecordId>)
    requires n <= |assets|
    ensures |r| <= n
  {
    if n == 0 then []
    else if Queryable(assets[n - 1]) then SkippedIds(assets, n - 1)
    else SkippedIds(assets, n - 1) + [assets[n - 1].id]
  }

  lemma {:induction false} SkippedAll(assets: seq<CsvAsset>, n: nat)
    requires n <= |assets|
    ensures |SkippedIds(assets, n)| == n <==> forall k | 0 <= k < n :: !Queryable(assets[k])
  {
    hide Queryable;
    if n > 0 {
      SkippedAll(assets, n - 1);
    }
  }

  /** A skipped asset adds nothing to the answer. */
  lemma {:induction false} SkippedFile(tools: Tools, assets: seq<CsvAsset>, k: nat, req: Request, limit: nat)
    requires k < |assets| && AllAcceptable(assets, k, req) && req.offset >= 0
    requires WellFormed(assets[k].file) && !Queryable(assets[k])
    ensures AllAcceptable(assets, k + 1, req)
    ensures Answers(tools, assets, k + 1, req, limit) == Answers(tools, assets, k, req, limit)
    ensures SkippedIds(assets, k + 1) == SkippedIds(assets, k) + [assets[k].id]
  {
  }

  /** A queryable asset adds its page under the budget left. */
  lemma {:induction false} OneMoreFile(tools: Tools, assets: seq<CsvAsset>, k: nat, req: Request, limit: nat,
                                       files: seq<FileResult>, page: FileResult)
    requires k < |assets| && AllAcceptable(assets, k, req) && req.offset >= 0
    requires WellFormed(assets[k].file) && Queryable(assets[k]) && Acceptable(assets[k].file, req)
    requires files == Answers(tools, assets, k, req, limit)
    requires page == Page(tools, assets[k].file, req, req.offset, limit - Returned(files))
    ensures AllAcceptable(assets, k + 1, req)
    ensures Answers(tools, assets, k + 1, req, limit) == files + [page]
    ensures SkippedIds(assets, k + 1) == SkippedIds(assets, k)
    ensures Returned(files + [page]) == Returned(files) + page.returned <= limit
  {
    ReturnedAppend(files, page);
    hide Page, Acceptable, WellFormed, Returned;
  }

  lemma NotAllAcceptable(assets: seq<CsvAsset>, k: nat, req: Request)
    requires k < |assets| && Queryable(assets[k]) && !Acceptable(assets[k].file, req)
    ensures !AllAcceptable(assets, |assets|, req)
  {
  }

  lemma NoFilesYet(tools: Tools, assets: seq<CsvAsset>, req: Request, limit: nat)
    requires req.offset >= 0 && forall k | 0 <= k < |assets| :: WellFormed(assets[k].file)
    ensures AllAcceptable(assets, 0, req) && Answers(tools, assets, 0, req, limit) == [] && SkippedIds(assets, 0) == []
    ensures Returned([]) == 0
  {
  }

  /** One asset: skipped, answered under the budget left, or refused. */
  method QueryNext(tools: Tools, assets: seq<CsvAsset>, k: nat, req: Request, limit: nat, files: seq<FileResult>,
                   remaining: nat)
    returns (r: Result<Option<FileResult>, Code>)
    requires k < |assets| && req.offset >= 0 && WellFormed(assets[k].file) && AllAcceptable(assets, k, req)
    requires files == Answers(tools, assets, k, req, limit) && remaining == limit - Returned(files)
    ensures r.Err? ==> r.error == QueryInvalid && !AllAcceptable(assets, |assets|, req)
    ensures r.Ok? ==> AllAcceptable(assets, k + 1, req)
    ensures r.Ok? && r.value.None? ==>
      && Answers(tools, assets, k + 1, req, limit) == files
      && SkippedIds(assets, k + 1) == SkippedIds(assets, k) + [assets[k].id]
    ensures r.Ok? && r.value.Some? ==>
      && Answers(tools, assets, k + 1, req, limit) == files + [r.value.value]
      && SkippedIds(assets, k + 1) == SkippedIds(assets, k)
      && Returned(files + [r.value.value]) == Returned(files) + r.value.value.returned <= limit
  {
    hide *;
    var a := assets[k];
    if !Queryable(a) {
      SkippedFile(tools, assets, k, req, limit);
      return Ok(None);
    }
    var file := QueryCsvAsset(tools, a.file, req, remaining);
    if file.Err? {
      NotAllAcceptable(assets, k, req);
      return Err(QueryInvalid);
    }
    OneMoreFile(tools, assets, k, req, limit, files, file.value);
    return Ok(Some(file.value));
  }

  /** The files in turn, each under the budget the earlier ones left. */
  method CollectFiles(tools: Tools, assets: seq<CsvAsset>, req: Request, limit: nat)
    returns (r: Result<(seq<FileResult>, seq<RecordId>), Code>, compatible: nat)
    requires req.offset >= 0 && forall k | 0 <= k < |assets| :: WellFormed(assets[k].file)
    ensures r.Ok? <==> AllAcceptable(assets, |assets|, req)
    ensures r.Ok? ==>
      && r.value.0 == Answers(tools, assets, |assets|, req, limit)
      && r.value.1 == SkippedIds(assets, |assets|) && compatible == |assets| - |r.value.1|
    ensures r.Err? ==> r.error == QueryInvalid
  {
    var files: seq<FileResult>, skipped: seq<RecordId> := [], [];
    var remaining := limit;
    compatible := 0;
    NoFilesYet(tools, assets, req, limit);
    hide *;
    for k := 0 to |assets|
      invariant remaining == limit - Returned(files) && remaining >= 0
      invariant AllAcceptable(assets, k, req) && files == Answers(tools, assets, k, req, limit)
      invariant skipped == SkippedIds(assets, k) && compatible == k - |skipped|
    {
      var next := QueryNext(tools, assets, k, req, limit, files, remaining);
      if next.Err? {
        return Err(next.error), compatible;
      }
      if next.value.None? {
        skipped := skipped + [assets[k].id];
      } else {
        compatible := compatible + 1;
        remaining := remaining - next.value.value.returned;
        files := files + [next.value.value];
      }
    }
    return Ok((files, skipped)), compatible;
  }

  method QueryFiles(tools: Tools, assets: seq<CsvAsset>, req: Request, defaultRows: nat, maxRows: nat, maxOffset: nat)
    returns (r: Result<(seq<FileResult>, seq<RecordId>), Code>)
    requires forall k | 0 <= k < |assets| :: WellFormed(assets[k].file)
    ensures r.Ok? <==>
      && 0 <= req.offset <= maxOffset && req.limit >= 0
      && AllAcceptable(assets, |assets|, req)
      && exists k | 0 <= k < |assets| :: assets[k].format == Csv && assets[k].state == Ready
    ensures r.Ok? ==>
      Returned(r.value.0) == Min(Min(if req.limit == 0 then defaultRows else req.limit, maxRows),
                                 Available(tools, assets, |assets|, req))
    ensures r.Ok? ==>
      && r.value.0 == Answers(tools, assets, |assets|, req, EffectiveLimit(req.limit, defaultRows, maxRows))
      && r.value.1 == SkippedIds(assets, |assets|)
    ensures r.Err? ==> r.error == QueryInvalid
  {
    hide WellFormed, Answers, AllAcceptable, SkippedIds, Available, Returned;
    if req.offset < 0 || req.offset > maxOffset || req.limit < 0 {
      return Err(QueryInvalid);
    }
    var limit := ClampLimit(req.limit, defaultRows, maxRows);
    SkippedAll(assets, |assets|);
    var compatible;
    r, compatible := CollectFiles(tools, assets, req, limit);
    if r.Ok? {
      BudgetIsExact(tools, assets, |assets|, req, limit);
      if compatible == 0 {
        r := Err(QueryInvalid);
      }
    }
  }

  predicate Answerable(a: CsvAsset, req: Request) {
    Queryable(a) && WellFormed(a.file) && Acceptable(a.file, req)
  }

  /** With one file the whole budget goes to it, whatever offset is requested. */
  lemma {:induction false} SingleFile(tools: Tools, a: CsvAsset, req: Request, limit: nat, offset: nat)
    requires Answerable(a, req)
    ensures AllAcceptable([a], 1, req.(offset := offset))
    ensures Answers(tools, [a], 1, req.(offset := offset), limit) == [Page(tools, a.file, req, offset, limit)]
  {
    hide Answer, Acceptable, WellFormed, Page, Queryable, Returned;
    SameAnswer(tools, a.file, req, offset);
    SamePage(tools, a.file, req, offset, limit);
    NothingReturned();
    var r := req.(offset := offset);
    assert AllAcceptable([a], 0, r) && Answers(tools, [a], 0, r, limit) == [];
    OneMoreFile(tools, [a], 0, r, limit, [], Page(tools, a.file, r, offset, limit));
    assert [] + [Page(tools, a.file, r, offset, limit)] == [Page(tools, a.file, r, offset, limit)];
  }

  lemma SamePage(tools: Tools, file: CsvFile, req: Request, offset: nat, limit: nat)
    requires WellFormed(file) && Acceptable(file, req) && Acceptable(file, req.(offset := offset))
    ensures Page(tools, file, req.(offset := offset), offset, limit) == Page(tools, file, req, offset, limit)
  {
    SameAnswer(tools, file, req, offset);
    hide Answer, Acceptable, WellFormed;
  }

  lemma SameAnswer(tools: Tools, file: CsvFile, req: Request, offset: nat)
    requires WellFormed(file) && Acceptable(file, req)
    ensures Acceptable(file, req.(offset := offset))
    ensures Answer(tools, file, req.(offset := offset)) == Answer(tools, file, req)
  {
    hide Filtered, ProjectAll, Flags, Positions;
  }

  /** A client that re-sends the request for one file, stepping the offset by the
      effective limit while `has_more` is reported. */
  function Walk(tools: Tools, a: CsvAsset, req: Request, limit: nat, maxOffset: nat,
                offset: nat): Result<seq<Row>, Code>
    requires limit > 0 && Answerable(a, req)
    decreases maxOffset - offset
  {
    if offset > maxOffset then Err(QueryInvalid)
    else
      var page := Page(tools, a.file, req, offset, limit);
      if !page.hasMore then Ok(page.rows)
      else
        var rest := Walk(tools, a, req, limit, maxOffset, offset + limit);
        if rest.Err? then rest else Ok(page.rows + rest.value)
  }

  /** The largest row count a walk from `offset` can reach. */
  function Reach(offset: nat, limit: nat, maxOffset: nat): nat
    requires limit > 0
    decreases maxOffset - offset
  {
    if offset > maxOffset then offset else Reach(offset + limit, limit, maxOffset)
  }

  lemma {:induction false} ReachIsNear(offset: nat, limit: nat, maxOffset: nat)
    requires limit > 0
    ensures Reach(offset, limit, maxOffset) >= offset
    ensures offset <= maxOffset ==> Reach(offset, limit, maxOffset) >= offset + limit
    decreases maxOffset - offset
  {
    if offset <= maxOffset {
      ReachIsNear(offset + limit, limit, maxOffset);
    }
  }

  /** From any offset, the walk returns every later row, without gap or repeat,
      exactly when the row count is within reach of the offset bound. */
  lemma {:induction false} WalkFrom(tools: Tools, a: CsvAsset, req: Request, limit: nat, maxOffset: nat, offset: nat)
    requires limit > 0 && Answerable(a, req)
    ensures var all, walked := Answer(tools, a.file, req), Walk(tools, a, req, limit, maxOffset, offset);
      && (walked.Ok? <==> offset <= maxOffset && |all| <= Reach(offset, limit, maxOffset))
      && (walked.Ok? ==> walked.value == all[Min(offset, |all|)..])
    decreases maxOffset - offset
  {
    hide Answer, Acceptable, WellFormed;
    if offset <= maxOffset {
      ReachIsNear(offset, limit, maxOffset);
      var all := Answer(tools, a.file, req);
      if |all| > offset + limit {
        WalkFrom(tools, a, req, limit, maxOffset, offset + limit);
        ReachIsNear(offset + limit, limit, maxOffset);
        WindowThenRest(all, offset, limit);
      }
    }
  }

  lemma WindowThenRest<T>(all: seq<T>, offset: nat, limit: nat)
    requires offset + limit < |all|
    ensures Window(all, offset, limit) + all[offset + limit..] == all[offset..]
  {
  }

  lemma {:induction false} ReachInPages(k: nat, pages: nat, limit: nat, maxOffset: nat)
    requires limit > 0 && k <= pages + 1
    requires pages * limit <= maxOffset < (pages + 1) * limit
    ensures Reach(k * limit, limit, maxOffset) == (pages + 1) * limit
    decreases pages + 1 - k
  {
    if k <= pages {
      assert k * limit <= pages * limit;
      assert (k + 1) * limit == k * limit + limit;
      ReachInPages(k + 1, pages, limit, maxOffset);
    }
  }

  /** The whole walk: it collects all matched rows if and only if their count is at
      most `(maxOffset / limit + 1) * limit`, and otherwise ends in the offset error. */
  lemma {:induction false} WalkCollectsEverything(tools: Tools, a: CsvAsset, req: Request, limit: nat, maxOffset: nat)
    requires limit > 0 && Answerable(a, req)
    ensures var walked := Walk(tools, a, req, limit, maxOffset, 0);
      if |Answer(tools, a.file, req)| <= (maxOffset / limit + 1) * limit
      then walked == Ok(Answer(tools, a.file, req)) else walked == Err(QueryInvalid)
  {
    hide Answer, Walk, Reach, Acceptable, WellFormed;
    WalkFrom(tools, a, req, limit, maxOffset, 0);
    ReachInPages(0, maxOffset / limit, limit, maxOffset);
    WalkErrors(tools, a, req, limit, maxOffset, 0);
  }

  lemma {:induction false} WalkErrors(tools: Tools, a: CsvAsset, req: Request, limit: nat, maxOffset: nat, offset: nat)
    requires limit > 0 && Answerable(a, req)
    ensures Walk(tools, a, req, limit, maxOffset, offset).Err?
        ==> Walk(tools, a, req, limit, maxOffset, offset).error == QueryInvalid
    decreases maxOffset - offset
  {
    hide Page, Acceptable, WellFormed;
    if offset <= maxOffset {
      WalkErrors(tools, a, req, limit, maxOffset, offset + limit);
    }
  }
}
