/** Walking the offset over several CSV files: the offset applies to every file, the limit
    is shared by all of them (csvQuery of internal/query/service.go). */
module CsvWalks {
  import opened Prelude
  import opened Domain
  import opened CsvCells
  import opened CsvQuery
  import opened CsvPaging
  import FilterLaws

  /** The kept rows of every queryable file, in order. */
  function Tables(tools: Tools, assets: seq<CsvAsset>, n: nat, req: Request): seq<seq<Row>>
    requires n <= |assets| && AllAcceptable(assets, n, req)
  {
    if n == 0 then []
    else if Queryable(assets[n - 1]) then Tables(tools, assets, n - 1, req) + [Answer(tools, assets[n - 1].file, req)]
    else Tables(tools, assets, n - 1, req)
  }

  /** Rows past the offset in the first `m` files. */
  function Past<T>(tables: seq<seq<T>>, m: nat, offset: nat): nat
    requires m <= |tables|
  {
    if m == 0 then 0 else Past(tables, m - 1, offset) + |tables[m - 1]| - Min(offset, |tables[m - 1]|)
  }

  /** What the earlier files leave of the limit. */
  function Budget<T>(tables: seq<seq<T>>, m: nat, offset: nat, limit: nat): nat
    requires m <= |tables|
  {
    limit - Min(limit, Past(tables, m, offset))
  }

  function Part<T>(tables: seq<seq<T>>, m: nat, offset: nat, limit: nat): seq<T>
    requires m < |tables|
  {
    Window(tables[m], offset, Budget(tables, m, offset, limit))
  }

  /** The offset of the page that shows position `x`. */
  function PageStart(limit: nat, x: nat): (r: nat)
    requires limit > 0
    ensures r <= x < r + limit
  {
    if x < limit then 0 else limit + PageStart(limit, x - limit)
  }

  /** Offsets a walk from 0 steps through. */
  predicate IsStart(limit: nat, offset: nat)
    requires limit > 0
  {
    PageStart(limit, offset) == offset
  }

  lemma StartsAtZero(limit: nat)
    requires limit > 0
    ensures IsStart(limit, 0)
  {
  }

  /** The row has room on the page of its position: the rows of earlier files past the start
      of that page leave a place for it. */
  predicate Room<T>(tables: seq<seq<T>>, m: nat, limit: nat, x: nat)
    requires m < |tables| && limit > 0
  {
    x - PageStart(limit, x) + Past(tables, m, PageStart(limit, x)) < limit
  }

  /** The rows with room from position `i` on, in order. */
  function Roomy<T>(tables: seq<seq<T>>, m: nat, limit: nat, i: nat): seq<T>
    requires m < |tables| && limit > 0
    decreases |tables[m]| - i
  {
    if i >= |tables[m]| then []
    else if Room(tables, m, limit, i) then [tables[m][i]] + Roomy(tables, m, limit, i + 1)
    else Roomy(tables, m, limit, i + 1)
  }

  lemma {:induction false} PositionInPage(offset: nat, limit: nat, x: nat)
    requires limit > 0 && IsStart(limit, offset) && offset <= x < offset + limit
    ensures PageStart(limit, x) == offset && IsStart(limit, offset + limit)
  {
    if offset >= limit {
      PositionInPage(offset - limit, limit, x - limit);
    }
  }

  /** On one page the rows with room are the part that the page returns. */
  lemma {:induction false} RoomyPage<T>(tables: seq<seq<T>>, m: nat, limit: nat, offset: nat, i: nat)
    requires m < |tables| && limit > 0 && IsStart(limit, offset) && offset <= i <= offset + limit
    ensures Roomy(tables, m, limit, i)
         == Window(tables[m], i, Budget(tables, m, offset, limit) - Min(i - offset, Budget(tables, m, offset, limit)))
            + Roomy(tables, m, limit, offset + limit)
    decreases offset + limit - i
  {
    hide Past;
    if i < offset + limit {
      PositionInPage(offset, limit, i);
      RoomyPage(tables, m, limit, offset, i + 1);
    }
  }

  /** A file has rows behind this page. */
  predicate HasMore<T>(tables: seq<seq<T>>, m: nat, offset: nat, limit: nat)
    requires m < |tables|
  {
    |tables[m]| > offset + Budget(tables, m, offset, limit)
  }

  lemma {:induction false} PastGrows<T>(tables: seq<seq<T>>, m: nat, n: nat, offset: nat)
    requires m <= n <= |tables|
    ensures Past(tables, m, offset) <= Past(tables, n, offset)
  {
    if m < n {
      PastGrows(tables, m, n - 1, offset);
    }
  }

  lemma HasMoreWhen<T>(tables: seq<seq<T>>, m: nat, offset: nat, limit: nat)
    requires m < |tables|
    ensures Past(tables, m, offset) <= Past(tables, m + 1, offset)
    ensures HasMore(tables, m, offset, limit) ==> Past(tables, m + 1, offset) > limit
    ensures Past(tables, m, offset) <= limit < Past(tables, m + 1, offset) ==> HasMore(tables, m, offset, limit)
    ensures |tables[m]| > offset + limit ==> HasMore(tables, m, offset, limit)
  {
  }

  /** A page reports more exactly when the rows past its offset exceed the limit. */
  lemma {:induction false} MoreWhen<T>(tables: seq<seq<T>>, offset: nat, limit: nat, n: nat)
    requires n <= |tables|
    ensures (exists m | 0 <= m < n :: HasMore(tables, m, offset, limit)) <==> Past(tables, n, offset) > limit
  {
    if n == 0 {
      NoFilesPast(tables, offset);
    } else {
      MoreWhen(tables, offset, limit, n - 1);
      HasMoreWhen(tables, n - 1, offset, limit);
    }
    hide Past, HasMore;
  }

  // ---------------------------------------------------------------- the walk

  lemma SameAcceptable(tools: Tools, assets: seq<CsvAsset>, n: nat, req: Request, offset: nat)
    requires n <= |assets| && AllAcceptable(assets, n, req)
    ensures AllAcceptable(assets, n, req.(offset := offset))
  {
    forall k | 0 <= k < n && Queryable(assets[k]) ensures Acceptable(assets[k].file, req.(offset := offset)) {
      SameAnswer(tools, assets[k].file, req, offset);
    }
    hide Acceptable, WellFormed, Queryable;
  }

  /** The request at one offset. */
  function AskAt(tools: Tools, assets: seq<CsvAsset>, n: nat, req: Request, limit: nat, offset: nat): seq<FileResult>
    requires n <= |assets| && AllAcceptable(assets, n, req)
  {
    SameAcceptable(tools, assets, n, req, offset);
    Answers(tools, assets, n, req.(offset := offset), limit)
  }

  lemma {:induction false} PastOfMore<T>(tables: seq<seq<T>>, last: seq<T>, m: nat, offset: nat)
    requires m <= |tables|
    ensures Past(tables + [last], m, offset) == Past(tables, m, offset)
  {
    if m > 0 {
      PastOfMore(tables, last, m - 1, offset);
    }
  }

  /** What one file answers. */
  predicate Answering(result: FileResult, tables: seq<seq<Row>>, m: nat, offset: nat, limit: nat)
    requires m < |tables|
  {
    && result.rows == Part(tables, m, offset, limit)
    && (result.hasMore <==> HasMore(tables, m, offset, limit))
  }

  lemma AnsweringStays(result: FileResult, tables: seq<seq<Row>>, last: seq<Row>, m: nat, offset: nat, limit: nat)
    requires m < |tables| && Answering(result, tables, m, offset, limit)
    ensures Answering(result, tables + [last], m, offset, limit)
  {
    PastOfMore(tables, last, m, offset);
    hide Past;
  }

  lemma LastAnswers(tools: Tools, file: CsvFile, req: Request, tables: seq<seq<Row>>, offset: nat, limit: nat)
    requires WellFormed(file) && Acceptable(file, req)
    ensures var all, m := tables + [Answer(tools, file, req)], |tables|;
            var page := Page(tools, file, req, offset, Budget(tables, m, offset, limit));
      && Answering(page, all, m, offset, limit)
      && Min(limit, Past(tables, m, offset)) + page.returned == Min(limit, Past(all, m + 1, offset))
  {
    hide Answer, Acceptable, WellFormed;
    PastOfMore(tables, Answer(tools, file, req), |tables|, offset);
  }

  /** Each page is the part of every file that its budget allows. */
  lemma {:induction false} PageIsParts(tools: Tools, assets: seq<CsvAsset>, n: nat, req: Request, limit: nat,
                                       offset: nat)
    requires n <= |assets| && AllAcceptable(assets, n, req)
    ensures var page, tables := AskAt(tools, assets, n, req, limit, offset), Tables(tools, assets, n, req);
      && |page| == |tables| && Returned(page) == Min(limit, Past(tables, |tables|, offset))
      && forall m | 0 <= m < |page| :: Answering(page[m], tables, m, offset, limit)
  {
    hide Answering, Page, Answer, Acceptable, WellFormed, Queryable, AllAcceptable, Returned, Past;
    SameAcceptable(tools, assets, n, req, offset);
    if n == 0 {
      NothingReturned();
      NoFilesPast(Tables(tools, assets, 0, req), offset);
    } else {
      AcceptableHere(assets, n, req);
      SameAcceptable(tools, assets, n - 1, req, offset);
      PageIsParts(tools, assets, n - 1, req, limit, offset);
      var before, tables := AskAt(tools, assets, n - 1, req, limit, offset), Tables(tools, assets, n - 1, req);
      if Queryable(assets[n - 1]) {
        var file := assets[n - 1].file;
        SamePageAt(tools, file, req, offset, limit - Returned(before));
        LastAnswers(tools, file, req, tables, offset, limit);
        ReturnedAppend(before, Page(tools, file, req, offset, limit - Returned(before)));
        var last := Answer(tools, file, req);
        forall m | 0 <= m < |before| ensures Answering(before[m], tables + [last], m, offset, limit) {
          AnsweringStays(before[m], tables, last, m, offset, limit);
        }
      }
    }
  }

  lemma NoFilesPast<T>(tables: seq<seq<T>>, offset: nat)
    ensures Past(tables, 0, offset) == 0
  {
  }

  lemma SamePageAt(tools: Tools, file: CsvFile, req: Request, offset: nat, limit: nat)
    requires WellFormed(file) && Acceptable(file, req)
    ensures Acceptable(file, req.(offset := offset))
    ensures Page(tools, file, req.(offset := offset), offset, limit) == Page(tools, file, req, offset, limit)
  {
    SameAnswer(tools, file, req, offset);
    SamePage(tools, file, req, offset, limit);
  }

  predicate AnyMore(page: seq<FileResult>) {
    exists m | 0 <= m < |page| :: page[m].hasMore
  }

  /** A client that re-sends the request for the whole scope, stepping the offset by the
      effective limit while a file reports `has_more`: the pages it is given. */
  function WalkAll(tools: Tools, assets: seq<CsvAsset>, req: Request, limit: nat, maxOffset: nat, offset: nat):
    Result<seq<seq<FileResult>>, Code>
    requires limit > 0 && AllAcceptable(assets, |assets|, req)
    decreases maxOffset - offset
  {
    if offset > maxOffset then Err(QueryInvalid)
    else
      var page := AskAt(tools, assets, |assets|, req, limit, offset);
      if !AnyMore(page) then Ok([page])
      else
        var rest := WalkAll(tools, assets, req, limit, maxOffset, offset + limit);
        if rest.Err? then rest else Ok([page] + rest.value)
  }

  predicate Lists(pages: seq<seq<FileResult>>, m: nat) {
    forall k | 0 <= k < |pages| :: m < |pages[k]|
  }

  /** The rows of one file over all pages. */
  function Collected(pages: seq<seq<FileResult>>, m: nat): seq<Row>
    requires Lists(pages, m)
  {
    if pages == [] then [] else pages[0][m].rows + Collected(pages[1..], m)
  }

  lemma CollectMore(page: seq<FileResult>, rest: seq<seq<FileResult>>, m: nat)
    requires m < |page| && Lists(rest, m)
    ensures Lists([page] + rest, m) && Collected([page] + rest, m) == page[m].rows + Collected(rest, m)
  {
    assert ([page] + rest)[1..] == rest;
  }

  lemma {:induction false} NothingBeyond<T>(tables: seq<seq<T>>, m: nat, limit: nat, i: nat)
    requires m < |tables| && limit > 0 && i >= |tables[m]|
    ensures Roomy(tables, m, limit, i) == []
  {
  }

  lemma PageMore(page: seq<FileResult>, tables: seq<seq<Row>>, offset: nat, limit: nat)
    requires |page| == |tables| && forall m | 0 <= m < |page| :: Answering(page[m], tables, m, offset, limit)
    ensures AnyMore(page) <==> Past(tables, |tables|, offset) > limit
    ensures !AnyMore(page) ==> forall m | 0 <= m < |tables| :: |tables[m]| <= offset + limit
  {
    MoreWhen(tables, offset, limit, |tables|);
    forall m | 0 <= m < |tables|
      ensures page[m].hasMore <==> HasMore(tables, m, offset, limit)
      ensures |tables[m]| > offset + limit ==> HasMore(tables, m, offset, limit) {
      assert Answering(page[m], tables, m, offset, limit);
      HasMoreWhen(tables, m, offset, limit);
    }
    hide Past, HasMore, Answering;
  }

  /** Which rows a walk collects: of each file, in order and once each, the rows with room
      on the page of their position. */
  lemma {:induction false} WalkCollectsRoomy(tools: Tools, assets: seq<CsvAsset>, req: Request, limit: nat,
                                             maxOffset: nat, offset: nat, m: nat)
    requires limit > 0 && IsStart(limit, offset) && AllAcceptable(assets, |assets|, req)
    requires m < |Tables(tools, assets, |assets|, req)|
    ensures var walked := WalkAll(tools, assets, req, limit, maxOffset, offset);
      walked.Ok? ==>
        && Lists(walked.value, m)
        && Collected(walked.value, m) == Roomy(Tables(tools, assets, |assets|, req), m, limit, offset)
    decreases maxOffset - offset
  {
    hide AskAt, Tables, AllAcceptable, AnyMore, Answering, Past, Budget, Roomy;
    if offset <= maxOffset {
      var tables := Tables(tools, assets, |assets|, req);
      var page := AskAt(tools, assets, |assets|, req, limit, offset);
      PageIsParts(tools, assets, |assets|, req, limit, offset);
      PageMore(page, tables, offset, limit);
      RoomyPage(tables, m, limit, offset, offset);
      PositionInPage(offset, limit, offset);
      PartOf(page[m], tables, m, offset, limit);
      if !AnyMore(page) {
        NothingBeyond(tables, m, limit, offset + limit);
        CollectMore(page, [], m);
      } else {
        WalkCollectsRoomy(tools, assets, req, limit, maxOffset, offset + limit, m);
        var rest := WalkAll(tools, assets, req, limit, maxOffset, offset + limit);
        if rest.Ok? {
          CollectMore(page, rest.value, m);
        }
      }
    }
  }

  lemma PartOf(result: FileResult, tables: seq<seq<Row>>, m: nat, offset: nat, limit: nat)
    requires m < |tables| && Answering(result, tables, m, offset, limit)
    ensures result.rows == Window(tables[m], offset, Budget(tables, m, offset, limit))
  {
  }

  /** The walk ends within the offset bound exactly when a page in reach leaves nothing behind. */
  lemma {:induction false} WalkEndsWhen(tools: Tools, assets: seq<CsvAsset>, req: Request, limit: nat,
                                        maxOffset: nat, offset: nat)
    requires limit > 0 && IsStart(limit, offset) && AllAcceptable(assets, |assets|, req)
    ensures var tables := Tables(tools, assets, |assets|, req);
      WalkAll(tools, assets, req, limit, maxOffset, offset).Ok?
      <==> exists end :: offset <= end <= maxOffset && IsStart(limit, end) && Past(tables, |tables|, end) <= limit
    ensures var walked := WalkAll(tools, assets, req, limit, maxOffset, offset);
      walked.Err? ==> walked.error == QueryInvalid
    decreases maxOffset - offset
  {
    hide AskAt, Tables, AllAcceptable, AnyMore, Answering, Past;
    if offset <= maxOffset {
      var tables := Tables(tools, assets, |assets|, req);
      var page := AskAt(tools, assets, |assets|, req, limit, offset);
      PageIsParts(tools, assets, |assets|, req, limit, offset);
      PageMore(page, tables, offset, limit);
      if AnyMore(page) {
        PositionInPage(offset, limit, offset);
        WalkEndsWhen(tools, assets, req, limit, maxOffset, offset + limit);
        forall end | offset < end < offset + limit ensures !IsStart(limit, end) {
          PositionInPage(offset, limit, end);
        }
      }
    }
  }

  // ---------------------------------------------------------------- what is lost

  lemma {:induction false} RoomyIsShort<T>(tables: seq<seq<T>>, m: nat, limit: nat, i: nat)
    requires m < |tables| && limit > 0 && i <= |tables[m]|
    ensures |Roomy(tables, m, limit, i)| <= |tables[m]| - i
    ensures Roomy(tables, m, limit, i) == tables[m][i..]
        <==> forall x | i <= x < |tables[m]| :: Room(tables, m, limit, x)
    decreases |tables[m]| - i
  {
    hide Room;
    if i < |tables[m]| {
      RoomyIsShort(tables, m, limit, i + 1);
      assert tables[m][i..] == [tables[m][i]] + tables[m][i + 1..];
      if Roomy(tables, m, limit, i) == tables[m][i..] {
        assert Roomy(tables, m, limit, i)[1..] == tables[m][i + 1..];
      }
    }
  }

  /** At most one file has rows. */
  predicate Alone<T>(tables: seq<seq<T>>) {
    forall m, n | 0 <= m < n < |tables| :: tables[m] == [] || tables[n] == []
  }

  lemma {:induction false} NothingPast<T>(tables: seq<seq<T>>, m: nat, offset: nat)
    requires m <= |tables| && forall k | 0 <= k < m :: tables[k] == []
    ensures Past(tables, m, offset) == 0
  {
    if m > 0 {
      NothingPast(tables, m - 1, offset);
    }
  }

  lemma {:induction false} PastFalls<T>(tables: seq<seq<T>>, m: nat, offset: nat)
    requires m <= |tables|
    ensures Past(tables, m, offset) <= Past(tables, m, 0)
  {
    if m > 0 {
      PastFalls(tables, m - 1, offset);
    }
  }

  lemma RoomForAll<T>(tables: seq<seq<T>>, m: nat, limit: nat, x: nat)
    requires m < |tables| && limit > 0 && x < |tables[m]|
    requires Past(tables, |tables|, 0) <= limit || Alone(tables)
    ensures Room(tables, m, limit, x)
  {
    if Past(tables, |tables|, 0) <= limit {
      PastGrows(tables, m + 1, |tables|, 0);
      PositionInPage(0, limit, x);
    } else {
      NothingPast(tables, m, PageStart(limit, x));
    }
  }

  /** The last file with rows, or none. */
  lemma {:induction false} LastRows<T>(tables: seq<seq<T>>, n: nat) returns (m: nat)
    requires n <= |tables|
    ensures m <= n && (forall k | m <= k < n :: tables[k] == [])
    ensures m > 0 ==> tables[m - 1] != []
    ensures Past(tables, n, 0) == Past(tables, m, 0)
  {
    m := n;
    if n > 0 && tables[n - 1] == [] {
      m := LastRows(tables, n - 1);
    }
  }

  lemma RoomMeansOnePage<T>(tables: seq<seq<T>>, limit: nat)
    requires limit > 0 && !Alone(tables)
    requires forall m | 0 <= m < |tables| :: forall x | 0 <= x < |tables[m]| :: Room(tables, m, limit, x)
    ensures Past(tables, |tables|, 0) <= limit
  {
    var last := LastRows(tables, |tables|);
    var m, n :| 0 <= m < n < |tables| && tables[m] != [] && tables[n] != [];
    assert m < last - 1;
    PastGrows(tables, m + 1, last - 1, 0);
    var x := Min(limit, |tables[last - 1]|) - 1;
    PositionInPage(0, limit, x);
    assert Room(tables, last - 1, limit, x);
  }

  /** A walk that ends collects every row of every file exactly when all of them fit on one
      page or only one file has any. */
  lemma WalkLosesNothing(tools: Tools, assets: seq<CsvAsset>, req: Request, limit: nat, maxOffset: nat)
    requires limit > 0 && AllAcceptable(assets, |assets|, req)
    requires WalkAll(tools, assets, req, limit, maxOffset, 0).Ok?
    ensures var tables := Tables(tools, assets, |assets|, req);
            var pages := WalkAll(tools, assets, req, limit, maxOffset, 0).value;
      (forall m | 0 <= m < |tables| :: Lists(pages, m) && Collected(pages, m) == tables[m])
      <==> Past(tables, |tables|, 0) <= limit || Alone(tables)
  {
    StartsAtZero(limit);
    hide *;
    var tables := Tables(tools, assets, |assets|, req);
    var pages := WalkAll(tools, assets, req, limit, maxOffset, 0).value;
    forall m | 0 <= m < |tables|
      ensures Lists(pages, m)
      ensures Collected(pages, m) == tables[m] <==> forall x | 0 <= x < |tables[m]| :: Room(tables, m, limit, x) {
      WalkCollectsRoomy(tools, assets, req, limit, maxOffset, 0, m);
      RoomyIsShort(tables, m, limit, 0);
      assert tables[m][0..] == tables[m];
    }
    if Past(tables, |tables|, 0) <= limit || Alone(tables) {
      forall m, x | 0 <= m < |tables| && 0 <= x < |tables[m]| ensures Room(tables, m, limit, x) {
        RoomForAll(tables, m, limit, x);
      }
    } else if forall m | 0 <= m < |tables| :: Lists(pages, m) && Collected(pages, m) == tables[m] {
      RoomMeansOnePage(tables, limit);
    }
  }

  lemma OneRowFile(tools: Tools, file: CsvFile, req: Request)
    requires file == CsvFile([["a"], ["1"]], false) && req.select == [] && req.filters == []
    ensures WellFormed(file) && Acceptable(file, req) && |Answer(tools, file, req)| == 1
  {
    var data := [["1"]];
    assert file.records[1..] == data && file.records[0] == ["a"];
    FilterLaws.EverythingKept(tools, ["a"], Flags(tools, data, 1), data);
    hide Filtered, Keeps, Numeric;
  }

  lemma OneRowEach<T>(tables: seq<seq<T>>)
    requires |tables| == 2 && |tables[0]| == |tables[1]| == 1
    ensures !Alone(tables) && Past(tables, |tables|, 0) == 2 && Past(tables, |tables|, 1) == 0
  {
    assert Past(tables, 1, 0) == 1 && Past(tables, 1, 1) == 0;
    assert tables[0] != [] && tables[1] != [];
  }

  /** Two files of one row each, walked one row at a time: the walk ends well and lacks a row. */
  lemma RowIsLost(tools: Tools) returns (assets: seq<CsvAsset>, req: Request)
    ensures AllAcceptable(assets, |assets|, req) && |Tables(tools, assets, |assets|, req)| == 2
    ensures var walked := WalkAll(tools, assets, req, 1, 10000, 0);
      && walked.Ok?
      && exists m | 0 <= m < 2 ::
           !Lists(walked.value, m) || Collected(walked.value, m) != Tables(tools, assets, |assets|, req)[m]
  {
    var file := CsvFile([["a"], ["1"]], false);
    assets := [CsvAsset("x", Csv, Ready, file), CsvAsset("y", Csv, Ready, file)];
    req := Request([], [], 1, 0);
    OneRowFile(tools, file, req);
    hide Answer, Acceptable, WellFormed, WalkAll, Past, Alone, Lists, Collected;
    var tables := Tables(tools, assets, |assets|, req);
    assert Tables(tools, assets, 1, req) == [Answer(tools, file, req)];
    OneRowEach(tables);
    WalkEndsWhen(tools, assets, req, 1, 10000, 0);
    assert Past(tables, |tables|, 1) <= 1 && IsStart(1, 1);
    WalkLosesNothing(tools, assets, req, 1, 10000);
  }
}
