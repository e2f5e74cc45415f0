/**
  Case-folding search over runes and the bounded text search built on it
  (internal/query/service.go).

  `fold` maps a rune to the representative of its simple-folding class, so two
  runes are equal under folding exactly when their representatives are.
 */
module FoldSearch {
  import opened Prelude

  predicate EqualFold(fold: char -> char, a: string, b: string) {
    |a| == |b| && forall i | 0 <= i < |a| :: fold(a[i]) == fold(b[i])
  }

  predicate MatchesAt(fold: char -> char, haystack: string, needle: string, i: int) {
    0 <= i && i + |needle| <= |haystack| && forall k | 0 <= k < |needle| :: fold(haystack[i + k]) == fold(needle[k])
  }

  lemma EqualFoldIsMatch(fold: char -> char, haystack: string, needle: string, i: nat)
    requires i + |needle| <= |haystack|
    ensures EqualFold(fold, haystack[i..i + |needle|], needle) <==> MatchesAt(fold, haystack, needle, i)
  {
    var piece := haystack[i..i + |needle|];
    assert forall k | 0 <= k < |needle| :: piece[k] == haystack[i + k];
  }

  /** The leftmost match at or after `i`; the empty needle never matches. */
  function FirstFold(fold: char -> char, haystack: string, needle: string, i: nat := 0): (r: Option<nat>)
    ensures r.Some? ==> needle != "" && i <= r.value && MatchesAt(fold, haystack, needle, r.value)
    ensures r.Some? ==> forall j | i <= j < r.value :: !MatchesAt(fold, haystack, needle, j)
    ensures r.None? && needle != "" ==> forall j | i <= j :: !MatchesAt(fold, haystack, needle, j)
    decreases |haystack| - i
  {
    if needle == "" || i + |needle| > |haystack| then None
    else if MatchesAt(fold, haystack, needle, i) then Some(i)
    else FirstFold(fold, haystack, needle, i + 1)
  }

  function Folded(fold: char -> char, s: string): (r: string)
    ensures |r| == |s| && forall i | 0 <= i < |s| :: r[i] == fold(s[i])
  {
    seq(|s|, i requires 0 <= i < |s| => fold(s[i]))
  }

  /** The folded needle is a stretch of the folded haystack, from `i` on. */
  predicate OccursAt(fold: char -> char, haystack: string, needle: string, i: int) {
    0 <= i <= |haystack| - |needle| && Folded(fold, haystack)[i..i + |needle|] == Folded(fold, needle)
  }

  predicate Occurs(fold: char -> char, haystack: string, needle: string) {
    exists i | 0 <= i <= |haystack| - |needle| :: OccursAt(fold, haystack, needle, i)
  }

  lemma MatchIsOccurrence(fold: char -> char, haystack: string, needle: string, i: int)
    ensures MatchesAt(fold, haystack, needle, i) <==> OccursAt(fold, haystack, needle, i)
  {
    if 0 <= i <= |haystack| - |needle| {
      var piece := Folded(fold, haystack)[i..i + |needle|];
      assert forall k | 0 <= k < |needle| :: piece[k] == fold(haystack[i + k]);
    }
  }

  /** The search finds the leftmost place where the folded needle occurs. */
  lemma FoundWhereItOccurs(fold: char -> char, haystack: string, needle: string)
    ensures FirstFold(fold, haystack, needle).Some? <==> needle != "" && Occurs(fold, haystack, needle)
    ensures FirstFold(fold, haystack, needle).Some? ==>
      var first := FirstFold(fold, haystack, needle).value;
      && OccursAt(fold, haystack, needle, first)
      && forall j | 0 <= j < first :: !OccursAt(fold, haystack, needle, j)
  {
    var first := FirstFold(fold, haystack, needle);
    forall i | 0 <= i ensures MatchesAt(fold, haystack, needle, i) <==> OccursAt(fold, haystack, needle, i) {
      MatchIsOccurrence(fold, haystack, needle, i);
    }
    if first.Some? {
      assert OccursAt(fold, haystack, needle, first.value);
    }
    hide MatchesAt, OccursAt;
  }

  method FindFoldRunes(fold: char -> char, haystack: string, needle: string)
    returns (start: nat, end: nat, ok: bool)
    ensures ok <==> needle != "" && exists i :: MatchesAt(fold, haystack, needle, i)
    ensures ok ==> MatchesAt(fold, haystack, needle, start) && end == start + |needle|
    ensures ok ==> forall j | 0 <= j < start :: !MatchesAt(fold, haystack, needle, j)
    ensures !ok ==> start == end == 0
    ensures FirstFold(fold, haystack, needle) == if ok then Some(start) else None
  {
    if |needle| == 0 || |needle| > |haystack| {
      return 0, 0, false;
    }
    var i := 0;
    while i + |needle| <= |haystack|
      invariant 0 <= i
      invariant forall j | 0 <= j < i :: !MatchesAt(fold, haystack, needle, j)
      invariant FirstFold(fold, haystack, needle) == FirstFold(fold, haystack, needle, i)
    {
      EqualFoldIsMatch(fold, haystack, needle, i);
      if EqualFold(fold, haystack[i..i + |needle|], needle) {
        return i, i + |needle|, true;
      }
      i := i + 1;
    }
    return 0, 0, false;
  }

  /** Where the context window of a match begins in a line longer than `max`. */
  function ContextStart(length: nat, matchStart: nat, matchEnd: nat, max: nat): (r: nat)
    requires matchStart <= matchEnd <= length && max < length
    ensures r + max <= length
  {
    var width := matchEnd - matchStart;
    if width >= max then matchStart
    else
      var wanted := matchStart - (max - width) / 2;
      var start := if wanted < 0 then 0 else wanted;
      if start + max > length then length - max else start
  }

  function BoundedContext(line: string, matchStart: nat, matchEnd: nat, max: nat): (r: string)
    requires matchStart <= matchEnd <= |line|
    ensures |r| == Min(|line|, max)
  {
    if |line| <= max then line
    else
      var start := ContextStart(|line|, matchStart, matchEnd, max);
      line[start..start + max]
  }

  /** A context is one contiguous window of the line that covers the whole match
      whenever the match fits, and the front of the match otherwise. */
  lemma ContextCoversMatch(line: string, matchStart: nat, matchEnd: nat, max: nat) returns (from: nat)
    requires matchStart <= matchEnd <= |line|
    ensures from + Min(|line|, max) <= |line|
    ensures BoundedContext(line, matchStart, matchEnd, max) == line[from..from + Min(|line|, max)]
    ensures from <= matchStart && (matchEnd - matchStart <= max ==> matchEnd <= from + Min(|line|, max))
    ensures matchEnd - matchStart > max ==> from == matchStart
  {
    from := if |line| <= max then 0 else ContextStart(|line|, matchStart, matchEnd, max);
    assert |line| <= max ==> line[0..|line|] == line;
  }

  /** The window has the match in its middle, as far as the ends of the line allow. */
  lemma ContextIsCentred(line: string, matchStart: nat, matchEnd: nat, max: nat)
    requires matchStart <= matchEnd <= |line| && matchEnd - matchStart < max < |line|
    ensures var from := ContextStart(|line|, matchStart, matchEnd, max);
            var left, right := matchStart - from, from + max - matchEnd;
      && (0 < from && from + max < |line| ==> left <= right <= left + 1)
      && (from == 0 ==> left <= right) && (from > 0 ==> right <= left + 1)
  {
  }

  /** Searching the context of a match for the same needle succeeds again exactly
      when the needle fits in the window. */
  lemma {:induction false} ContextFindsAgain(fold: char -> char, line: string, needle: string, start: nat, max: nat)
    requires FirstFold(fold, line, needle) == Some(start)
    ensures FirstFold(fold, BoundedContext(line, start, start + |needle|, max), needle).Some? == (|needle| <= max)
  {
    if |needle| <= max {
      ContextKeepsMatch(fold, line, needle, start, max);
    }
  }

  lemma {:induction false} ContextKeepsMatch(fold: char -> char, line: string, needle: string, start: nat, max: nat)
    requires needle != "" && MatchesAt(fold, line, needle, start) && |needle| <= max
    ensures FirstFold(fold, BoundedContext(line, start, start + |needle|, max), needle).Some?
  {
    hide BoundedContext, FirstFold;
    var from := ContextCoversMatch(line, start, start + |needle|, max);
    MatchInWindow(fold, line, needle, start, from, Min(|line|, max));
  }

  lemma MatchIsFound(fold: char -> char, haystack: string, needle: string, at: nat)
    requires needle != "" && MatchesAt(fold, haystack, needle, at)
    ensures FirstFold(fold, haystack, needle).Some?
  {
  }

  lemma {:induction false} MatchInWindow(fold: char -> char, line: string, needle: string, start: nat, from: nat,
                                         width: nat)
    requires needle != "" && MatchesAt(fold, line, needle, start)
    requires from <= start && start + |needle| <= from + width <= |line|
    ensures FirstFold(fold, line[from..from + width], needle).Some?
  {
    var window := line[from..from + width];
    forall k | 0 <= k < |needle| ensures fold(window[start - from + k]) == fold(needle[k]) {
      assert window[start - from + k] == line[start + k];
    }
    MatchIsFound(fold, window, needle, start - from);
  }
}

module TextSearch {
  import opened Prelude
  import opened Domain
  import opened FoldSearch

  /** `text` is absent when the loaded bytes are not valid UTF-8. */
  datatype TextAsset = TextAsset(id: RecordId, filename: string, format: AssetFormat,
                                 state: AssetState, text: Option<string>)

  datatype TextMatch = TextMatch(assetId: RecordId, filename: string, lineNumber: nat, context: string)

  datatype TextResult = TextResult(matches: seq<TextMatch>, matchCount: nat, truncated: bool,
                                   skipped: seq<RecordId>)

  predicate Compatible(a: TextAsset) {
    a.state == Ready && (a.format == Text || a.format == Markdown) && a.text.Some?
  }

  function Split(s: string): (r: seq<string>)
    ensures |r| >= 1
    ensures forall i | 0 <= i < |r| :: '\n' !in r[i]
  {
    if s == "" then [""]
    else
      var rest := Split(s[1..]);
      if s[0] == '\n' then [""] + rest else [[s[0]] + rest[0]] + rest[1..]
  }

  function Join(lines: seq<string>): string {
    if |lines| == 0 then ""
    else if |lines| == 1 then lines[0]
    else lines[0] + "\n" + Join(lines[1..])
  }

  /** Splitting loses nothing: the newline-free pieces rejoin to the text. */
  lemma {:induction false} SplitJoin(s: string)
    ensures Join(Split(s)) == s
  {
    if s != "" {
      SplitJoin(s[1..]);
      var rest := Split(s[1..]);
      if s[0] == '\n' {
        assert ([""] + rest)[1..] == rest;
        assert "\n" + s[1..] == s;
      } else {
        var lines := [[s[0]] + rest[0]] + rest[1..];
        assert lines[1..] == rest[1..];
        assert Join(lines) == [s[0]] + Join(rest);
      }
    }
  }

  function TrimCarriageReturn(line: string): string {
    if |line| > 0 && line[|line| - 1] == '\r' then line[..|line| - 1] else line
  }

  /** The match a line contributes, if any. */
  function LineMatch(fold: char -> char, a: TextAsset, line: string, index: nat,
                     needle: string, maxContext: nat): seq<TextMatch>
  {
    var trimmed := TrimCarriageReturn(line);
    match FirstFold(fold, trimmed, needle)
    case None => []
    case Some(start) =>
      [TextMatch(a.id, a.filename, index + 1, BoundedContext(trimmed, start, start + |needle|, maxContext))]
  }

  /** `line` is the split line without its final carriage return. */
  predicate Bare(split: string, line: string) {
    split == line + "\r" || (split == line && (line == "" || line[|line| - 1] != '\r'))
  }

  ghost predicate LeftmostAt(fold: char -> char, line: string, needle: string, start: nat) {
    OccursAt(fold, line, needle, start) && forall j | 0 <= j < start :: !OccursAt(fold, line, needle, j)
  }

  predicate WindowAt(line: string, from: nat, max: nat, context: string) {
    from + Min(|line|, max) <= |line| && context == line[from..from + Min(|line|, max)]
  }

  /** The context is one window of the line that covers the leftmost occurrence of the
      needle when it fits, and begins with it otherwise. */
  ghost predicate ShowsMatch(fold: char -> char, line: string, needle: string, max: nat, context: string) {
    exists start: nat, from: nat | LeftmostAt(fold, line, needle, start) && WindowAt(line, from, max, context) ::
      from <= start && if |needle| <= max then start + |needle| <= from + |context| else from == start
  }

  /** `m` reports line `i` of the asset, which has the needle in it. */
  ghost predicate MatchOf(fold: char -> char, a: TextAsset, i: nat, needle: string, max: nat, m: TextMatch) {
    && a.state == Ready && a.format in {Text, Markdown} && a.text.Some? && i < |Split(a.text.value)|
    && m.assetId == a.id && m.filename == a.filename && m.lineNumber == i + 1
    && (exists line :: Bare(Split(a.text.value)[i], line) && ShowsMatch(fold, line, needle, max, m.context))
    && (FirstFold(fold, m.context, needle).Some? <==> |needle| <= max)
  }

  lemma TrimmedIsBare(split: string)
    ensures Bare(split, TrimCarriageReturn(split))
    ensures forall line | Bare(split, line) :: line == TrimCarriageReturn(split)
  {
    forall line | split == line + "\r" ensures line == TrimCarriageReturn(split) {
      assert split[|split| - 1] == '\r' && split[..|split| - 1] == line;
    }
    if |split| > 0 && split[|split| - 1] == '\r' {
      assert split == split[..|split| - 1] + "\r";
    }
  }

  lemma LineMatchIsMatch(fold: char -> char, a: TextAsset, i: nat, needle: string, max: nat)
    requires Compatible(a) && i < |Split(a.text.value)|
    requires FirstFold(fold, TrimCarriageReturn(Split(a.text.value)[i]), needle).Some?
    ensures var hit := LineMatch(fold, a, Split(a.text.value)[i], i, needle, max);
            |hit| == 1 && MatchOf(fold, a, i, needle, max, hit[0])
  {
    hide FirstFold, BoundedContext, TrimCarriageReturn, OccursAt, Occurs, Bare;
    var split := Split(a.text.value)[i];
    var line := TrimCarriageReturn(split);
    var start := FirstFold(fold, line, needle).value;
    TrimmedIsBare(split);
    FoundWhereItOccurs(fold, line, needle);
    ContextFindsAgain(fold, line, needle, start, max);
    var from := ContextCoversMatch(line, start, start + |needle|, max);
    var context := BoundedContext(line, start, start + |needle|, max);
    assert LeftmostAt(fold, line, needle, start) && WindowAt(line, from, max, context);
    assert ShowsMatch(fold, line, needle, max, context);
  }

  /** Every match in the first `n` lines of one asset, with no limit applied. */
  function AssetMatches(fold: char -> char, a: TextAsset, lines: seq<string>, n: nat,
                        needle: string, maxContext: nat): seq<TextMatch>
    requires n <= |lines|
  {
    if n == 0 then []
    else AssetMatches(fold, a, lines, n - 1, needle, maxContext)
         + LineMatch(fold, a, lines[n - 1], n - 1, needle, maxContext)
  }

  /** Every match in the first `n` assets, in asset-then-line order. */
  function AllMatches(fold: char -> char, assets: seq<TextAsset>, n: nat,
                      needle: string, maxContext: nat): seq<TextMatch>
    requires n <= |assets|
  {
    if n == 0 then []
    else
      var a := assets[n - 1];
      AllMatches(fold, assets, n - 1, needle, maxContext)
      + if Compatible(a)
        then AssetMatches(fold, a, Split(a.text.value), |Split(a.text.value)|, needle, maxContext)
        else []
  }

  /** The first `max` of a listing, or all of it when it is shorter. */
  function Capped<T>(all: seq<T>, max: nat): (r: seq<T>)
    ensures r <= all && |r| == Min(max, |all|)
  {
    all[..Min(max, |all|)]
  }

  /** Once the cap is exceeded, further assets change nothing. */
  lemma CappedStays(fold: char -> char, assets: seq<TextAsset>, k: nat, needle: string, maxContext: nat, max: nat)
    requires k < |assets|
    ensures var all := AllMatches(fold, assets, k, needle, maxContext);
      var next := AllMatches(fold, assets, k + 1, needle, maxContext);
      && (|all| > max ==> |next| > max && Capped(next, max) == Capped(all, max))
      && (|all| <= max ==> Capped(all, max) == all)
  {
  }

  function Incompatible(assets: seq<TextAsset>, n: nat): (r: seq<RecordId>)
    requires n <= |assets|
    ensures |r| <= n
    ensures |r| == n <==> forall i | 0 <= i < n :: !Compatible(assets[i])
  {
    if n == 0 then []
    else Incompatible(assets, n - 1) + if Compatible(assets[n - 1]) then [] else [assets[n - 1].id]
  }

  /** The skipped assets are those that are not ready, not text or not valid UTF-8, in order. */
  lemma OneMoreSkipped(assets: seq<TextAsset>, n: nat)
    requires n < |assets|
    ensures Incompatible(assets, n + 1) ==
            if assets[n].state == Ready && assets[n].format in {Text, Markdown} && assets[n].text.Some?
            then Incompatible(assets, n) else Incompatible(assets, n) + [assets[n].id]
  {
  }

  method SearchLine(fold: char -> char, a: TextAsset, line: string, index: nat, needle: string, maxContext: nat)
    returns (hit: seq<TextMatch>)
    ensures hit == LineMatch(fold, a, line, index, needle, maxContext)
  {
    var trimmed := TrimCarriageReturn(line);
    var start, end, ok := FindFoldRunes(fold, trimmed, needle);
    hit := if ok then [TextMatch(a.id, a.filename, index + 1, BoundedContext(trimmed, start, end, maxContext))] else [];
  }

  /** The matches before this asset followed by those of its first `i` lines. */
  function Found(fold: char -> char, a: TextAsset, lines: seq<string>, i: nat, needle: string,
                 maxContext: nat, before: seq<TextMatch>): seq<TextMatch>
    requires i <= |lines|
  {
    before + AssetMatches(fold, a, lines, i, needle, maxContext)
  }

  lemma {:induction false} NoLineYet(fold: char -> char, a: TextAsset, lines: seq<string>, needle: string,
                                     maxContext: nat,
                                     before: seq<TextMatch>, max: nat)
    ensures Found(fold, a, lines, 0, needle, maxContext, before) == before
    ensures forall all: seq<TextMatch> :: |all| <= max ==> Capped(all, max) == all
  {
  }

  /** The inner loop of the search: the lines of one compatible asset. */
  method SearchLines(fold: char -> char, a: TextAsset, lines: seq<string>, needle: string,
                     maxMatches: nat, maxContext: nat, before: seq<TextMatch>)
    returns (matches: seq<TextMatch>, truncated: bool)
    requires |before| <= maxMatches
    ensures var all := Found(fold, a, lines, |lines|, needle, maxContext, before);
      matches == Capped(all, maxMatches) && (truncated <==> |all| > maxMatches)
  {
    matches := before;
    var i := 0;
    NoLineYet(fold, a, lines, needle, maxContext, before, maxMatches);
    hide *;
    while i < |lines|
      invariant 0 <= i <= |lines|
      invariant matches == Found(fold, a, lines, i, needle, maxContext, before)
      invariant |matches| <= maxMatches
    {
      var hit := SearchLine(fold, a, lines[i], i, needle, maxContext);
      if hit != [] && |matches| >= maxMatches {
        CutAtLine(fold, a, lines, i, needle, maxContext, before, maxMatches);
        return matches, true;
      }
      OneMoreLine(fold, a, lines, i, needle, maxContext, before);
      matches := matches + hit;
      i := i + 1;
    }
    return matches, false;
  }

  lemma {:induction false} OneMoreLine(fold: char -> char, a: TextAsset, lines: seq<string>, i: nat, needle: string,
                                       maxContext: nat, before: seq<TextMatch>)
    requires i < |lines|
    ensures |LineMatch(fold, a, lines[i], i, needle, maxContext)| <= 1
    ensures Found(fold, a, lines, i, needle, maxContext, before) + LineMatch(fold, a, lines[i], i, needle, maxContext)
         == Found(fold, a, lines, i + 1, needle, maxContext, before)
  {
  }

  /** Stopping at a matching line when the cap is reached loses only matches past the cap. */
  lemma {:induction false} CutAtLine(fold: char -> char, a: TextAsset, lines: seq<string>, i: nat, needle: string,
                                     maxContext: nat, before: seq<TextMatch>, max: nat)
    requires i < |lines| && LineMatch(fold, a, lines[i], i, needle, maxContext) != []
    requires |Found(fold, a, lines, i, needle, maxContext, before)| == max
    ensures |Found(fold, a, lines, |lines|, needle, maxContext, before)| > max
    ensures Capped(Found(fold, a, lines, |lines|, needle, maxContext, before), max)
         == Found(fold, a, lines, i, needle, maxContext, before)
  {
    hide FirstFold, BoundedContext, LineMatch;
    AssetMatchesGrow(fold, a, lines, i, needle, maxContext);
    AssetMatchesGrow(fold, a, lines, i + 1, needle, maxContext);
  }

  /** The match is a line of one of the assets. */
  ghost predicate Reports(fold: char -> char, assets: seq<TextAsset>, needle: string, max: nat, m: TextMatch) {
    exists k: nat, i: nat :: k < |assets| && MatchOf(fold, assets[k], i, needle, max, m)
  }

  lemma MatchReports(fold: char -> char, assets: seq<TextAsset>, j: nat, needle: string, maxContext: nat)
    requires j < |AllMatches(fold, assets, |assets|, needle, maxContext)|
    ensures Reports(fold, assets, needle, maxContext, AllMatches(fold, assets, |assets|, needle, maxContext)[j])
  {
    hide AllMatches, MatchOf;
    var k, i := MatchIsReal(fold, assets, |assets|, j, needle, maxContext);
  }

  method Search(fold: char -> char, assets: seq<TextAsset>, needle: string, needleIsUtf8: bool,
                maxMatches: nat, maxContext: nat)
    returns (r: Result<TextResult, Code>)
    ensures r.Ok? <==>
      && needle != "" && needleIsUtf8
      && exists i | 0 <= i < |assets| ::
           assets[i].state == Ready && assets[i].format in {Text, Markdown} && assets[i].text.Some?
    ensures r.Err? ==> r.error == QueryInvalid
    ensures r.Ok? ==>
      var all := AllMatches(fold, assets, |assets|, needle, maxContext);
      && r.value.matches == Capped(all, maxMatches)
      && r.value.matchCount == Min(maxMatches, |all|)
      && (r.value.truncated <==> |all| > maxMatches)
      && r.value.skipped == Incompatible(assets, |assets|)
    ensures r.Ok? ==>
      forall j | 0 <= j < |r.value.matches| :: Reports(fold, assets, needle, maxContext, r.value.matches[j])
  {
    if needle == "" || !needleIsUtf8 {
      return Err(QueryInvalid);
    }
    var matches: seq<TextMatch>, skipped: seq<RecordId> := [], [];
    var stop, compatible := false, 0;
    for k := 0 to |assets|
      invariant skipped == Incompatible(assets, k) && compatible == k - |skipped|
      invariant stop == (|AllMatches(fold, assets, k, needle, maxContext)| > maxMatches)
      invariant matches == Capped(AllMatches(fold, assets, k, needle, maxContext), maxMatches)
    {
      var a := assets[k];
      if !Compatible(a) {
        skipped := skipped + [a.id];
      } else {
        compatible := compatible + 1;
        CappedStays(fold, assets, k, needle, maxContext, maxMatches);
        if !stop {
          matches, stop := SearchLines(fold, a, Split(a.text.value), needle, maxMatches, maxContext, matches);
        }
      }
    }
    if compatible == 0 {
      return Err(QueryInvalid);
    }
    forall j | 0 <= j < |matches| ensures Reports(fold, assets, needle, maxContext, matches[j]) {
      assert matches[j] == AllMatches(fold, assets, |assets|, needle, maxContext)[j];
      MatchReports(fold, assets, j, needle, maxContext);
    }
    hide Reports;
    return Ok(TextResult(matches, |matches|, stop, skipped));
  }

  lemma {:induction false} OneLineMore(fold: char -> char, a: TextAsset, lines: seq<string>, n: nat, needle: string,
                                       maxContext: nat)
    requires n < |lines|
    ensures AssetMatches(fold, a, lines, n, needle, maxContext)
         <= AssetMatches(fold, a, lines, n + 1, needle, maxContext)
  {
    hide LineMatch;
  }

  /** The matches of a prefix of the lines are a prefix of the asset's matches. */
  lemma {:induction false} AssetMatchesGrow(fold: char -> char, a: TextAsset, lines: seq<string>, n: nat,
                         needle: string, maxContext: nat)
    requires n <= |lines|
    ensures AssetMatches(fold, a, lines, n, needle, maxContext)
         <= AssetMatches(fold, a, lines, |lines|, needle, maxContext)
    decreases |lines| - n
  {
    if n < |lines| {
      OneLineMore(fold, a, lines, n, needle, maxContext);
      AssetMatchesGrow(fold, a, lines, n + 1, needle, maxContext);
      hide *;
    }
  }

  predicate LineMatches(fold: char -> char, lines: seq<string>, k: nat, needle: string)
    requires k < |lines|
  {
    FirstFold(fold, TrimCarriageReturn(lines[k]), needle).Some?
  }

  lemma {:induction false} MatchesStep(fold: char -> char, a: TextAsset, lines: seq<string>, n: nat, needle: string,
                                       maxContext: nat)
    requires n < |lines|
    ensures var before := AssetMatches(fold, a, lines, n, needle, maxContext);
            var after := AssetMatches(fold, a, lines, n + 1, needle, maxContext);
            if LineMatches(fold, lines, n, needle) then
              && |after| == |before| + 1 && after == before + [after[|before|]] && after[|before|].lineNumber == n + 1
              && LineMatch(fold, a, lines[n], n, needle, maxContext) == [after[|before|]]
            else after == before
  {
    hide FirstFold, BoundedContext;
  }

  /** How many of the first `k` lines match. */
  function MatchingBefore(fold: char -> char, lines: seq<string>, needle: string, k: nat): nat
    requires k <= |lines|
  {
    if k == 0 then 0
    else MatchingBefore(fold, lines, needle, k - 1) + if LineMatches(fold, lines, k - 1, needle) then 1 else 0
  }

  /** One asset has as many matches as matching lines. */
  lemma {:induction false} MatchesAreCounted(fold: char -> char, a: TextAsset, lines: seq<string>, n: nat,
                                             needle: string, maxContext: nat)
    requires n <= |lines|
    ensures |AssetMatches(fold, a, lines, n, needle, maxContext)| == MatchingBefore(fold, lines, needle, n)
  {
    hide LineMatches, LineMatch;
    if n > 0 {
      MatchesAreCounted(fold, a, lines, n - 1, needle, maxContext);
      MatchesStep(fold, a, lines, n - 1, needle, maxContext);
    }
  }

  /** Each matching line is found once, at its rank among the matching lines. */
  lemma {:induction false} MatchIsAtItsRank(fold: char -> char, a: TextAsset, lines: seq<string>, n: nat, k: nat,
                                            needle: string, maxContext: nat)
    requires k < n <= |lines| && LineMatches(fold, lines, k, needle)
    ensures var found := AssetMatches(fold, a, lines, n, needle, maxContext);
            var rank := MatchingBefore(fold, lines, needle, k);
            rank < |found| && LineMatch(fold, a, lines[k], k, needle, maxContext) == [found[rank]]
  {
    hide *;
    MatchesStep(fold, a, lines, n - 1, needle, maxContext);
    if k == n - 1 {
      MatchesAreCounted(fold, a, lines, k, needle, maxContext);
    } else {
      MatchIsAtItsRank(fold, a, lines, n - 1, k, needle, maxContext);
    }
  }

  /** How many lines of the first `k` assets are found. */
  function FoundBefore(fold: char -> char, assets: seq<TextAsset>, needle: string, k: nat): nat
    requires k <= |assets|
  {
    if k == 0 then 0
    else
      FoundBefore(fold, assets, needle, k - 1)
      + if Compatible(assets[k - 1])
        then MatchingBefore(fold, Split(assets[k - 1].text.value), needle, |Split(assets[k - 1].text.value)|) else 0
  }

  lemma {:induction false} AllAreCounted(fold: char -> char, assets: seq<TextAsset>, n: nat, needle: string,
                                         maxContext: nat)
    requires n <= |assets|
    ensures |AllMatches(fold, assets, n, needle, maxContext)| == FoundBefore(fold, assets, needle, n)
  {
    hide AssetMatches, MatchingBefore;
    if n > 0 {
      AllAreCounted(fold, assets, n - 1, needle, maxContext);
      if Compatible(assets[n - 1]) {
        var lines := Split(assets[n - 1].text.value);
        MatchesAreCounted(fold, assets[n - 1], lines, |lines|, needle, maxContext);
      }
    }
  }

  /** Every match of an asset reports one of its lines. */
  lemma {:induction false} AssetMatchIsReal(fold: char -> char, a: TextAsset, n: nat, j: nat, needle: string,
                                            maxContext: nat)
    returns (i: nat)
    requires Compatible(a) && n <= |Split(a.text.value)|
    requires j < |AssetMatches(fold, a, Split(a.text.value), n, needle, maxContext)|
    ensures i < n && LineMatches(fold, Split(a.text.value), i, needle)
    ensures j == MatchingBefore(fold, Split(a.text.value), needle, i)
    ensures MatchOf(fold, a, i, needle, maxContext,
                    AssetMatches(fold, a, Split(a.text.value), n, needle, maxContext)[j])
  {
    hide Split, LineMatch, MatchOf;
    var lines := Split(a.text.value);
    assert n > 0;
    MatchesStep(fold, a, lines, n - 1, needle, maxContext);
    if j < |AssetMatches(fold, a, lines, n - 1, needle, maxContext)| {
      i := AssetMatchIsReal(fold, a, n - 1, j, needle, maxContext);
    } else {
      i := n - 1;
      MatchesAreCounted(fold, a, lines, n - 1, needle, maxContext);
      LineMatchIsMatch(fold, a, i, needle, maxContext);
    }
  }

  /** Every match is a line of a searched asset, in asset-then-line order. */
  lemma {:induction false} MatchIsReal(fold: char -> char, assets: seq<TextAsset>, n: nat, j: nat, needle: string,
                                       maxContext: nat)
    returns (k: nat, i: nat)
    requires n <= |assets| && j < |AllMatches(fold, assets, n, needle, maxContext)|
    ensures k < n && Compatible(assets[k]) && i < |Split(assets[k].text.value)|
    ensures j == FoundBefore(fold, assets, needle, k)
                 + MatchingBefore(fold, Split(assets[k].text.value), needle, i)
    ensures MatchOf(fold, assets[k], i, needle, maxContext, AllMatches(fold, assets, n, needle, maxContext)[j])
  {
    hide AssetMatches, MatchingBefore, Split, MatchOf;
    var before := AllMatches(fold, assets, n - 1, needle, maxContext);
    if j < |before| {
      k, i := MatchIsReal(fold, assets, n - 1, j, needle, maxContext);
    } else {
      AllAreCounted(fold, assets, n - 1, needle, maxContext);
      k := n - 1;
      i := AssetMatchIsReal(fold, assets[k], |Split(assets[k].text.value)|, j - |before|, needle, maxContext);
    }
  }

  /** Every line with the needle in it is reported, at its place. */
  lemma {:induction false} LineIsFound(fold: char -> char, assets: seq<TextAsset>, n: nat, k: nat, i: nat,
                                       needle: string, maxContext: nat)
    requires k < n <= |assets| && Compatible(assets[k]) && i < |Split(assets[k].text.value)|
    requires LineMatches(fold, Split(assets[k].text.value), i, needle)
    ensures var place := FoundBefore(fold, assets, needle, k)
                         + MatchingBefore(fold, Split(assets[k].text.value), needle, i);
            var all := AllMatches(fold, assets, n, needle, maxContext);
            place < |all| && MatchOf(fold, assets[k], i, needle, maxContext, all[place])
  {
    hide AssetMatches, MatchingBefore, Split, MatchOf, LineMatch;
    if k < n - 1 {
      LineIsFound(fold, assets, n - 1, k, i, needle, maxContext);
    } else {
      var lines := Split(assets[k].text.value);
      AllAreCounted(fold, assets, k, needle, maxContext);
      MatchIsAtItsRank(fold, assets[k], lines, |lines|, i, needle, maxContext);
      LineMatchIsMatch(fold, assets[k], i, needle, maxContext);
    }
  }

  /** A line matches exactly when the needle occurs in it, the carriage return aside. */
  lemma LineMatchesWhen(fold: char -> char, lines: seq<string>, i: nat, line: string, needle: string)
    requires i < |lines| && Bare(lines[i], line)
    ensures LineMatches(fold, lines, i, needle) <==> needle != "" && Occurs(fold, line, needle)
  {
    TrimmedIsBare(lines[i]);
    FoundWhereItOccurs(fold, line, needle);
    hide Bare, FirstFold, Occurs, TrimCarriageReturn;
  }
}
