/** Query paths by their segments: what the parser and the table's check accept
    (internal/domain/values.go, db/schema.sql). */
module PathLaws {
  import opened Prelude
  import opened Domain
  import opened ConfigStore

  predicate Segment(s: string) {
    s != "" && forall i | 0 <= i < |s| :: 'a' <= s[i] <= 'z' || '0' <= s[i] <= '9' || s[i] == '_' || s[i] == '-'
  }

  /** Every segment behind a slash of its own. */
  function Slashed(segments: seq<string>): string {
    if segments == [] then "" else "/" + segments[0] + Slashed(segments[1..])
  }

  /** Segments of which the first begins with a letter or a digit. */
  predicate Segments(segments: seq<string>) {
    && segments != [] && (forall k | 0 <= k < |segments| :: Segment(segments[k]))
    && segments[0][0] != '_' && segments[0][0] != '-'
  }

  /** A slash, and what follows is a segment up to the next slash or the end. */
  predicate Chain(path: string) {
    && path != "" && path[0] == '/' && path[|path| - 1] != '/'
    && (forall i | 0 <= i < |path| :: IsPathChar(path[i]))
    && (forall i | 0 <= i < |path| - 1 :: !(path[i] == '/' && path[i + 1] == '/'))
  }

  lemma {:induction false} SlashedIsChain(segments: seq<string>)
    requires segments != [] && forall k | 0 <= k < |segments| :: Segment(segments[k])
    ensures Chain(Slashed(segments))
  {
    var first, rest := "/" + segments[0], Slashed(segments[1..]);
    var path := first + rest;
    assert first[0] == '/' && forall i | 1 <= i < |first| :: first[i] != '/' && IsPathChar(first[i]);
    if |segments| > 1 {
      SlashedIsChain(segments[1..]);
      assert path[|path| - 1] == rest[|rest| - 1];
    } else {
      assert path == first;
    }
    forall i | 0 <= i < |path| - 1 ensures !(path[i] == '/' && path[i + 1] == '/') {
      if i + 1 >= |first| + 1 {
        assert path[i] == rest[i - |first|] && path[i + 1] == rest[i + 1 - |first|];
      }
    }
    forall i | 0 <= i < |path| ensures IsPathChar(path[i]) {
      assert path[i] == if i < |first| then first[i] else rest[i - |first|];
    }
  }

  /** Where the next slash is, or the end. */
  function Next(path: string, from: nat): (r: nat)
    requires from <= |path|
    ensures from <= r <= |path| && (forall i | from <= i < r :: path[i] != '/') && (r < |path| ==> path[r] == '/')
    decreases |path| - from
  {
    if from == |path| || path[from] == '/' then from else Next(path, from + 1)
  }

  lemma FirstSegment(path: string, end: nat)
    requires Chain(path) && end <= |path| && 1 < end && forall i | 1 <= i < end :: path[i] != '/'
    ensures Segment(path[1..end])
  {
    var first := path[1..end];
    forall i | 0 <= i < |first|
      ensures 'a' <= first[i] <= 'z' || '0' <= first[i] <= '9' || first[i] == '_' || first[i] == '-' {
      assert first[i] == path[i + 1] && IsPathChar(path[i + 1]);
    }
  }

  lemma RestIsChain(path: string, end: nat)
    requires Chain(path) && end < |path| && path[end] == '/'
    ensures Chain(path[end..])
  {
    var rest := path[end..];
    assert forall i | 0 <= i < |rest| :: rest[i] == path[end + i];
  }

  lemma {:induction false} ChainIsSlashed(path: string) returns (segments: seq<string>)
    requires Chain(path)
    ensures segments != [] && Slashed(segments) == path && forall k | 0 <= k < |segments| :: Segment(segments[k])
    decreases |path|
  {
    assert |path| > 1 && path[1] != '/';
    var end := Next(path, 1);
    var first, rest := path[1..end], path[end..];
    assert path == "/" + first + rest;
    FirstSegment(path, end);
    hide Chain, Segment;
    if end == |path| {
      segments := [first];
      assert segments[1..] == [] && Slashed(segments[1..]) == "";
    } else {
      RestIsChain(path, end);
      var others := ChainIsSlashed(rest);
      segments := [first] + others;
      assert segments[1..] == others;
    }
  }

  /** The table takes exactly the paths made of segments. */
  lemma SchemaPathIsSegments(path: string)
    ensures SchemaPath(path) <==> exists segments :: Segments(segments) && Slashed(segments) == path
  {
    if SchemaPath(path) {
      assert Chain(path);
      var segments := ChainIsSlashed(path);
      assert segments[0][0] == path[1];
    }
    forall segments | Segments(segments) && Slashed(segments) == path ensures SchemaPath(path) {
      SlashedIsChain(segments);
      assert path[1] == segments[0][0];
    }
  }

  /** What the tables take as the rows of path `id`. */
  ghost predicate TableTakes(db: Db, id: RecordId, cmd: Command) {
    && cmd.brain in db.brains && (exists segments :: Segments(segments) && Slashed(segments) == cmd.path)
    && cmd.visibility in {Public, Private} && cmd.state in {Draft, Enabled, Disabled}
    && (forall i | 0 <= i < |cmd.operations| :: cmd.operations[i] in {RawRead, TextSearchOp, CsvQueryOp})
    && (forall q | q in db.paths && q != id :: db.paths[q].brain != cmd.brain || db.paths[q].path != cmd.path)
    && Rows(cmd.assets, db.assets) && Rows(cmd.brainGrants, db.brains) && Rows(cmd.serviceGrants, db.services)
    && (cmd.route.Some? ==>
          && |cmd.route.value.hops| <= 20
          && (forall i | 0 <= i < |cmd.route.value.hops| :: cmd.route.value.hops[i] in db.services)
          && match cmd.route.value.terminal
             case Caller => true
             case Fixed(b) => b in db.brains
             case Unset => false)
  }

  /** Existing rows, none of them twice. */
  predicate Rows(ids: seq<RecordId>, table: set<RecordId>) {
    && (forall i | 0 <= i < |ids| :: ids[i] in table)
    && (forall i, j | 0 <= i < j < |ids| :: ids[i] != ids[j])
  }

  lemma RowsWhen(ids: seq<RecordId>, table: set<RecordId>)
    ensures Insertable(ids, table) <==> Rows(ids, table)
  {
    if Elements(ids) <= table {
      assert forall i | 0 <= i < |ids| :: ids[i] in Elements(ids);
    }
  }

  lemma FitsWhen(db: Db, id: RecordId, cmd: Command)
    ensures Fits(db, id, cmd) <==> TableTakes(db, id, cmd)
  {
    SchemaPathIsSegments(cmd.path);
    RowsWhen(cmd.assets, db.assets);
    RowsWhen(cmd.brainGrants, db.brains);
    RowsWhen(cmd.serviceGrants, db.services);
    if cmd.route.Some? {
      HopsFitWhen(cmd.route.value.hops, db.services);
    }
    forall i | 0 <= i < |cmd.operations|
      ensures cmd.operations[i] in {RawRead, TextSearchOp, CsvQueryOp} <==> !cmd.operations[i].OtherOperation? {
    }
    hide SchemaPath, Insertable, Rows, Segments, Slashed, Elements;
  }

  lemma HopsFitWhen(hops: seq<RecordId>, services: set<RecordId>)
    ensures Elements(hops) <= services <==> forall i | 0 <= i < |hops| :: hops[i] in services
  {
    if Elements(hops) <= services {
      assert forall i | 0 <= i < |hops| :: hops[i] in Elements(hops);
    }
  }

  /** A Brain's canonical ID is a prefix and a slug of at most 63 letters, digits and inner hyphens. */
  lemma BrainIdWhen(id: string)
    ensures IsBrainId(id) <==>
      && |id| > 6 && id[..6] == "brain."
      && var slug := id[6..];
         && |slug| <= 63 && slug[0] != '-' && slug[|slug| - 1] != '-'
         && forall i | 0 <= i < |slug| :: 'a' <= slug[i] <= 'z' || '0' <= slug[i] <= '9' || slug[i] == '-'
  {
    if |id| > 6 {
      var slug := id[6..];
      assert forall i | 0 <= i < |slug| :: slug[i] in slug;
    }
  }

  predicate EndsSegment(rest: string) {
    rest == "" || rest[0] == '/'
  }

  lemma NextBehind(s: string, rest: string)
    requires '/' !in s && EndsSegment(rest)
    ensures var path := "/" + s + rest; Next(path, 1) == |s| + 1 && path[1..|s| + 1] == s
  {
    var path := "/" + s + rest;
    assert forall i | 1 <= i < |s| + 1 :: path[i] == s[i - 1];
    assert rest != "" ==> path[|s| + 1] == rest[0];
  }

  lemma OneFirstSegment(s: string, rest: string, u: string, other: string)
    requires '/' !in s && '/' !in u && EndsSegment(rest) && EndsSegment(other)
    ensures "/" + s + rest == "/" + u + other ==> s == u
  {
    NextBehind(s, rest);
    NextBehind(u, other);
  }

  lemma SegmentHasNoSlash(s: string)
    requires Segment(s)
    ensures '/' !in s
  {
  }

  /** A reserved prefix is a reserved first segment. */
  lemma ReservedWhen(segments: seq<string>, name: string)
    requires Segments(segments) && Segment(name)
    ensures Reserved(Slashed(segments), "/" + name) <==> segments[0] == name
  {
    var rest := Slashed(segments[1..]);
    var path := "/" + segments[0] + rest;
    SegmentHasNoSlash(name);
    SegmentHasNoSlash(segments[0]);
    assert EndsSegment(rest);
    if path == "/" + name {
      assert "/" + name + "" == "/" + name;
      OneFirstSegment(segments[0], rest, name, "");
    } else if HasPrefix(path, "/" + name + "/") {
      var other := path[|name| + 1..];
      assert path == "/" + name + other;
      OneFirstSegment(segments[0], rest, name, other);
    }
    hide Segment;
  }

  predicate ReservedName(name: string) {
    name in ["api", "q", "healthz", "readyz"]
  }

  lemma AnyReserved(segments: seq<string>)
    requires Segments(segments)
    ensures var path := Slashed(segments);
      Reserved(path, "/api") || Reserved(path, "/q") || Reserved(path, "/healthz") || Reserved(path, "/readyz")
      <==> ReservedName(segments[0])
  {
    assert Segment("api") && Segment("q") && Segment("healthz") && Segment("readyz");
    assert "/" + "api" == "/api" && "/" + "q" == "/q" && "/" + "healthz" == "/healthz" && "/" + "readyz" == "/readyz";
    ReservedWhen(segments, "api");
    ReservedWhen(segments, "q");
    ReservedWhen(segments, "healthz");
    ReservedWhen(segments, "readyz");
    hide Segments, Segment, Slashed, Reserved;
  }

  /** The parser takes exactly the paths made of segments whose first is not reserved. */
  lemma QueryPathIsSegments(path: string)
    ensures IsQueryPath(path) <==>
      exists segments :: Segments(segments) && Slashed(segments) == path && !ReservedName(segments[0])
  {
    SchemaPathIsSegments(path);
    forall segments | Segments(segments) && Slashed(segments) == path
      ensures Reserved(path, "/api") || Reserved(path, "/q") || Reserved(path, "/healthz") || Reserved(path, "/readyz")
          <==> ReservedName(segments[0]) {
      AnyReserved(segments);
    }
    hide Segments, Slashed, Reserved, ReservedName;
  }
}
