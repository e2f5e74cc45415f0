/** The query-path tables, their statements and the delete guards
    (internal/store/query_paths.go, db/schema.sql). */
module ConfigStore {
  import opened Prelude
  import opened Domain

  /** The saved terminal; `Unset` is what an unresolved terminal would be saved as. */
  datatype Terminal = Caller | Fixed(brain: RecordId) | Unset

  datatype Route = Route(terminal: Terminal, hops: seq<RecordId>)

  /** A query path with its scope, policy and route.  A scope position is empty once
      its asset has been deleted. */
  datatype PathRow = PathRow(
    brain: RecordId, path: string, visibility: Visibility, state: PathState, operations: seq<Operation>, version: nat,
    scope: seq<Option<RecordId>>, brainGrants: set<RecordId>, serviceGrants: set<RecordId>, route: Option<Route>)

  datatype Command = Command(
    brain: RecordId, path: string, visibility: Visibility, state: PathState, operations: seq<Operation>,
    assets: seq<RecordId>, brainGrants: seq<RecordId>, serviceGrants: seq<RecordId>, route: Option<Route>)

  type Paths = map<RecordId, PathRow>

  /** A stale version, or a statement the database refused. */
  datatype SaveError = VersionConflict | StatementFailed

  /** The tables; `issued` are the path ids ever given out, `accepted` the assets that
      accepted transfers name. */
  datatype Db = Db(
    brains: set<RecordId>, services: set<RecordId>, assets: set<RecordId>, paths: Paths,
    issued: set<RecordId>, accepted: set<RecordId>)

  // ------------------------------------------------------------ what a save needs

  /** The check constraint on paths. */
  predicate SchemaPath(path: string) {
    && |path| >= 2 && path[0] == '/' && IsLowerAlnum(path[1])
    && (forall i | 0 <= i < |path| :: IsPathChar(path[i]))
    && (forall i | 0 <= i < |path| - 1 :: !(path[i] == '/' && path[i + 1] == '/'))
    && path[|path| - 1] != '/'
  }

  predicate HeaderFits(db: Db, id: RecordId, cmd: Command) {
    && cmd.brain in db.brains && SchemaPath(cmd.path)
    && !cmd.visibility.OtherVisibility? && !cmd.state.OtherState?
    && (forall op | op in cmd.operations :: !op.OtherOperation?)
    && (forall q | q in db.paths && q != id && db.paths[q].brain == cmd.brain :: db.paths[q].path != cmd.path)
  }

  /** Rows that can be inserted one after another: existing references, none twice. */
  predicate Insertable(ids: seq<RecordId>, table: set<RecordId>) {
    Distinct(ids) && Elements(ids) <= table
  }

  predicate RouteFits(db: Db, route: Route) {
    && route.terminal != Unset && (route.terminal.Fixed? ==> route.terminal.brain in db.brains)
    && Elements(route.hops) <= db.services && |route.hops| <= MAX_ROUTE_HOPS
  }

  predicate RelationsFit(db: Db, cmd: Command) {
    && Insertable(cmd.assets, db.assets) && Insertable(cmd.brainGrants, db.brains)
    && Insertable(cmd.serviceGrants, db.services)
    && (cmd.route.Some? ==> RouteFits(db, cmd.route.value))
  }

  predicate Fits(db: Db, id: RecordId, cmd: Command) {
    HeaderFits(db, id, cmd) && RelationsFit(db, cmd)
  }

  // ------------------------------------------------------------ what each write does

  function Slots(ids: seq<RecordId>): (r: seq<Option<RecordId>>)
    ensures |r| == |ids| && forall i | 0 <= i < |r| :: r[i] == Some(ids[i])
  {
    seq(|ids|, i requires 0 <= i < |ids| => Some(ids[i]))
  }

  function Header(cmd: Command, version: nat): PathRow {
    PathRow(cmd.brain, cmd.path, cmd.visibility, cmd.state, cmd.operations, version, [], {}, {}, None)
  }

  function Saved(cmd: Command, version: nat): (r: PathRow)
    ensures r.version == version && r.brain == cmd.brain
  {
    Header(cmd, version).(scope := Slots(cmd.assets), brainGrants := Elements(cmd.brainGrants),
                          serviceGrants := Elements(cmd.serviceGrants), route := cmd.route)
  }

  predicate CanCreate(db: Db, id: RecordId, cmd: Command) {
    id !in db.issued && id !in db.paths && Fits(db, id, cmd)
  }

  predicate Matches(db: Db, id: RecordId, brain: RecordId, version: nat) {
    id in db.paths && db.paths[id].brain == brain && db.paths[id].version == version
  }

  predicate CanReplace(db: Db, id: RecordId, version: nat, cmd: Command) {
    Matches(db, id, cmd.brain, version) && Fits(db, id, cmd)
  }

  function Created(db: Db, id: RecordId, cmd: Command): Db {
    db.(paths := db.paths[id := Saved(cmd, 1)], issued := db.issued + {id})
  }

  function Replaced(db: Db, id: RecordId, version: nat, cmd: Command): Db {
    db.(paths := db.paths[id := Saved(cmd, version + 1)])
  }

  function Cleared(scope: seq<Option<RecordId>>, gone: set<RecordId>): (r: seq<Option<RecordId>>)
    ensures |r| == |scope|
    ensures forall i | 0 <= i < |r| :: r[i] == if scope[i].Some? && scope[i].value in gone then None else scope[i]
  {
    seq(|scope|, i requires 0 <= i < |scope| => if scope[i].Some? && scope[i].value in gone then None else scope[i])
  }

  /** Nothing is lost but the scope positions of the assets that are gone. */
  predicate OnlyScopeLost(row: PathRow, after: PathRow, gone: set<RecordId>) {
    && after == row.(scope := after.scope) && |after.scope| == |row.scope|
    && forall i | 0 <= i < |row.scope| ::
         after.scope[i] == if row.scope[i].Some? && row.scope[i].value in gone then None else row.scope[i]
  }

  predicate InScope(row: PathRow, asset: RecordId) {
    Some(asset) in row.scope
  }

  /** The trigger on asset deletes. */
  predicate AssetInUse(db: Db, asset: RecordId) {
    exists p | p in db.paths :: db.paths[p].state == Enabled && InScope(db.paths[p], asset)
  }

  /** An asset delete is refused by its trigger, or by the check on accepted transfers
      whose reference it would set to null. */
  predicate AssetHeld(db: Db, asset: RecordId) {
    AssetInUse(db, asset) || asset in db.accepted
  }

  function WithoutAssets(db: Db, gone: set<RecordId>): Db {
    db.(assets := db.assets - gone,
        paths := map p | p in db.paths :: db.paths[p].(scope := Cleared(db.paths[p].scope, gone)))
  }

  predicate Hops(row: PathRow, service: RecordId) {
    row.route.Some? && service in row.route.value.hops
  }

  /** The trigger on service deletes, and the restricted reference behind it, which
      also holds for paths that are not enabled. */
  predicate ServiceInUse(db: Db, service: RecordId) {
    exists p | p in db.paths :: Hops(db.paths[p], service)
  }

  function WithoutService(db: Db, service: RecordId): Db {
    db.(services := db.services - {service},
        paths := map p | p in db.paths :: db.paths[p].(serviceGrants := db.paths[p].serviceGrants - {service}))
  }

  predicate Targets(row: PathRow, brain: RecordId) {
    row.route.Some? && row.route.value.terminal == Fixed(brain)
  }

  /** The trigger on Brain deletes, the restricted reference of other Brains' routes,
      and what holds the assets behind the cascade. */
  predicate BrainInUse(db: Db, brain: RecordId, owned: set<RecordId>) {
    || (exists p | p in db.paths ::
          db.paths[p].state == Enabled && (db.paths[p].brain == brain || Targets(db.paths[p], brain)))
    || (exists p | p in db.paths :: db.paths[p].brain != brain && Targets(db.paths[p], brain))
    || (exists a | a in owned :: AssetHeld(db, a))
  }

  /** A Brain can go when no enabled path is its own, only disabled paths of its own have
      it for a target, and nothing holds its assets. */
  predicate BrainFree(paths: Paths, accepted: set<RecordId>, brain: RecordId, owned: set<RecordId>) {
    && (forall p | p in paths && paths[p].state == Enabled :: paths[p].brain != brain)
    && (forall p | p in paths && paths[p].route.Some? ::
          paths[p].route.value.terminal == Fixed(brain) ==> paths[p].state != Enabled && paths[p].brain == brain)
    && (forall a | a in owned ::
          a !in accepted && forall p | p in paths && paths[p].state == Enabled :: Some(a) !in paths[p].scope)
  }

  lemma BrainFreeWhen(db: Db, brain: RecordId, owned: set<RecordId>)
    ensures BrainInUse(db, brain, owned) <==> !BrainFree(db.paths, db.accepted, brain, owned)
  {
    if !BrainInUse(db, brain, owned) {
      forall a | a in owned ensures !AssetHeld(db, a) {
      }
      forall p | p in db.paths && db.paths[p].route.Some? && db.paths[p].route.value.terminal == Fixed(brain)
        ensures db.paths[p].state != Enabled && db.paths[p].brain == brain {
        assert Targets(db.paths[p], brain);
      }
    }
  }

  function Owned(assets: set<RecordId>, assetBrain: RecordId -> RecordId, brain: RecordId): set<RecordId> {
    set a | a in assets && assetBrain(a) == brain
  }

  /** The Brain, its paths, the grants it was given and the assets it owned go. */
  function WithoutBrain(db: Db, brain: RecordId, owned: set<RecordId>): Db {
    db.(brains := db.brains - {brain}, assets := db.assets - owned,
        paths := map p | p in db.paths && db.paths[p].brain != brain ::
          db.paths[p].(scope := Cleared(db.paths[p].scope, owned), brainGrants := db.paths[p].brainGrants - {brain}))
  }

  // ------------------------------------------------------------ loading

  function Present(scope: seq<Option<RecordId>>): (r: seq<RecordId>)
  {
    if scope == [] then []
    else if scope[0].Some? then [scope[0].value] + Present(scope[1..])
    else Present(scope[1..])
  }

  /** A loaded configuration; grants come in the order of their canonical IDs. */
  datatype Config = Config(
    id: RecordId, brain: RecordId, path: string, visibility: Visibility, state: PathState, operations: seq<Operation>,
    version: nat, assets: seq<RecordId>, brainGrants: set<RecordId>, serviceGrants: set<RecordId>, route: Option<Route>)

  function ConfigOf(id: RecordId, row: PathRow): Config {
    Config(id, row.brain, row.path, row.visibility, row.state, row.operations, row.version,
           Present(row.scope), row.brainGrants, row.serviceGrants, row.route)
  }

  lemma {:induction false} PresentSlots(ids: seq<RecordId>)
    ensures Present(Slots(ids)) == ids
  {
    if ids != [] {
      assert Slots(ids)[1..] == Slots(ids[1..]);
      PresentSlots(ids[1..]);
    }
  }

  /** What is loaded after a save is what was saved: assets and repeated hops in order,
      grants as sets. */
  lemma LoadAfterSave(id: RecordId, cmd: Command, version: nat)
    ensures ConfigOf(id, Saved(cmd, version)) ==
            Config(id, cmd.brain, cmd.path, cmd.visibility, cmd.state, cmd.operations, version,
                   cmd.assets, Elements(cmd.brainGrants), Elements(cmd.serviceGrants), cmd.route)
  {
    PresentSlots(cmd.assets);
  }

  lemma {:induction false} PresentAppend(scope: seq<Option<RecordId>>, next: Option<RecordId>)
    ensures Present(scope + [next]) == if next.Some? then Present(scope) + [next.value] else Present(scope)
  {
    if scope == [] {
      assert scope + [next] == [next];
    } else {
      assert (scope + [next])[1..] == scope[1..] + [next];
      PresentAppend(scope[1..], next);
    }
  }

  lemma InsertOne(ids: seq<RecordId>, i: nat, table: set<RecordId>)
    requires i < |ids| && Insertable(ids[..i], table)
    ensures Insertable(ids[..i + 1], table) <==> ids[i] in table && ids[i] !in ids[..i]
    ensures Elements(ids[..i + 1]) == Elements(ids[..i]) + {ids[i]}
    ensures Slots(ids[..i + 1]) == Slots(ids[..i]) + [Some(ids[i])]
  {
    assert ids[..i + 1] == ids[..i] + [ids[i]];
    assert forall k | 0 <= k < i :: ids[..i + 1][k] == ids[..i][k] == ids[k];
    if ids[i] in ids[..i] {
      var k :| 0 <= k < i && ids[..i][k] == ids[i];
      assert ids[..i + 1][k] == ids[..i + 1][i];
    }
  }

  lemma NotInsertable(ids: seq<RecordId>, i: nat, table: set<RecordId>)
    requires i < |ids| && (ids[i] !in table || ids[i] in ids[..i])
    ensures !Insertable(ids, table)
  {
    assert ids[i] in Elements(ids);
  }

  lemma RelationsFitAnyPaths(db: Db, paths: Paths, cmd: Command)
    ensures RelationsFit(db, cmd) == RelationsFit(db.(paths := paths), cmd)
  {
  }

  class Store {
    var brains: set<RecordId>
    var services: set<RecordId>
    var assets: set<RecordId>
    var paths: Paths
    var issued: set<RecordId>
    var accepted: set<RecordId>
    /** The Brain an asset belongs to, which no update changes. */
    const assetBrain: RecordId -> RecordId

    ghost function View(): Db
      reads this
    {
      Db(brains, services, assets, paths, issued, accepted)
    }

    /** The scope rows, at positions 0, 1 and so on. */
    method InsertScope(id: RecordId, ids: seq<RecordId>) returns (ok: bool)
      requires id in paths && paths[id].scope == []
      modifies this`paths
      ensures ok <==> Insertable(ids, assets)
      ensures ok ==> paths == old(paths)[id := old(paths)[id].(scope := Slots(ids))]
    {
      for i := 0 to |ids|
        invariant id in paths && paths == old(paths)[id := old(paths)[id].(scope := Slots(ids[..i]))]
        invariant Insertable(ids[..i], assets)
      {
        InsertOne(ids, i, assets);
        if ids[i] !in assets || Some(ids[i]) in paths[id].scope {
          assert ids[i] !in assets || ids[i] in ids[..i];
          NotInsertable(ids, i, assets);
          return false;
        }
        paths := paths[id := paths[id].(scope := paths[id].scope + [Some(ids[i])])];
      }
      assert ids[..|ids|] == ids;
      return true;
    }

    method InsertBrainGrants(id: RecordId, ids: seq<RecordId>) returns (ok: bool)
      requires id in paths && paths[id].brainGrants == {}
      modifies this`paths
      ensures ok <==> Insertable(ids, brains)
      ensures ok ==> paths == old(paths)[id := old(paths)[id].(brainGrants := Elements(ids))]
    {
      assert Elements(ids[..0]) == {};
      for i := 0 to |ids|
        invariant id in paths && paths == old(paths)[id := old(paths)[id].(brainGrants := Elements(ids[..i]))]
        invariant Insertable(ids[..i], brains)
      {
        InsertOne(ids, i, brains);
        if ids[i] !in brains || ids[i] in paths[id].brainGrants {
          NotInsertable(ids, i, brains);
          return false;
        }
        paths := paths[id := paths[id].(brainGrants := paths[id].brainGrants + {ids[i]})];
      }
      assert ids[..|ids|] == ids;
      return true;
    }

    method InsertServiceGrants(id: RecordId, ids: seq<RecordId>) returns (ok: bool)
      requires id in paths && paths[id].serviceGrants == {}
      modifies this`paths
      ensures ok <==> Insertable(ids, services)
      ensures ok ==> paths == old(paths)[id := old(paths)[id].(serviceGrants := Elements(ids))]
    {
      assert Elements(ids[..0]) == {};
      for i := 0 to |ids|
        invariant id in paths && paths == old(paths)[id := old(paths)[id].(serviceGrants := Elements(ids[..i]))]
        invariant Insertable(ids[..i], services)
      {
        InsertOne(ids, i, services);
        if ids[i] !in services || ids[i] in paths[id].serviceGrants {
          NotInsertable(ids, i, services);
          return false;
        }
        paths := paths[id := paths[id].(serviceGrants := paths[id].serviceGrants + {ids[i]})];
      }
      assert ids[..|ids|] == ids;
      return true;
    }

    /** The route row and its hops, repeated Services included. */
    method InsertRoute(id: RecordId, route: Route) returns (ok: bool)
      requires id in paths && paths[id].route.None?
      modifies this`paths
      ensures ok <==> RouteFits(old(View()), route)
      ensures ok ==> paths == old(paths)[id := old(paths)[id].(route := Some(route))]
    {
      if route.terminal == Unset || (route.terminal.Fixed? && route.terminal.brain !in brains) {
        return false;
      }
      paths := paths[id := paths[id].(route := Some(Route(route.terminal, [])))];
      for i := 0 to |route.hops|
        invariant id in paths
        invariant paths == old(paths)[id := old(paths)[id].(route := Some(Route(route.terminal, route.hops[..i])))]
        invariant Elements(route.hops[..i]) <= services && i <= MAX_ROUTE_HOPS
      {
        assert route.hops[i] in Elements(route.hops);
        if route.hops[i] !in services || i >= MAX_ROUTE_HOPS {
          return false;
        }
        assert route.hops[..i + 1] == route.hops[..i] + [route.hops[i]];
        var hops := paths[id].route.value.hops + [route.hops[i]];
        paths := paths[id := paths[id].(route := Some(Route(route.terminal, hops)))];
      }
      assert route.hops[..|route.hops|] == route.hops;
      return true;
    }

    method InsertQueryPathRelations(id: RecordId, cmd: Command) returns (ok: bool)
      requires id in paths && paths[id] == Header(cmd, paths[id].version)
      modifies this`paths
      ensures ok <==> RelationsFit(old(View()), cmd)
      ensures ok ==> paths == old(paths)[id := Saved(cmd, old(paths)[id].version)]
    {
      hide Insertable;
      ok := InsertScope(id, cmd.assets);
      if !ok {
        return;
      }
      ok := InsertBrainGrants(id, cmd.brainGrants);
      if !ok {
        return;
      }
      ok := InsertServiceGrants(id, cmd.serviceGrants);
      if !ok || cmd.route.None? {
        return;
      }
      ok := InsertRoute(id, cmd.route.value);
    }

    method ClearRelations(id: RecordId)
      requires id in paths
      modifies this`paths
      ensures paths == old(paths)[id :=
                old(paths)[id].(scope := [], brainGrants := {}, serviceGrants := {}, route := None)]
    {
      paths := paths[id := paths[id].(scope := [])];
      paths := paths[id := paths[id].(brainGrants := {})];
      paths := paths[id := paths[id].(serviceGrants := {})];
      paths := paths[id := paths[id].(route := None)];
    }

    method HeaderFitsNow(id: RecordId, cmd: Command) returns (ok: bool)
      ensures ok <==> HeaderFits(View(), id, cmd)
    {
      ok := cmd.brain in brains && SchemaPath(cmd.path) && !cmd.visibility.OtherVisibility? && !cmd.state.OtherState?
            && (forall op | op in cmd.operations :: !op.OtherOperation?)
            && (forall q | q in paths && q != id && paths[q].brain == cmd.brain :: paths[q].path != cmd.path);
    }

    /** One transaction: everything is saved as version 1, or nothing is. */
    method CreateQueryPath(id: RecordId, cmd: Command) returns (r: Option<Config>)
      modifies this`paths, this`issued
      ensures r.Some? <==> CanCreate(old(View()), id, cmd)
      ensures r.Some? ==> View() == Created(old(View()), id, cmd) && id in paths && r.value == ConfigOf(id, paths[id])
      ensures r.Some? ==> id !in old(issued) && id !in old(paths) && id in issued && paths[id].version == 1
      ensures r.None? ==> View() == old(View())
    {
      hide HeaderFits, RelationsFit, Saved;
      var saved := paths;
      var fits := HeaderFitsNow(id, cmd);
      if id in issued || id in paths || !fits {
        return None;
      }
      paths := paths[id := Header(cmd, 1)];
      RelationsFitAnyPaths(old(View()), paths, cmd);
      var ok := InsertQueryPathRelations(id, cmd);
      if !ok {
        paths := saved;
        return None;
      }
      issued := issued + {id};
      assert paths == saved[id := Saved(cmd, 1)];
      var config := LoadQueryPathConfig(id);
      return config;
    }

    /** One transaction: the saved configuration is replaced as the next version, or
        nothing changes. */
    method ReplaceQueryPath(id: RecordId, expectedVersion: nat, cmd: Command) returns (r: Result<Config, SaveError>)
      modifies this`paths
      ensures r.Ok? <==> CanReplace(old(View()), id, expectedVersion, cmd)
      ensures r.Ok? ==> View() == Replaced(old(View()), id, expectedVersion, cmd)
      ensures r.Ok? ==> id in paths && r.value == ConfigOf(id, paths[id])
      ensures r.Err? ==> View() == old(View())
      ensures r == Err(VersionConflict) <==> !Matches(old(View()), id, cmd.brain, expectedVersion)
      ensures r == Err(VersionConflict) <==>
        !(id in old(paths) && old(paths)[id].brain == cmd.brain && old(paths)[id].version == expectedVersion)
      ensures r.Ok? ==> paths[id].version == expectedVersion + 1
    {
      hide HeaderFits, RelationsFit, Saved;
      var saved := paths;
      if !(id in paths && paths[id].brain == cmd.brain && paths[id].version == expectedVersion) {
        return Err(VersionConflict);
      }
      var fits := HeaderFitsNow(id, cmd);
      if !fits {
        return Err(StatementFailed);
      }
      paths := paths[id := paths[id].(path := cmd.path, visibility := cmd.visibility, state := cmd.state,
                                      operations := cmd.operations, version := paths[id].version + 1)];
      ClearRelations(id);
      assert paths == saved[id := Header(cmd, expectedVersion + 1)];
      RelationsFitAnyPaths(old(View()), paths, cmd);
      var ok := InsertQueryPathRelations(id, cmd);
      if !ok {
        paths := saved;
        return Err(StatementFailed);
      }
      assert paths == saved[id := Saved(cmd, expectedVersion + 1)];
      var config := LoadQueryPathConfig(id);
      return Ok(config.value);
    }

    method LoadQueryPathConfig(id: RecordId) returns (r: Option<Config>)
      ensures r == if id in paths then Some(ConfigOf(id, paths[id])) else None
    {
      if id !in paths {
        return None;
      }
      var row := paths[id];
      var loaded: seq<RecordId> := [];
      for i := 0 to |row.scope|
        invariant loaded == Present(row.scope[..i])
      {
        assert row.scope[..i + 1] == row.scope[..i] + [row.scope[i]];
        PresentAppend(row.scope[..i], row.scope[i]);
        if row.scope[i].Some? {
          loaded := loaded + [row.scope[i].value];
        }
      }
      assert row.scope[..|row.scope|] == row.scope;
      return Some(Config(id, row.brain, row.path, row.visibility, row.state, row.operations, row.version,
                         loaded, row.brainGrants, row.serviceGrants, row.route));
    }

    method DeleteQueryPath(id: RecordId, brain: RecordId, expectedVersion: nat) returns (ok: bool)
      modifies this`paths
      ensures ok <==> Matches(old(View()), id, brain, expectedVersion)
      ensures ok <==>
        id in old(paths) && old(paths)[id].brain == brain && old(paths)[id].version == expectedVersion
      ensures View() == if ok then old(View()).(paths := old(paths) - {id}) else old(View())
    {
      ok := id in paths && paths[id].brain == brain && paths[id].version == expectedVersion;
      if ok {
        paths := paths - {id};
      }
    }

    method DeleteAsset(asset: RecordId) returns (ok: bool)
      modifies this`paths, this`assets
      ensures ok <==> !AssetHeld(old(View()), asset)
      ensures ok <==>
        && asset !in old(accepted)
        && forall p | p in old(paths) && old(paths)[p].state == Enabled :: Some(asset) !in old(paths)[p].scope
      ensures View() == if ok then WithoutAssets(old(View()), {asset}) else old(View())
      ensures ok ==>
        && assets == old(assets) - {asset} && paths.Keys == old(paths).Keys
        && forall p | p in paths :: OnlyScopeLost(old(paths)[p], paths[p], {asset})
    {
      ok := asset !in accepted
        && !(exists p | p in paths :: paths[p].state == Enabled && Some(asset) in paths[p].scope);
      if ok {
        assets := assets - {asset};
        paths := map p | p in paths :: paths[p].(scope := Cleared(paths[p].scope, {asset}));
      }
    }

    /** Deleting a Brain takes its paths and assets along, unless something still needs it. */
    method DeleteBrain(brain: RecordId) returns (ok: bool)
      modifies this`paths, this`assets, this`brains
      ensures ok <==> !BrainInUse(old(View()), brain, Owned(old(assets), assetBrain, brain))
      ensures View() == if ok then WithoutBrain(old(View()), brain, Owned(old(assets), assetBrain, brain))
              else old(View())
      ensures ok <==>
        BrainFree(old(paths), old(accepted), brain, set a | a in old(assets) && assetBrain(a) == brain)
      ensures ok ==>
        && brains == old(brains) - {brain} && assets == (set a | a in old(assets) && assetBrain(a) != brain)
        && (forall p :: p in paths <==> p in old(paths) && old(paths)[p].brain != brain)
        && (forall p | p in paths ::
              && OnlyScopeLost(old(paths)[p], paths[p].(brainGrants := old(paths)[p].brainGrants),
                               set a | a in old(assets) && assetBrain(a) == brain)
              && paths[p].brainGrants == old(paths)[p].brainGrants - {brain})
    {
      var owned := Owned(assets, assetBrain, brain);
      var db := Db(brains, services, assets, paths, issued, accepted);
      BrainFreeWhen(db, brain, owned);
      hide BrainFree;
      ok := !(exists p | p in paths ::
                paths[p].state == Enabled && (paths[p].brain == brain || Targets(paths[p], brain)))
            && !(exists p | p in paths :: paths[p].brain != brain && Targets(paths[p], brain))
            && !(exists a | a in owned :: AssetHeld(db, a));
      if ok {
        brains := brains - {brain};
        assets := assets - owned;
        paths := map p | p in paths && paths[p].brain != brain ::
          paths[p].(scope := Cleared(paths[p].scope, owned), brainGrants := paths[p].brainGrants - {brain});
      }
    }

    method DeleteService(service: RecordId) returns (ok: bool)
      modifies this`paths, this`services
      ensures ok <==> !ServiceInUse(old(View()), service)
      ensures ok <==>
        forall p | p in old(paths) && old(paths)[p].route.Some? :: service !in old(paths)[p].route.value.hops
      ensures View() == if ok then WithoutService(old(View()), service) else old(View())
      ensures ok ==>
        && services == old(services) - {service} && paths.Keys == old(paths).Keys
        && forall p | p in paths ::
             paths[p] == old(paths)[p].(serviceGrants := old(paths)[p].serviceGrants - {service})
    {
      ok := !(exists p | p in paths :: paths[p].route.Some? && service in paths[p].route.value.hops);
      if ok {
        services := services - {service};
        paths := map p | p in paths :: paths[p].(serviceGrants := paths[p].serviceGrants - {service});
      }
    }
  }
}
