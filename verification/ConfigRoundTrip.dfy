/** A validated body can be saved, and a body read back from the store saves the same
    configuration again. */
module ConfigRoundTrip {
  import opened Prelude
  import opened Domain
  import opened Validation
  import opened ConfigStore
  import opened ConfigRequests
  import opened ConfigRuns

  /** The context was read from the tables as they are. */
  ghost predicate Current(w: World, db: Db, ctx: Context) {
    && Truthful(w, ctx) && ctx.source.id in db.brains
    && (forall n | n in ctx.brains :: ctx.brains[n].id in db.brains)
    && (forall n | n in ctx.services :: ctx.services[n] in db.services)
    && (forall a | a in ctx.assets :: a in db.assets)
  }

  /** No Brain or Service is missing from the listings. */
  ghost predicate Complete(w: World, db: Db, ctx: Context) {
    && (forall b | b in db.brains :: w.brainName(b) in ctx.brains)
    && (forall s | s in db.services :: w.serviceName(s) in ctx.services)
  }

  lemma NamesResolveToRows(names: seq<string>, ids: map<string, RecordId>, table: set<RecordId>,
                           name: RecordId -> string)
    requires Distinct(names) && forall n | n in names :: n in ids && ids[n] in table && name(ids[n]) == n
    ensures Insertable(Resolved(names, ids), table)
  {
    ResolvedAll(names, ids);
  }

  lemma QueryPathIsSchemaPath(path: string)
    requires IsQueryPath(path)
    ensures SchemaPath(path)
  {
  }

  lemma HopsResolve(names: seq<string>, ids: map<string, RecordId>, table: set<RecordId>)
    requires forall n | n in names :: n in ids && ids[n] in table
    ensures |Resolved(names, ids)| == |names| && Elements(Resolved(names, ids)) <= table
  {
    ResolvedAll(names, ids);
  }

  /** Validation leaves one reason why a save on the same state can fail: the path is taken. */
  lemma ValidFits(w: World, db: Db, id: RecordId, queryPathId: string, body: Body, ctx: Context)
    requires Current(w, db, ctx) && ValidConfiguration(ConfigurationFor(queryPathId, body), ctx)
    ensures Fits(db, id, CommandFor(body, ctx)) <==>
            forall q | q in db.paths && q != id && db.paths[q].brain == ctx.source.id :: db.paths[q].path != body.path
  {
    var cfg, cmd := ConfigurationFor(queryPathId, body), CommandFor(body, ctx);
    QueryPathIsSchemaPath(body.path);
    hide IsQueryPath, SchemaPath;
    forall op | op in cmd.operations ensures !op.OtherOperation? {
      var k :| 0 <= k < |cfg.operations| && cfg.operations[k] == op;
    }
    RelationsOfValid(w, db, queryPathId, body, ctx);
    hide RelationsFit, ValidScope, ValidGrants, ValidRoute, RunnableAssets;
  }

  lemma RelationsOfValid(w: World, db: Db, queryPathId: string, body: Body, ctx: Context)
    requires Current(w, db, ctx) && ValidConfiguration(ConfigurationFor(queryPathId, body), ctx)
    ensures RelationsFit(db, CommandFor(body, ctx))
  {
    hide IsQueryPath;
    NamesResolveToRows(body.brainGrants, BrainIds(ctx), db.brains, w.brainName);
    NamesResolveToRows(body.serviceGrants, ctx.services, db.services, w.serviceName);
    if body.route.Some? {
      HopsResolve(body.route.value.hops, ctx.services, db.services);
    }
    hide Insertable, Resolved, HasPrefix;
    assert Insertable(body.assetIds, db.assets) by {
      AssetsAreRows(db, queryPathId, body, ctx);
    }
  }

  lemma AssetsAreRows(db: Db, queryPathId: string, body: Body, ctx: Context)
    requires ValidScope(ConfigurationFor(queryPathId, body), ctx) && forall a | a in ctx.assets :: a in db.assets
    ensures Insertable(body.assetIds, db.assets)
  {
  }

  function TableNames(ids: set<RecordId>, name: RecordId -> string): map<RecordId, string> {
    map id | id in ids :: name(id)
  }

  /** The body of a loaded path, with its grants listed in any order. */
  ghost predicate ReadBack(w: World, db: Db, row: PathRow, body: Body) {
    && body.path == row.path && body.assetIds == Present(row.scope) && body.operations == row.operations
    && body.visibility == row.visibility && body.state == row.state
    && Names(body.brainGrants, row.brainGrants, w.brainName)
    && Names(body.serviceGrants, row.serviceGrants, w.serviceName)
    && (body.route.None? <==> row.route.None?)
    && (row.route.Some? ==>
          && Known(row.route.value, TableNames(db.brains, w.brainName), TableNames(db.services, w.serviceName))
          && body.route.value == RouteNames(row.route.value, TableNames(db.brains, w.brainName),
                                            TableNames(db.services, w.serviceName)))
  }

  /** The body a patch starts from is such a description. */
  lemma LoadedBodyReadsBack(w: World, db: Db, id: RecordId, brainGrants: seq<string>, serviceGrants: seq<string>)
    requires id in db.paths && RowConsistent(db, db.paths[id])
    requires Names(brainGrants, db.paths[id].brainGrants, w.brainName)
    requires Names(serviceGrants, db.paths[id].serviceGrants, w.serviceName)
    ensures var row, brains, services :=
              db.paths[id], TableNames(db.brains, w.brainName), TableNames(db.services, w.serviceName);
            && (row.route.Some? ==> Known(row.route.value, brains, services))
            && ReadBack(w, db, row, BodyOf(ConfigOf(id, row), brainGrants, serviceGrants, brains, services))
  {
    hide Present, Names;
    if db.paths[id].route.Some? {
      HopsAreKnown(db, db.paths[id].route.value);
    }
  }

  lemma ListingResolves(names: seq<string>, ids: set<RecordId>, byName: map<string, RecordId>, table: set<RecordId>,
                        name: RecordId -> string)
    requires Names(names, ids, name) && ids <= table
    requires forall id | id in table :: name(id) in byName && byName[name(id)] == id
    ensures Elements(Resolved(names, byName)) == ids
  {
    forall x ensures x in Resolved(names, byName) <==> x in ids {
      ResolvedHas(names, byName, x);
    }
  }

  lemma HopsComeBack(hops: seq<RecordId>, names: map<RecordId, string>, byName: map<string, RecordId>)
    requires forall id | id in hops :: id in names && names[id] in byName && byName[names[id]] == id
    ensures Resolved(Looked(hops, names), byName) == hops
  {
    ResolvedAll(Looked(hops, names), byName);
  }

  lemma CanonicalNames(w: World, db: Db, ctx: Context)
    requires Current(w, db, ctx) && Complete(w, db, ctx) && NamesOk(w, db)
    ensures forall b | b in db.brains :: w.brainName(b) in ctx.brains && ctx.brains[w.brainName(b)].id == b
    ensures forall s | s in db.services :: w.serviceName(s) in ctx.services && ctx.services[w.serviceName(s)] == s
  {
  }

  lemma BrainIsNotCaller(name: string)
    requires IsBrainId(name)
    ensures name != "caller"
  {
    assert name[0] == "brain."[0];
  }

  lemma RouteComesBack(w: World, db: Db, ctx: Context, route: Route)
    requires Current(w, db, ctx) && Complete(w, db, ctx) && NamesOk(w, db) && RouteFits(db, route)
    requires forall b :: IsBrainId(w.brainName(b))
    ensures Known(route, TableNames(db.brains, w.brainName), TableNames(db.services, w.serviceName))
    ensures RouteFor(RouteNames(route, TableNames(db.brains, w.brainName), TableNames(db.services, w.serviceName)),
                     ctx) == route
  {
    CanonicalNames(w, db, ctx);
    HopsAreKnown(db, route);
    hide Current, Complete, NamesOk, IsBrainId;
    HopsComeBack(route.hops, TableNames(db.services, w.serviceName), ctx.services);
    if route.terminal.Fixed? {
      BrainIsNotCaller(w.brainName(route.terminal.brain));
    }
  }

  /** Read back, resolved and saved, a configuration keeps everything but its version. */
  lemma CommandOfDescription(w: World, db: Db, row: PathRow, body: Body, ctx: Context, id: RecordId, version: nat)
    requires Current(w, db, ctx) && Complete(w, db, ctx) && NamesOk(w, db) && RowConsistent(db, row)
    requires ReadBack(w, db, row, body) && ctx.source.id == row.brain && IsQueryPath(row.path)
    requires forall b :: IsBrainId(w.brainName(b))
    ensures ConfigOf(id, Saved(CommandFor(body, ctx), version)) == ConfigOf(id, row).(version := version)
  {
    hide IsQueryPath, IsSlug;
    var cmd := CommandFor(body, ctx);
    CanonicalNames(w, db, ctx);
    LoadAfterSave(id, cmd, version);
    ListingResolves(body.brainGrants, row.brainGrants, BrainIds(ctx), db.brains, w.brainName);
    ListingResolves(body.serviceGrants, row.serviceGrants, ctx.services, db.services, w.serviceName);
    if row.route.Some? {
      RouteComesBack(w, db, ctx, row.route.value);
    }
    hide Present, Names, Resolved, Current, Complete, NamesOk, RouteFor, RouteNames;
  }

  lemma HopsAreKnown(db: Db, route: Route)
    requires RouteFits(db, route)
    ensures forall s | s in route.hops :: s in db.services
  {
    forall s | s in route.hops ensures s in db.services {
      assert s in Elements(route.hops);
    }
  }

  /** An empty patch on the newest version of a path saves an equal configuration as the
      next version whenever what is stored is still valid. */
  lemma EmptyPatchSavesEqual(w: World, db: Db, id: RecordId, body: Body, ctx: Context)
    requires Inv(w, db) && id in db.paths && Current(w, db, ctx) && Complete(w, db, ctx)
    requires ReadBack(w, db, db.paths[id], body) && ctx.source.id == db.paths[id].brain
    requires forall b :: IsBrainId(w.brainName(b))
    requires ValidConfiguration(ConfigurationFor(id, body), ctx)
    ensures var version, cmd := db.paths[id].version, CommandFor(body, ctx);
            && CanReplace(db, id, version, cmd)
            && ConfigOf(id, Replaced(db, id, version, cmd).paths[id])
               == ConfigOf(id, db.paths[id]).(version := version + 1)
  {
    var row := db.paths[id];
    assert NamesOk(w, db) && RowConsistent(db, row) && PathsDiffer(db);
    assert IsQueryPath(row.path);
    CommandOfDescription(w, db, row, body, ctx, id, row.version + 1);
    ValidFits(w, db, id, id, body, ctx);
    hide Present, Inv, ValidConfiguration, Current, Complete, Fits, IsQueryPath, IsBrainId;
  }
}
