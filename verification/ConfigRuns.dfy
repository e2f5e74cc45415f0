/** Every run of saves, edits and deletes over the configuration tables: what save-time
    validation and the delete guards keep true together. */
module ConfigRuns {
  import opened Prelude
  import opened Domain
  import opened Validation
  import opened ConfigStore
  import opened ConfigRequests

  /** What never changes about a record: its canonical ID, and the Brain of an asset. */
  datatype World = World(brainName: RecordId -> string, serviceName: RecordId -> string,
                         assetBrain: RecordId -> RecordId)

  /** A context whose every record was read at some time, not all at the same time. */
  ghost predicate Truthful(w: World, ctx: Context) {
    && ctx.source.canonical == w.brainName(ctx.source.id)
    && (forall n | n in ctx.brains :: w.brainName(ctx.brains[n].id) == n)
    && (forall n | n in ctx.services :: w.serviceName(ctx.services[n]) == n)
    && (forall a | a in ctx.assets :: w.assetBrain(a) == ctx.assets[a].brain)
  }

  /** What a validated command guarantees whenever it is saved. */
  predicate Safe(w: World, cmd: Command) {
    && cmd.assets != [] && (forall a | a in cmd.assets :: w.assetBrain(a) == cmd.brain)
    && (cmd.state == Enabled ==> cmd.route.Some?)
    && (cmd.state == Enabled && cmd.visibility == Private ==>
          && Elements(cmd.route.value.hops) <= Elements(cmd.serviceGrants)
          && (cmd.route.value.terminal.Fixed? ==>
                || w.brainName(cmd.route.value.terminal.brain) == w.brainName(cmd.brain)
                || cmd.route.value.terminal.brain in cmd.brainGrants))
  }

  /** The canonical IDs of the records, in whatever order they are listed. */
  ghost predicate Names(names: seq<string>, ids: set<RecordId>, name: RecordId -> string) {
    && (forall n | n in names :: exists id | id in ids :: name(id) == n)
    && (forall id | id in ids :: name(id) in names)
  }

  // ------------------------------------------------------------ validated commands are safe

  lemma {:induction false} ResolvedHas(names: seq<string>, ids: map<string, RecordId>, x: RecordId)
    ensures x in Resolved(names, ids) <==> exists n :: n in names && n in ids && ids[n] == x
  {
    if names != [] {
      var last := |names| - 1;
      ResolvedHas(names[..last], ids, x);
      assert forall n :: n in names <==> n in names[..last] || n == names[last];
    }
  }

  lemma {:induction false} ResolvedAll(names: seq<string>, ids: map<string, RecordId>)
    requires forall n | n in names :: n in ids
    ensures |Resolved(names, ids)| == |names| && forall i | 0 <= i < |names| :: Resolved(names, ids)[i] == ids[names[i]]
  {
    if names != [] {
      var last := |names| - 1;
      ResolvedAll(names[..last], ids);
    }
  }

  lemma ValidIsSafe(w: World, queryPathId: string, body: Body, ctx: Context)
    requires ValidConfiguration(ConfigurationFor(queryPathId, body), ctx) && Truthful(w, ctx)
    ensures Safe(w, CommandFor(body, ctx))
  {
    hide IsQueryPath, Distinct, IsSlug;
    var cmd := CommandFor(body, ctx);
    if cmd.state == Enabled && cmd.visibility == Private {
      var route := body.route.value;
      forall s | s in cmd.route.value.hops ensures s in cmd.serviceGrants {
        ResolvedHas(route.hops, ctx.services, s);
        ResolvedHas(body.serviceGrants, ctx.services, s);
      }
      if cmd.route.value.terminal.Fixed? && route.terminal != ctx.source.canonical {
        ResolvedHas(body.brainGrants, BrainIds(ctx), ctx.brains[route.terminal].id);
      }
    }
  }

  /** Listings of records under their own canonical IDs. */
  ghost predicate TruthfulListings(w: World, l: Listings, brain: Brain) {
    && brain.canonical == w.brainName(brain.id)
    && (forall b | b in l.brains :: b.canonical == w.brainName(b.id))
    && (forall s | s in l.services :: s.canonical == w.serviceName(s.id))
    && (forall a | a in l.assets :: l.assets[a].brain == w.assetBrain(a))
  }

  lemma ListingsAreTruthful(w: World, l: Listings, brain: Brain, body: Body, ctx: Context)
    requires TruthfulListings(w, l, brain) && Describes(ctx, l, brain, body)
    ensures Truthful(w, ctx)
  {
    forall n | n in ctx.brains ensures w.brainName(ctx.brains[n].id) == n {
      assert LastNamed(l.brains, BrainName, n) == Some(ctx.brains[n]);
    }
    forall n | n in ctx.services ensures w.serviceName(ctx.services[n]) == n {
      assert LastNamed(l.services, ServiceName, n) == Some(Service(ctx.services[n], n));
    }
  }

  // ------------------------------------------------------------ steps

  datatype Step =
    | AddBrain(brain: RecordId)
    | AddService(service: RecordId)
    | AddAsset(asset: RecordId)
    | AcceptAsset(asset: RecordId)
    | Create(id: RecordId, cmd: Command)
    | Replace(id: RecordId, version: nat, cmd: Command)
    | Delete(id: RecordId, brain: RecordId, version: nat)
    | DropAsset(asset: RecordId)
    | DropService(service: RecordId)
    | DropBrain(brain: RecordId)

  predicate CanStep(w: World, db: Db, step: Step) {
    match step
    case AddBrain(b) => b !in db.brains && forall other | other in db.brains :: w.brainName(other) != w.brainName(b)
    case AddService(s) =>
      s !in db.services && forall other | other in db.services :: w.serviceName(other) != w.serviceName(s)
    case AddAsset(a) => a !in db.assets && w.assetBrain(a) in db.brains
    case AcceptAsset(a) => a !in db.assets && w.assetBrain(a) in db.brains
    case Create(id, cmd) => Safe(w, cmd) && CanCreate(db, id, cmd)
    case Replace(id, version, cmd) => Safe(w, cmd) && CanReplace(db, id, version, cmd)
    case Delete(id, brain, version) => Matches(db, id, brain, version)
    case DropAsset(a) => !AssetHeld(db, a)
    case DropService(s) => !ServiceInUse(db, s)
    case DropBrain(b) => !BrainInUse(db, b, Owned(db.assets, w.assetBrain, b))
  }

  function Apply(w: World, db: Db, step: Step): Db {
    match step
    case AddBrain(b) => db.(brains := db.brains + {b})
    case AddService(s) => db.(services := db.services + {s})
    case AddAsset(a) => db.(assets := db.assets + {a})
    case AcceptAsset(a) => db.(assets := db.assets + {a}, accepted := db.accepted + {a})
    case Create(id, cmd) => Created(db, id, cmd)
    case Replace(id, version, cmd) => Replaced(db, id, version, cmd)
    case Delete(id, brain, version) => db.(paths := db.paths - {id})
    case DropAsset(a) => WithoutAssets(db, {a})
    case DropService(s) => WithoutService(db, s)
    case DropBrain(b) => WithoutBrain(db, b, Owned(db.assets, w.assetBrain, b))
  }

  // ------------------------------------------------------------ the invariant

  /** References point at existing rows. */
  ghost predicate RowConsistent(db: Db, row: PathRow) {
    && row.brain in db.brains && row.brainGrants <= db.brains && row.serviceGrants <= db.services
    && (forall a | Some(a) in row.scope :: a in db.assets)
    && (row.route.Some? ==> RouteFits(db, row.route.value))
  }

  predicate ScopeOwned(w: World, row: PathRow) {
    forall i | 0 <= i < |row.scope| && row.scope[i].Some? :: w.assetBrain(row.scope[i].value) == row.brain
  }

  /** What an enabled path guarantees. */
  predicate Runnable(row: PathRow) {
    row.state == Enabled ==>
      && row.route.Some? && row.scope != [] && None !in row.scope
      && (row.visibility == Private ==>
            && Elements(row.route.value.hops) <= row.serviceGrants
            && (row.route.value.terminal.Fixed? ==>
                  row.route.value.terminal.brain == row.brain || row.route.value.terminal.brain in row.brainGrants))
  }

  predicate HeaderOk(row: PathRow) {
    SchemaPath(row.path) && !row.visibility.OtherVisibility? && !row.state.OtherState? && row.version > 0
  }

  ghost predicate RowsOk(w: World, db: Db) {
    forall p | p in db.paths ::
      && p in db.issued && RowConsistent(db, db.paths[p]) && ScopeOwned(w, db.paths[p])
      && Runnable(db.paths[p]) && HeaderOk(db.paths[p])
  }

  predicate NamesOk(w: World, db: Db) {
    && (forall a, b | a in db.brains && b in db.brains && w.brainName(a) == w.brainName(b) :: a == b)
    && (forall a, b | a in db.services && b in db.services && w.serviceName(a) == w.serviceName(b) :: a == b)
    && (forall a | a in db.assets :: w.assetBrain(a) in db.brains)
  }

  predicate PathsDiffer(db: Db) {
    forall p, q | p in db.paths && q in db.paths && p != q && db.paths[p].brain == db.paths[q].brain ::
      db.paths[p].path != db.paths[q].path
  }

  ghost predicate Inv(w: World, db: Db) {
    RowsOk(w, db) && NamesOk(w, db) && PathsDiffer(db)
  }

  lemma NamesKept(w: World, db: Db, step: Step)
    requires CanStep(w, db, step) && NamesOk(w, db)
    ensures NamesOk(w, Apply(w, db, step))
  {
    hide Safe, Fits, AssetInUse, ServiceInUse, BrainInUse;
  }

  lemma PathsKept(w: World, db: Db, step: Step)
    requires CanStep(w, db, step) && PathsDiffer(db)
    ensures PathsDiffer(Apply(w, db, step))
  {
    hide Safe, RelationsFit, AssetInUse, ServiceInUse, BrainInUse, SchemaPath;
  }

  lemma SavedRowOk(w: World, db: Db, id: RecordId, cmd: Command, version: nat)
    requires Safe(w, cmd) && Fits(db, id, cmd) && NamesOk(w, db) && version > 0
    ensures var row := Saved(cmd, version);
            RowConsistent(db, row) && ScopeOwned(w, row) && Runnable(row) && HeaderOk(row)
  {
    hide SchemaPath;
    var row := Saved(cmd, version);
    forall a | Some(a) in row.scope ensures a in db.assets {
      var i :| 0 <= i < |row.scope| && row.scope[i] == Some(a);
      assert cmd.assets[i] in Elements(cmd.assets);
    }
  }

  lemma AddsKeepRows(w: World, db: Db, step: Step)
    requires CanStep(w, db, step) && RowsOk(w, db)
             && (step.AddBrain? || step.AddService? || step.AddAsset? || step.AcceptAsset?)
    ensures RowsOk(w, Apply(w, db, step))
  {
    hide ScopeOwned, Runnable, HeaderOk, Safe;
  }

  /** Saving one good row leaves the others as they were. */
  lemma SavedRowsOk(w: World, db: Db, id: RecordId, row: PathRow)
    requires RowsOk(w, db) && RowConsistent(db, row) && ScopeOwned(w, row) && Runnable(row) && HeaderOk(row)
    ensures RowsOk(w, db.(paths := db.paths[id := row], issued := db.issued + {id}))
  {
    hide ScopeOwned, Runnable, HeaderOk;
    var after := db.(paths := db.paths[id := row], issued := db.issued + {id});
    forall p | p in after.paths ensures RowConsistent(after, after.paths[p]) {
      assert RowConsistent(db, after.paths[p]);
    }
  }

  lemma CreateKeepsRows(w: World, db: Db, id: RecordId, cmd: Command)
    requires Safe(w, cmd) && Fits(db, id, cmd) && RowsOk(w, db) && NamesOk(w, db)
    ensures RowsOk(w, Created(db, id, cmd))
  {
    SavedRowOk(w, db, id, cmd, 1);
    hide Fits, Safe, NamesOk, RowsOk, RowConsistent, ScopeOwned, Runnable, HeaderOk, Saved;
    SavedRowsOk(w, db, id, Saved(cmd, 1));
  }

  lemma ReplaceKeepsRows(w: World, db: Db, id: RecordId, version: nat, cmd: Command)
    requires id in db.paths && Safe(w, cmd) && Fits(db, id, cmd) && RowsOk(w, db) && NamesOk(w, db)
    ensures RowsOk(w, Replaced(db, id, version, cmd))
  {
    SavedRowOk(w, db, id, cmd, version + 1);
    assert id in db.issued && db.issued + {id} == db.issued;
    hide Fits, Safe, NamesOk, RowsOk, RowConsistent, ScopeOwned, Runnable, HeaderOk, Saved;
    SavedRowsOk(w, db, id, Saved(cmd, version + 1));
  }

  lemma DeleteKeepsRows(w: World, db: Db, id: RecordId)
    requires RowsOk(w, db)
    ensures RowsOk(w, db.(paths := db.paths - {id}))
  {
    hide ScopeOwned, Runnable, HeaderOk;
  }

  lemma ClearedRowOk(w: World, db: Db, row: PathRow, gone: set<RecordId>)
    requires RowConsistent(db, row) && ScopeOwned(w, row) && Runnable(row) && HeaderOk(row)
    requires row.state == Enabled ==> forall a | a in gone :: !InScope(row, a)
    ensures var after := row.(scope := Cleared(row.scope, gone));
            && RowConsistent(db.(assets := db.assets - gone), after) && ScopeOwned(w, after) && Runnable(after)
            && HeaderOk(after)
  {
    hide SchemaPath, RouteFits;
    var after := Cleared(row.scope, gone);
    forall a | Some(a) in after ensures a in db.assets - gone {
      var i :| 0 <= i < |after| && after[i] == Some(a);
      assert row.scope[i] == Some(a);
    }
    if row.state == Enabled {
      forall i | 0 <= i < |after| ensures after[i] == row.scope[i] {
        if row.scope[i].Some? {
          assert InScope(row, row.scope[i].value);
        }
      }
    }
    RouteFitsWithout(db, row, gone);
  }

  lemma RouteFitsWithout(db: Db, row: PathRow, gone: set<RecordId>)
    requires row.route.Some? ==> RouteFits(db, row.route.value)
    ensures row.route.Some? ==> RouteFits(db.(assets := db.assets - gone), row.route.value)
  {
  }

  lemma AssetDropKeepsRows(w: World, db: Db, asset: RecordId)
    requires !AssetHeld(db, asset) && RowsOk(w, db)
    ensures RowsOk(w, WithoutAssets(db, {asset}))
  {
    var after := WithoutAssets(db, {asset});
    forall p | p in after.paths
      ensures p in after.issued && RowConsistent(after, after.paths[p]) && ScopeOwned(w, after.paths[p])
              && Runnable(after.paths[p]) && HeaderOk(after.paths[p])
    {
      ClearedRowOk(w, db, db.paths[p], {asset});
      ConsistentAnyPaths(db.(assets := db.assets - {asset}), after.paths, after.paths[p]);
      hide ScopeOwned, Runnable, HeaderOk, RowConsistent;
    }
  }

  lemma ConsistentAnyPaths(db: Db, paths: Paths, row: PathRow)
    ensures RowConsistent(db, row) == RowConsistent(db.(paths := paths), row)
  {
  }

  lemma ServiceDropKeepsRows(w: World, db: Db, service: RecordId)
    requires !ServiceInUse(db, service) && RowsOk(w, db)
    ensures RowsOk(w, WithoutService(db, service))
  {
    hide SchemaPath;
    var after := WithoutService(db, service);
    forall p | p in after.paths
      ensures p in after.issued && RowConsistent(after, after.paths[p]) && ScopeOwned(w, after.paths[p])
              && Runnable(after.paths[p]) && HeaderOk(after.paths[p])
    {
      assert !Hops(db.paths[p], service);
    }
  }

  lemma BrainDropKeepsRows(w: World, db: Db, brain: RecordId)
    requires !BrainInUse(db, brain, Owned(db.assets, w.assetBrain, brain)) && RowsOk(w, db)
    ensures RowsOk(w, WithoutBrain(db, brain, Owned(db.assets, w.assetBrain, brain)))
  {
    hide SchemaPath;
    var owned := Owned(db.assets, w.assetBrain, brain);
    var after := WithoutBrain(db, brain, owned);
    forall p | p in after.paths
      ensures p in after.issued && RowConsistent(after, after.paths[p]) && ScopeOwned(w, after.paths[p])
              && Runnable(after.paths[p]) && HeaderOk(after.paths[p])
    {
      var row := db.paths[p];
      assert !Targets(row, brain);
      if row.state == Enabled {
        forall a | a in owned ensures !InScope(row, a) {
          assert !AssetHeld(db, a);
        }
      }
      ClearedRowOk(w, db, row, owned);
      BrainlessRowOk(db.(assets := db.assets - owned), row.(scope := Cleared(row.scope, owned)), brain, after);
    }
  }

  /** Revoking the grant of a Brain that no route targets leaves a row as it should be. */
  lemma BrainlessRowOk(db: Db, row: PathRow, brain: RecordId, after: Db)
    requires RowConsistent(db, row) && Runnable(row) && row.brain != brain && !Targets(row, brain)
    requires after.brains == db.brains - {brain} && after.services == db.services && after.assets == db.assets
    ensures var left := row.(brainGrants := row.brainGrants - {brain});
            RowConsistent(after, left) && Runnable(left)
  {
  }

  lemma StepKeeps(w: World, db: Db, step: Step)
    requires CanStep(w, db, step) && Inv(w, db)
    ensures Inv(w, Apply(w, db, step))
  {
    NamesKept(w, db, step);
    PathsKept(w, db, step);
    match step {
      case DropAsset(a) => AssetDropKeepsRows(w, db, a);
      case DropService(s) => ServiceDropKeepsRows(w, db, s);
      case DropBrain(b) => BrainDropKeepsRows(w, db, b);
      case AddBrain(_) => AddsKeepRows(w, db, step);
      case AddService(_) => AddsKeepRows(w, db, step);
      case AddAsset(_) => AddsKeepRows(w, db, step);
      case AcceptAsset(_) => AddsKeepRows(w, db, step);
      case Create(id, cmd) => CreateKeepsRows(w, db, id, cmd);
      case Replace(id, version, cmd) => ReplaceKeepsRows(w, db, id, version, cmd);
      case Delete(id, _, _) => DeleteKeepsRows(w, db, id);
    }
    hide RowsOk, NamesOk, PathsDiffer;
  }
}
