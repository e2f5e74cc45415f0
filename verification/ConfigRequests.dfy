/** From a request body to a save command and back
    (internal/httpapi/handlers_query_paths.go). */
module ConfigRequests {
  import opened Prelude
  import opened Domain
  import opened Validation
  import opened ConfigStore

  datatype Body = Body(
    path: string, assetIds: seq<string>, operations: seq<Operation>, visibility: Visibility,
    brainGrants: seq<string>, serviceGrants: seq<string>, route: Option<RouteConfig>, state: PathState)

  datatype Patch = Patch(
    path: Option<string>, assetIds: Option<seq<string>>, operations: Option<seq<Operation>>,
    visibility: Option<Visibility>, brainGrants: Option<seq<string>>, serviceGrants: Option<seq<string>>,
    route: Option<RouteConfig>, state: Option<PathState>)

  const EMPTY_PATCH := Patch(None, None, None, None, None, None, None, None)

  function Or<T>(given: Option<T>, current: T): T {
    if given.Some? then given.value else current
  }

  function Merged(base: Body, patch: Patch): Body {
    Body(Or(patch.path, base.path), Or(patch.assetIds, base.assetIds), Or(patch.operations, base.operations),
         Or(patch.visibility, base.visibility), Or(patch.brainGrants, base.brainGrants),
         Or(patch.serviceGrants, base.serviceGrants), if patch.route.Some? then patch.route else base.route,
         Or(patch.state, base.state))
  }

  /** Field by field, what is given overwrites and what is missing stays. */
  lemma MergedFieldByField(base: Body, patch: Patch)
    ensures var merged := Merged(base, patch);
      && (patch.path.Some? ==> merged.path == patch.path.value)
      && (patch.path.None? ==> merged.path == base.path)
      && (patch.assetIds.Some? ==> merged.assetIds == patch.assetIds.value)
      && (patch.assetIds.None? ==> merged.assetIds == base.assetIds)
      && (patch.operations.Some? ==> merged.operations == patch.operations.value)
      && (patch.operations.None? ==> merged.operations == base.operations)
      && (patch.visibility.Some? ==> merged.visibility == patch.visibility.value)
      && (patch.visibility.None? ==> merged.visibility == base.visibility)
      && (patch.brainGrants.Some? ==> merged.brainGrants == patch.brainGrants.value)
      && (patch.brainGrants.None? ==> merged.brainGrants == base.brainGrants)
      && (patch.serviceGrants.Some? ==> merged.serviceGrants == patch.serviceGrants.value)
      && (patch.serviceGrants.None? ==> merged.serviceGrants == base.serviceGrants)
      && (patch.route.Some? ==> merged.route == patch.route)
      && (patch.route.None? ==> merged.route == base.route)
      && (patch.state.Some? ==> merged.state == patch.state.value)
      && (patch.state.None? ==> merged.state == base.state)
  {
  }

  method MergeQueryPathPatch(base: Body, patch: Patch) returns (dst: Body)
    ensures dst == Merged(base, patch)
    ensures patch == EMPTY_PATCH ==> dst == base
  {
    dst := base;
    if patch.path.Some? { dst := dst.(path := patch.path.value); }
    if patch.assetIds.Some? { dst := dst.(assetIds := patch.assetIds.value); }
    if patch.operations.Some? { dst := dst.(operations := patch.operations.value); }
    if patch.visibility.Some? { dst := dst.(visibility := patch.visibility.value); }
    if patch.brainGrants.Some? { dst := dst.(brainGrants := patch.brainGrants.value); }
    if patch.serviceGrants.Some? { dst := dst.(serviceGrants := patch.serviceGrants.value); }
    if patch.route.Some? { dst := dst.(route := patch.route); }
    if patch.state.Some? { dst := dst.(state := patch.state.value); }
  }

  // ------------------------------------------------------------ from names to records

  function ConfigurationFor(queryPathId: string, body: Body): Configuration {
    Configuration(queryPathId, body.path, body.assetIds, body.operations, body.visibility,
                  body.brainGrants, body.serviceGrants, body.route, body.state)
  }

  /** The ids of the names that resolve, in order; the others are dropped. */
  function Resolved(names: seq<string>, ids: map<string, RecordId>): seq<RecordId> {
    if names == [] then []
    else
      var n := |names| - 1;
      if names[n] in ids then Resolved(names[..n], ids) + [ids[names[n]]] else Resolved(names[..n], ids)
  }

  function BrainIds(ctx: Context): map<string, RecordId> {
    map name | name in ctx.brains :: ctx.brains[name].id
  }

  function TerminalFor(terminal: string, ctx: Context): Terminal {
    if terminal == "caller" then Caller
    else if terminal in ctx.brains then Fixed(ctx.brains[terminal].id)
    else Unset
  }

  function RouteFor(route: RouteConfig, ctx: Context): Route {
    Route(TerminalFor(route.terminal, ctx), Resolved(route.hops, ctx.services))
  }

  function CommandFor(body: Body, ctx: Context): Command {
    Command(ctx.source.id, if IsQueryPath(body.path) then body.path else "",
            body.visibility, body.state, body.operations,
            body.assetIds, Resolved(body.brainGrants, BrainIds(ctx)), Resolved(body.serviceGrants, ctx.services),
            if body.route.Some? then Some(RouteFor(body.route.value, ctx)) else None)
  }

  datatype Service = Service(id: RecordId, canonical: string)

  /** The state read for one preparation, statement by statement. */
  datatype Listings = Listings(
    brains: seq<Brain>, services: seq<Service>, paths: seq<(string, string)>, assets: map<string, Asset>)

  function BrainName(b: Brain): string {
    b.canonical
  }

  function ServiceName(s: Service): string {
    s.canonical
  }

  function PathName(p: (string, string)): string {
    p.0
  }

  /** The last record of a listing that has the name. */
  function LastNamed<T>(listing: seq<T>, name: T -> string, n: string): (r: Option<T>)
    ensures r.Some? ==> r.value in listing && name(r.value) == n
    ensures r.None? ==> forall v | v in listing :: name(v) != n
  {
    if listing == [] then None
    else if name(listing[|listing| - 1]) == n then Some(listing[|listing| - 1])
    else LastNamed(listing[..|listing| - 1], name, n)
  }

  lemma {:induction false} NextNamed<T>(listing: seq<T>, name: T -> string, i: nat, n: string)
    requires i < |listing|
    ensures LastNamed(listing[..i + 1], name, n) ==
            if name(listing[i]) == n then Some(listing[i]) else LastNamed(listing[..i], name, n)
  {
    assert listing[..i + 1][..i] == listing[..i];
  }

  /** What the validator is given: the last listed record of each name, and those of
      the requested assets that the Brain owns. */
  ghost predicate Describes(ctx: Context, l: Listings, brain: Brain, body: Body) {
    && ctx.source == brain
    && (forall n :: (if n in ctx.brains then Some(ctx.brains[n]) else None) == LastNamed(l.brains, BrainName, n))
    && (forall n ::
          (if n in ctx.services then Some(Service(ctx.services[n], n)) else None)
          == LastNamed(l.services, ServiceName, n))
    && (forall n ::
          (if n in ctx.existingPaths then Some((n, ctx.existingPaths[n])) else None) == LastNamed(l.paths, PathName, n))
    && (forall id :: id in ctx.assets <==> id in body.assetIds && id in l.assets && l.assets[id].brain == brain.id)
    && (forall id | id in ctx.assets :: ctx.assets[id] == l.assets[id])
  }

  /** A requested asset is reported as missing exactly when it is not listed or belongs to
      another Brain, and never as one of the wrong Brain. */
  lemma RequestedAssetsAreSeen(ctx: Context, l: Listings, brain: Brain, body: Body, id: string, i: nat)
    requires Describes(ctx, l, brain, body) && i < |body.assetIds| && body.assetIds[i] !in body.assetIds[..i]
    ensures var asset := body.assetIds[i];
      Reported(ConfigurationFor(id, body), ctx, AssetNotFound(i))
      <==> asset !in l.assets || l.assets[asset].brain != brain.id
    ensures !Reported(ConfigurationFor(id, body), ctx, AssetWrongBrain(i))
  {
    hide IsQueryPath, LastNamed;
  }

  method IndexBrains(brains: seq<Brain>) returns (r: map<string, Brain>)
    ensures forall n :: (if n in r then Some(r[n]) else None) == LastNamed(brains, BrainName, n)
  {
    r := map[];
    for i := 0 to |brains|
      invariant forall n :: (if n in r then Some(r[n]) else None) == LastNamed(brains[..i], BrainName, n)
    {
      forall n { NextNamed(brains, BrainName, i, n); }
      hide LastNamed;
      r := r[BrainName(brains[i]) := brains[i]];
    }
    assert brains[..|brains|] == brains;
  }

  method IndexServices(services: seq<Service>) returns (r: map<string, RecordId>)
    ensures forall n :: (if n in r then Some(Service(r[n], n)) else None) == LastNamed(services, ServiceName, n)
  {
    r := map[];
    for i := 0 to |services|
      invariant forall n ::
                  (if n in r then Some(Service(r[n], n)) else None) == LastNamed(services[..i], ServiceName, n)
    {
      forall n { NextNamed(services, ServiceName, i, n); }
      hide LastNamed;
      r := r[ServiceName(services[i]) := services[i].id];
    }
    assert services[..|services|] == services;
  }

  method IndexPaths(paths: seq<(string, string)>) returns (r: map<string, string>)
    ensures forall n :: (if n in r then Some((n, r[n])) else None) == LastNamed(paths, PathName, n)
  {
    r := map[];
    for i := 0 to |paths|
      invariant forall n :: (if n in r then Some((n, r[n])) else None) == LastNamed(paths[..i], PathName, n)
    {
      forall n { NextNamed(paths, PathName, i, n); }
      hide LastNamed;
      r := r[PathName(paths[i]) := paths[i].1];
    }
    assert paths[..|paths|] == paths;
  }

  method OwnedAssets(ids: seq<string>, table: map<string, Asset>, brain: RecordId) returns (r: map<string, Asset>)
    ensures forall id :: id in r <==> id in ids && id in table && table[id].brain == brain
    ensures forall id | id in r :: r[id] == table[id]
  {
    r := map[];
    for i := 0 to |ids|
      invariant forall id :: id in r <==> id in ids[..i] && id in table && table[id].brain == brain
      invariant forall id | id in r :: r[id] == table[id]
    {
      assert ids[..i + 1] == ids[..i] + [ids[i]];
      if ids[i] in table && table[ids[i]].brain == brain {
        r := r[ids[i] := table[ids[i]]];
      }
    }
    assert ids[..|ids|] == ids;
  }

  method BuildContext(actor: RecordId, brain: Brain, body: Body, l: Listings, maxHops: int) returns (ctx: Context)
    ensures Describes(ctx, l, brain, body) && ctx.actor == actor && ctx.maxHops == maxHops
  {
    hide LastNamed;
    var brains := IndexBrains(l.brains);
    var services := IndexServices(l.services);
    var existing := IndexPaths(l.paths);
    var assets := OwnedAssets(body.assetIds, l.assets, brain.id);
    ctx := Context(actor, brain, assets, brains, services, existing, maxHops);
  }

  method ResolveNames(names: seq<string>, ids: map<string, RecordId>) returns (r: seq<RecordId>)
    ensures r == Resolved(names, ids)
  {
    r := [];
    for i := 0 to |names|
      invariant r == Resolved(names[..i], ids)
    {
      assert names[..i + 1][..i] == names[..i];
      if names[i] in ids {
        r := r + [ids[names[i]]];
      }
    }
    assert names[..|names|] == names;
  }

  /** Reads the state, validates the body against it and turns names into records. */
  method PrepareQueryPath(actor: RecordId, brain: Brain, queryPathId: string, body: Body, l: Listings, maxHops: int)
    returns (cmd: Command, fields: seq<FieldError>, ctx: Context)
    ensures Describes(ctx, l, brain, body) && ctx.actor == actor && ctx.maxHops == maxHops
    ensures cmd == CommandFor(body, ctx)
    ensures fields == [] <==> ValidConfiguration(ConfigurationFor(queryPathId, body), ctx)
  {
    hide ValidConfiguration, Describes, IsQueryPath;
    ctx := BuildContext(actor, brain, body, l, maxHops);
    fields := ValidateConfiguration(ConfigurationFor(queryPathId, body), ctx);
    var path := if IsQueryPath(body.path) then body.path else "";
    var brainGrants := ResolveNames(body.brainGrants, BrainIds(ctx));
    var serviceGrants := ResolveNames(body.serviceGrants, ctx.services);
    cmd := Command(brain.id, path, body.visibility, body.state, body.operations, body.assetIds, brainGrants,
                   serviceGrants, None);
    assert ctx.source == brain by {
      SourceIsBrain(ctx, l, brain, body);
    }
    if body.route.Some? {
      var hops := ResolveNames(body.route.value.hops, ctx.services);
      var terminal := Unset;
      if body.route.value.terminal == "caller" {
        terminal := Caller;
      } else if body.route.value.terminal in ctx.brains {
        terminal := Fixed(ctx.brains[body.route.value.terminal].id);
      }
      cmd := cmd.(route := Some(Route(terminal, hops)));
    }
  }

  lemma SourceIsBrain(ctx: Context, l: Listings, brain: Brain, body: Body)
    requires Describes(ctx, l, brain, body)
    ensures ctx.source == brain
  {
  }

  // ------------------------------------------------------------ from records to names

  function Looked(ids: seq<RecordId>, names: map<RecordId, string>): (r: seq<string>)
    requires forall id | id in ids :: id in names
    ensures |r| == |ids| && forall i | 0 <= i < |r| :: r[i] == names[ids[i]]
  {
    seq(|ids|, i requires 0 <= i < |ids| => names[ids[i]])
  }

  /** The terminal and the hops can still be looked up. */
  predicate Known(route: Route, brains: map<RecordId, string>, services: map<RecordId, string>) {
    && (route.terminal.Fixed? ==> route.terminal.brain in brains)
    && (forall s | s in route.hops :: s in services)
  }

  function RouteNames(route: Route, brains: map<RecordId, string>, services: map<RecordId, string>): RouteConfig
    requires Known(route, brains, services)
  {
    RouteConfig(Looked(route.hops, services), if route.terminal.Fixed? then brains[route.terminal.brain] else "caller")
  }

  function BodyOf(c: Config, brainGrants: seq<string>, serviceGrants: seq<string>,
                  brains: map<RecordId, string>, services: map<RecordId, string>): Body
    requires c.route.Some? ==> Known(c.route.value, brains, services)
  {
    Body(c.path, c.assets, c.operations, c.visibility, brainGrants, serviceGrants,
         if c.route.None? then None else Some(RouteNames(c.route.value, brains, services)), c.state)
  }

  /** The body that describes a loaded configuration; the grants come listed by the database. */
  method RequestFromConfig(c: Config, brainGrants: seq<string>, serviceGrants: seq<string>,
                           brains: map<RecordId, string>, services: map<RecordId, string>)
    returns (r: Result<Body, Code>)
    ensures r.Ok? <==> c.route.None? || Known(c.route.value, brains, services)
    ensures r.Err? ==> r.error == NodeNotFound
    ensures r.Ok? ==> r.value == BodyOf(c, brainGrants, serviceGrants, brains, services)
  {
    var body := Body(c.path, c.assets, c.operations, c.visibility, brainGrants, serviceGrants, None, c.state);
    if c.route.None? {
      return Ok(body);
    }
    var route := c.route.value;
    var terminal := "caller";
    if route.terminal.Fixed? {
      if route.terminal.brain !in brains {
        return Err(NodeNotFound);
      }
      terminal := brains[route.terminal.brain];
    }
    var hops: seq<string> := [];
    for i := 0 to |route.hops|
      invariant |hops| == i && forall k | 0 <= k < i :: route.hops[k] in services && hops[k] == services[route.hops[k]]
    {
      if route.hops[i] !in services {
        return Err(NodeNotFound);
      }
      hops := hops + [services[route.hops[i]]];
    }
    assert hops == Looked(route.hops, services);
    return Ok(body.(route := Some(RouteConfig(hops, terminal))));
  }
}
