/** The handlers that save query paths: every write to the tables carries a command that
    validation has passed (internal/httpapi/handlers_query_paths.go). */
module ConfigHandlers {
  import opened Prelude
  import opened Domain
  import opened Validation
  import opened ConfigStore
  import opened ConfigRequests
  import opened ConfigRuns
  import ConfigRoundTrip

  /** An error code, a list of field errors, or a database error in its own words. */
  datatype Failure = Coded(code: Code) | Invalid(fields: seq<FieldError>) | Database

  /** What the statements of one request read before it writes. */
  datatype Reads = Reads(
    listings: Listings, brainGrants: seq<string>, serviceGrants: seq<string>,
    brains: map<RecordId, string>, services: map<RecordId, string>)

  /** Saves exactly a valid configuration whose rows the tables take. */
  method CreateQueryPath(ghost w: World, store: Store, actor: RecordId, brain: Brain, id: RecordId, body: Body,
                         l: Listings, maxHops: int)
    returns (r: Result<Config, Failure>, ghost ctx: Context)
    requires TruthfulListings(w, l, brain)
    modifies store
    ensures Describes(ctx, l, brain, body) && ctx.actor == actor && ctx.maxHops == maxHops
    ensures var valid := ValidConfiguration(ConfigurationFor("", body), ctx);
      && (r.Ok? <==> valid && CanCreate(old(store.View()), id, CommandFor(body, ctx)))
      && (r.Err? && r.error.Invalid? <==> !valid)
    ensures r.Ok? ==>
      var step := Create(id, CommandFor(body, ctx));
      && CanStep(w, old(store.View()), step) && store.View() == Apply(w, old(store.View()), step)
      && id in store.paths && r.value == ConfigOf(id, store.paths[id])
    ensures r.Err? ==> store.View() == old(store.View())
  {
    hide ValidConfiguration, Safe, CanCreate, Created, Describes, Truthful;
    var cmd, fields, read := PrepareQueryPath(actor, brain, "", body, l, maxHops);
    ctx := read;
    if fields != [] {
      return Err(Invalid(fields)), ctx;
    }
    ListingsAreTruthful(w, l, brain, body, ctx);
    ValidIsSafe(w, "", body, ctx);
    var saved := store.CreateQueryPath(id, cmd);
    if saved.None? {
      return Err(Database), ctx;
    }
    return Ok(saved.value), ctx;
  }

  /** The body a patch starts from can be read back. */
  predicate Readable(c: Config, seen: Reads) {
    c.route.Some? ==> Known(c.route.value, seen.brains, seen.services)
  }

  function PatchedBody(c: Config, seen: Reads, patch: Patch): Body
    requires Readable(c, seen)
  {
    Merged(BodyOf(c, seen.brainGrants, seen.serviceGrants, seen.brains, seen.services), patch)
  }

  /** With complete lookups an empty patch starts from, and ends in, the description of the stored row. */
  lemma EmptyPatchReadsBack(w: World, db: Db, id: RecordId, seen: Reads)
    requires id in db.paths && RowConsistent(db, db.paths[id])
    requires Names(seen.brainGrants, db.paths[id].brainGrants, w.brainName)
    requires Names(seen.serviceGrants, db.paths[id].serviceGrants, w.serviceName)
    requires seen.brains == ConfigRoundTrip.TableNames(db.brains, w.brainName)
    requires seen.services == ConfigRoundTrip.TableNames(db.services, w.serviceName)
    ensures Readable(ConfigOf(id, db.paths[id]), seen)
    ensures ConfigRoundTrip.ReadBack(w, db, db.paths[id], PatchedBody(ConfigOf(id, db.paths[id]), seen, EMPTY_PATCH))
  {
    hide Names, Present;
    ConfigRoundTrip.LoadedBodyReadsBack(w, db, id, seen.brainGrants, seen.serviceGrants);
  }

  /** Loads, merges the patch, validates the whole result and replaces the version the
      caller named; saves exactly a valid result whose rows the tables take. */
  method PatchQueryPath(ghost w: World, store: Store, actor: RecordId, brain: Brain, id: RecordId, version: nat,
                        patch: Patch, seen: Reads, maxHops: int)
    returns (r: Result<Config, Failure>, ghost ctx: Context)
    requires TruthfulListings(w, seen.listings, brain)
    modifies store
    ensures r == Err(Coded(PathNotFound)) <==> !(id in old(store.paths) && old(store.paths)[id].brain == brain.id)
    ensures id in old(store.paths) && old(store.paths)[id].brain == brain.id ==>
      var current := ConfigOf(id, old(store.paths)[id]);
      if !Readable(current, seen) then r == Err(Coded(NodeNotFound))
      else
        var body := PatchedBody(current, seen, patch);
        var valid, cmd := ValidConfiguration(ConfigurationFor(id, body), ctx), CommandFor(body, ctx);
        && Describes(ctx, seen.listings, brain, body) && ctx.actor == actor && ctx.maxHops == maxHops
        && (r.Err? && r.error.Invalid? <==> !valid)
        && (r == Err(Coded(ConfigVersionConflict)) <==> valid && !Matches(old(store.View()), id, brain.id, version))
        && (r.Ok? <==> valid && CanReplace(old(store.View()), id, version, cmd))
        && (r.Ok? ==>
              && CanStep(w, old(store.View()), Step.Replace(id, version, cmd))
              && store.View() == Apply(w, old(store.View()), Step.Replace(id, version, cmd))
              && id in store.paths && r.value == ConfigOf(id, store.paths[id]))
    ensures r == Err(Coded(NodeNotFound)) <==>
      && id in old(store.paths) && old(store.paths)[id].brain == brain.id && old(store.paths)[id].route.Some?
      && var route := old(store.paths)[id].route.value;
         || (route.terminal.Fixed? && route.terminal.brain !in seen.brains)
         || exists i | 0 <= i < |route.hops| :: route.hops[i] !in seen.services
    ensures r.Err? ==> store.View() == old(store.View())
  {
    hide ValidConfiguration, Safe, Fits, Replaced, Describes, Truthful, Present, ConfigurationFor, Merged, BodyOf;
    ctx := Context(actor, brain, map[], map[], map[], map[], maxHops);
    var current := store.LoadQueryPathConfig(id);
    if current.None? || current.value.brain != brain.id {
      return Err(Coded(PathNotFound)), ctx;
    }
    var base := RequestFromConfig(current.value, seen.brainGrants, seen.serviceGrants, seen.brains, seen.services);
    if base.Err? {
      return Err(Coded(base.error)), ctx;
    }
    var body := MergeQueryPathPatch(base.value, patch);
    var cmd, fields, read := PrepareQueryPath(actor, brain, id, body, seen.listings, maxHops);
    ctx := read;
    if fields != [] {
      return Err(Invalid(fields)), ctx;
    }
    ListingsAreTruthful(w, seen.listings, brain, body, ctx);
    ValidIsSafe(w, id, body, ctx);
    SourceIsBrain(ctx, seen.listings, brain, body);
    var saved := store.ReplaceQueryPath(id, version, cmd);
    if saved.Err? {
      return Err(if saved.error == VersionConflict then Coded(ConfigVersionConflict) else Database), ctx;
    }
    return Ok(saved.value), ctx;
  }
}
