/** What follows from the invariant of the configuration tables: run-time authorization
    agrees with save-time validation, replaces are exclusive, loads made of several
    statements are safe when the version has not moved, and empty patches change nothing. */
module ConfigLaws {
  import opened Prelude
  import opened Domain
  import opened Validation
  import opened Authorization
  import opened ConfigStore
  import opened ConfigRequests
  import opened ConfigRuns

  ghost predicate Run(w: World, states: seq<Db>, steps: seq<Step>) {
    && |states| == |steps| + 1 && states[0] == Db({}, {}, {}, map[], {}, {})
    && forall i | 0 <= i < |steps| :: CanStep(w, states[i], steps[i]) && states[i + 1] == Apply(w, states[i], steps[i])
  }

  lemma {:induction false} InvAt(w: World, states: seq<Db>, steps: seq<Step>, i: nat)
    requires Run(w, states, steps) && i < |states|
    ensures Inv(w, states[i])
  {
    hide CanStep, Apply, Inv;
    if i > 0 {
      InvAt(w, states, steps, i - 1);
      StepKeeps(w, states[i - 1], steps[i - 1]);
    } else {
      EmptyIsFine(w);
    }
  }

  lemma EmptyIsFine(w: World)
    ensures Inv(w, Db({}, {}, {}, map[], {}, {}))
  {
  }

  /** Whatever was saved, edited and deleted before: an enabled path has a route, a
      scope without gaps and existing hop Services, and a private one still grants its
      hop Services and its destination. */
  lemma EnabledPathsStayRunnable(w: World, states: seq<Db>, steps: seq<Step>, i: nat, id: RecordId)
    requires Run(w, states, steps) && i < |states| && id in states[i].paths && states[i].paths[id].state == Enabled
    ensures var db, row := states[i], states[i].paths[id];
            && row.route.Some? && Present(row.scope) != [] && |Present(row.scope)| == |row.scope|
            && (forall k | 0 <= k < |row.scope| ::
                  row.scope[k].Some? && row.scope[k].value in db.assets
                    && w.assetBrain(row.scope[k].value) == row.brain)
            && (forall s | s in row.route.value.hops ::
                  s in db.services && (row.visibility == Private ==> s in row.serviceGrants))
            && (row.route.value.terminal.Fixed? ==>
                  && row.route.value.terminal.brain in db.brains
                  && (row.visibility == Private ==>
                        || row.route.value.terminal.brain == row.brain
                        || row.route.value.terminal.brain in row.brainGrants))
  {
    InvAt(w, states, steps, i);
    var db, row := states[i], states[i].paths[id];
    assert RowConsistent(db, row) && ScopeOwned(w, row) && Runnable(row);
    PresentOfFull(row.scope);
    forall s | s in row.route.value.hops ensures s in db.services
      && (row.visibility == Private ==> s in row.serviceGrants) {
      assert s in Elements(row.route.value.hops);
    }
    forall k | 0 <= k < |row.scope| ensures row.scope[k].Some? && row.scope[k].value in db.assets {
      assert row.scope[k] in row.scope;
    }
    hide Inv, Run, Present;
  }

  lemma {:induction false} PresentOfFull(scope: seq<Option<RecordId>>)
    requires None !in scope
    ensures |Present(scope)| == |scope|
  {
    if scope != [] {
      assert scope[0] in scope;
      PresentOfFull(scope[1..]);
    }
  }

  // ------------------------------------------------------------ run-time decisions

  function HopNames(hops: seq<RecordId>, name: RecordId -> string): (r: seq<string>)
    ensures |r| == |hops| && forall i | 0 <= i < |r| :: r[i] == name(hops[i])
  {
    seq(|hops|, i requires 0 <= i < |hops| => name(hops[i]))
  }

  function TerminalName(t: Terminal, name: RecordId -> string): string {
    match t
    case Caller => "caller"
    case Fixed(b) => name(b)
    case Unset => ""
  }

  /** What an execution asks the policy about a loaded configuration. */
  function RunInput(w: World, c: Config, mode: Mode, initiating: RecordId, brainGrants: seq<string>,
                    serviceGrants: seq<string>, maxHops: int): Input
    requires c.route.Some?
  {
    Input(mode, c.visibility, w.brainName(c.brain), w.brainName(initiating), true, true,
          TerminalName(c.route.value.terminal, w.brainName), brainGrants, serviceGrants,
          HopNames(c.route.value.hops, w.serviceName), maxHops)
  }

  /** What the invariant says of an enabled path, as far as a push needs it. */
  predicate PushReady(c: Config) {
    && c.route.Some? && c.route.value.terminal != Unset && !c.visibility.OtherVisibility?
    && (c.visibility == Private ==>
          && Elements(c.route.value.hops) <= c.serviceGrants
          && (c.route.value.terminal.Fixed? ==>
                c.route.value.terminal.brain == c.brain || c.route.value.terminal.brain in c.brainGrants))
  }

  lemma HopsAreGranted(w: World, c: Config, serviceGrants: seq<string>)
    requires c.route.Some? && Names(serviceGrants, c.serviceGrants, w.serviceName)
    requires Elements(c.route.value.hops) <= c.serviceGrants
    ensures Elements(HopNames(c.route.value.hops, w.serviceName)) <= Elements(serviceGrants)
  {
    var hops := c.route.value.hops;
    forall n | n in HopNames(hops, w.serviceName) ensures n in serviceGrants {
      var i :| 0 <= i < |hops| && w.serviceName(hops[i]) == n;
      assert hops[i] in Elements(hops);
    }
  }

  /** A push by the source is decided by the hop limit and the terminal alone. */
  lemma PushDecision(w: World, c: Config, brainGrants: seq<string>, serviceGrants: seq<string>, maxHops: int)
    requires PushReady(c) && forall b :: IsBrainId(w.brainName(b))
    requires Names(brainGrants, c.brainGrants, w.brainName) && Names(serviceGrants, c.serviceGrants, w.serviceName)
    ensures Decision(RunInput(w, c, Push, c.brain, brainGrants, serviceGrants, maxHops)) ==
            if |c.route.value.hops| > HopBound(maxHops) then Err(RouteTooLong)
            else if c.route.value.terminal == Caller then Err(RouteInvalid)
            else Ok(w.brainName(c.route.value.terminal.brain))
  {
    hide IsBrainId;
    CallerIsNoBrain();
    if c.visibility == Private {
      HopsAreGranted(w, c, serviceGrants);
    }
  }

  lemma CallerIsNoBrain()
    ensures !IsBrainId("caller") && !IsBrainId("")
  {
  }

  lemma EnabledIsPushReady(w: World, db: Db, id: RecordId)
    requires Inv(w, db) && id in db.paths && db.paths[id].state == Enabled
    ensures PushReady(ConfigOf(id, db.paths[id]))
  {
    hide ScopeOwned, NamesOk, PathsDiffer, SchemaPath;
  }

  /** In every reachable state of the tables, a push by the source over an enabled path
      is never refused as PRINCIPAL_NOT_AUTHORIZED. */
  lemma PushIsAuthorized(w: World, states: seq<Db>, steps: seq<Step>, i: nat, id: RecordId,
                         brainGrants: seq<string>, serviceGrants: seq<string>, maxHops: int)
    requires Run(w, states, steps) && i < |states| && forall b :: IsBrainId(w.brainName(b))
    requires id in states[i].paths && states[i].paths[id].state == Enabled
    requires var row := states[i].paths[id];
             Names(brainGrants, row.brainGrants, w.brainName) && Names(serviceGrants, row.serviceGrants, w.serviceName)
    ensures states[i].paths[id].route.Some?
    ensures var c := ConfigOf(id, states[i].paths[id]);
            && Decision(RunInput(w, c, Push, c.brain, brainGrants, serviceGrants,
                                 maxHops)) != Err(PrincipalNotAuthorized)
            && (Decision(RunInput(w, c, Push, c.brain, brainGrants, serviceGrants, maxHops)).Ok? <==>
                c.route.value.terminal.Fixed? && |c.route.value.hops| <= HopBound(maxHops))
  {
    hide Decision, Present, Inv;
    InvAt(w, states, steps, i);
    EnabledIsPushReady(w, states[i], id);
    PushDecision(w, ConfigOf(id, states[i].paths[id]), brainGrants, serviceGrants, maxHops);
  }

  lemma NamedExactly(w: World, db: Db, brainGrants: seq<string>, ids: set<RecordId>, b: RecordId)
    requires NamesOk(w, db) && ids <= db.brains && b in db.brains && Names(brainGrants, ids, w.brainName)
    ensures w.brainName(b) in brainGrants <==> b in ids
  {
  }

  lemma NamesTell(w: World, db: Db, a: RecordId, b: RecordId)
    requires NamesOk(w, db) && a in db.brains && b in db.brains
    ensures w.brainName(a) == w.brainName(b) <==> a == b
  {
  }

  /** A pull over an enabled path: the fixed destination must be the caller, and a
      private path lets in its source and the granted Brains, no one else. */
  lemma PullDecision(w: World, db: Db, id: RecordId, caller: RecordId,
                     brainGrants: seq<string>, serviceGrants: seq<string>, maxHops: int)
    requires Inv(w, db) && id in db.paths && db.paths[id].state == Enabled && caller in db.brains
    requires forall b :: IsBrainId(w.brainName(b))
    requires Names(brainGrants, db.paths[id].brainGrants, w.brainName)
    requires Names(serviceGrants, db.paths[id].serviceGrants, w.serviceName)
    ensures db.paths[id].route.Some?
    ensures var row := db.paths[id];
            var terminal := row.route.value.terminal;
            Decision(RunInput(w, ConfigOf(id, row), Pull, caller, brainGrants, serviceGrants, maxHops)) ==
            if |row.route.value.hops| > HopBound(maxHops) then Err(RouteTooLong)
            else if terminal != Caller && terminal != Fixed(caller) then Err(DestinationMismatch)
            else if row.visibility == Public || caller == row.brain || caller in row.brainGrants then
              Ok(w.brainName(caller))
            else Err(PrincipalNotAuthorized)
  {
    hide IsBrainId, Present, SchemaPath, ScopeOwned, PathsDiffer;
    var row := db.paths[id];
    EnabledIsPushReady(w, db, id);
    CallerIsNoBrain();
    assert NamesOk(w, db) && RowConsistent(db, row);
    NamedExactly(w, db, brainGrants, row.brainGrants, caller);
    NamesTell(w, db, caller, row.brain);
    if row.route.value.terminal.Fixed? {
      NamesTell(w, db, caller, row.route.value.terminal.brain);
    }
    if row.visibility == Private {
      HopsAreGranted(w, ConfigOf(id, row), serviceGrants);
    }
    hide RowsOk, Inv, Names;
  }

  // ------------------------------------------------------------ versions

  lemma IssuedGrows(w: World, db: Db, step: Step)
    requires CanStep(w, db, step)
    ensures db.issued <= Apply(w, db, step).issued
  {
    hide Safe, Fits, AssetInUse, ServiceInUse, BrainInUse;
  }

  predicate SameButLess(row: PathRow, after: PathRow) {
    && after.brain == row.brain && after.path == row.path
    && after.visibility == row.visibility && after.state == row.state
    && after.operations == row.operations && after.route == row.route && after.version == row.version
    && after.brainGrants <= row.brainGrants && after.serviceGrants <= row.serviceGrants
    && (row.state == Enabled ==> after.scope == row.scope)
  }

  /** One step replaces a path as its next version, or takes away grants and assets. */
  lemma StepOnPath(w: World, db: Db, step: Step, id: RecordId)
    requires CanStep(w, db, step) && id in db.issued && id in Apply(w, db, step).paths
    ensures id in db.paths
    ensures SameButLess(db.paths[id], Apply(w, db, step).paths[id])
            || Apply(w, db, step).paths[id].version == db.paths[id].version + 1
  {
    hide Safe, Fits;
    if step.DropAsset? && db.paths[id].state == Enabled {
      assert !InScope(db.paths[id], step.asset);
      ScopeUntouched(db.paths[id].scope, {step.asset});
    }
    if step.DropBrain? && id in db.paths && db.paths[id].state == Enabled {
      var owned := Owned(db.assets, w.assetBrain, step.brain);
      forall a | a in owned ensures !InScope(db.paths[id], a) {
        assert !AssetHeld(db, a);
      }
      ScopeUntouched(db.paths[id].scope, owned);
    }
  }

  lemma ScopeUntouched(scope: seq<Option<RecordId>>, gone: set<RecordId>)
    requires forall a | a in gone :: Some(a) !in scope
    ensures Cleared(scope, gone) == scope
  {
    forall i | 0 <= i < |scope| ensures Cleared(scope, gone)[i] == scope[i] {
      if scope[i].Some? {
        assert Some(scope[i].value) in scope;
      }
    }
  }

  /** A path keeps its row as long as it exists, its version only grows, and while the
      version stands still only grants and unneeded assets are taken away. */
  lemma {:induction false} PathHistory(w: World, states: seq<Db>, steps: seq<Step>, i: nat, j: nat, id: RecordId)
    requires Run(w, states, steps) && i <= j < |states| && id in states[i].issued && id in states[j].paths
    ensures id in states[i].paths && states[i].paths[id].version <= states[j].paths[id].version
    ensures states[i].paths[id].version == states[j].paths[id].version ==>
              SameButLess(states[i].paths[id], states[j].paths[id])
    ensures forall k | i <= k <= j :: id in states[k].issued && id in states[k].paths
    decreases j - i
  {
    hide CanStep, Apply;
    if i < j {
      assert CanStep(w, states[i], steps[i]);
      IssuedGrows(w, states[i], steps[i]);
      PathHistory(w, states, steps, i + 1, j, id);
      StepOnPath(w, states[i], steps[i], id);
    }
  }

  /** Of any number of replaces of one version of a path, at most one succeeds. */
  lemma OneReplaceWins(w: World, states: seq<Db>, steps: seq<Step>, i: nat, j: nat, id: RecordId, version: nat)
    requires Run(w, states, steps) && i < |steps| && j < |steps|
    requires steps[i].Replace? && steps[i].id == id && steps[i].version == version
    requires steps[j].Replace? && steps[j].id == id && steps[j].version == version
    ensures i == j
  {
    if i < j {
      LaterReplaceFails(w, states, steps, i, j, id);
    } else if j < i {
      LaterReplaceFails(w, states, steps, j, i, id);
    }
  }

  lemma LaterReplaceFails(w: World, states: seq<Db>, steps: seq<Step>, i: nat, j: nat, id: RecordId)
    requires Run(w, states, steps) && i < j < |steps|
    requires steps[i].Replace? && steps[i].id == id && steps[j].Replace? && steps[j].id == id
    ensures steps[i].version < steps[j].version
  {
    hide Safe, Fits, Saved;
    assert CanStep(w, states[i], steps[i]) && CanStep(w, states[j], steps[j]);
    InvAt(w, states, steps, i);
    hide Inv;
    SavedVersion(steps[i].cmd, steps[i].version + 1);
    IssuedIncludesPaths(w, states[i], id);
    PathHistory(w, states, steps, i + 1, j, id);
  }

  lemma SavedVersion(cmd: Command, version: nat)
    ensures Saved(cmd, version).version == version
  {
  }

  lemma IssuedIncludesPaths(w: World, db: Db, id: RecordId)
    requires Inv(w, db) && id in db.paths
    ensures id in db.issued
  {
  }

  /** In every reachable state the paths of a Brain have different names, and each row has
      a version, a known visibility and state, and a Brain. */
  lemma RowsStayValid(w: World, states: seq<Db>, steps: seq<Step>, i: nat, id: RecordId)
    requires Run(w, states, steps) && i < |states| && id in states[i].paths
    ensures var db, row := states[i], states[i].paths[id];
      && row.version >= 1 && row.visibility in {Public, Private} && row.state in {Draft, Enabled, Disabled}
      && row.brain in db.brains && SchemaPath(row.path) && id in db.issued
      && (forall q | q in db.paths && q != id && db.paths[q].brain == row.brain :: db.paths[q].path != row.path)
  {
    InvAt(w, states, steps, i);
    assert HeaderOk(states[i].paths[id]) && RowConsistent(states[i], states[i].paths[id]);
    hide Run, SchemaPath, ScopeOwned, Runnable;
  }

  /** An asset that was uploaded is never taken for an accepted one. */
  lemma UploadsStayUploads(w: World, states: seq<Db>, steps: seq<Step>, i: nat, a: RecordId)
    requires Run(w, states, steps) && i < |steps| && a in states[i].assets && a !in states[i].accepted
    ensures a !in states[i + 1].accepted
  {
    hide Safe, Fits, Saved, AssetHeld, BrainInUse, ServiceInUse;
    assert CanStep(w, states[i], steps[i]);
  }

  /** An enabled path goes only by a delete of that path: not with its Brain, and not with
      anything else. */
  lemma EnabledPathsEndByDelete(w: World, states: seq<Db>, steps: seq<Step>, i: nat, id: RecordId)
    requires Run(w, states, steps) && i < |steps|
    requires id in states[i].paths && states[i].paths[id].state == Enabled && id !in states[i + 1].paths
    ensures steps[i] == Step.Delete(id, states[i].paths[id].brain, states[i].paths[id].version)
  {
    hide Safe, Fits, Saved;
    assert CanStep(w, states[i], steps[i]);
  }

  // ------------------------------------------------------------ loads outside a transaction

  /** What six statements, each on the state of its own moment, put together. The hops
      are read by the id of the route row, which every replace renews. */
  function TornLoad(id: RecordId, header: Db, scope: Db, brains: Db, services: Db, route: Db, hops: Db): Config
    requires id in header.paths
  {
    var row := header.paths[id];
    Config(id, row.brain, row.path, row.visibility, row.state, row.operations, row.version,
           if id in scope.paths then Present(scope.paths[id].scope) else [],
           if id in brains.paths then brains.paths[id].brainGrants else {},
           if id in services.paths then services.paths[id].serviceGrants else {},
           if id !in route.paths || route.paths[id].route.None? then None
           else if id in hops.paths && hops.paths[id].version == route.paths[id].version then hops.paths[id].route
           else Some(Route(route.paths[id].route.value.terminal, [])))
  }

  /** A load spread over a run whose first and last statement see the same version is,
      for an enabled path, the configuration of the last moment, with at most more
      grants, which were there when they were read. */
  lemma TornLoadIsSafe(w: World, states: seq<Db>, steps: seq<Step>, id: RecordId, a: nat, b: nat, c: nat, d: nat,
                       e: nat, f: nat)
    requires Run(w, states, steps) && a <= b <= c <= d <= e <= f < |states|
    requires id in states[a].paths && states[a].paths[id].state == Enabled
    requires id in states[f].paths && states[f].paths[id].version == states[a].paths[id].version
    ensures var torn := TornLoad(id, states[a], states[b], states[c], states[d], states[e], states[f]);
            var last := ConfigOf(id, states[f].paths[id]);
            && torn.(brainGrants := last.brainGrants, serviceGrants := last.serviceGrants) == last
            && last.brainGrants <= torn.brainGrants && last.serviceGrants <= torn.serviceGrants
            && PushReady(torn)
  {
    hide Present, Inv, CanStep, Apply;
    InvAt(w, states, steps, a);
    IssuedIncludesPaths(w, states[a], id);
    PathHistory(w, states, steps, a, f, id);
    PathHistory(w, states, steps, a, b, id);
    PathHistory(w, states, steps, b, f, id);
    PathHistory(w, states, steps, a, c, id);
    PathHistory(w, states, steps, c, f, id);
    PathHistory(w, states, steps, a, d, id);
    PathHistory(w, states, steps, d, f, id);
    PathHistory(w, states, steps, a, e, id);
    PathHistory(w, states, steps, e, f, id);
    InvAt(w, states, steps, f);
    EnabledIsPushReady(w, states[f], id);
  }

  /** So the execution that follows such a load is not refused either. */
  lemma TornPushIsAuthorized(w: World, states: seq<Db>, steps: seq<Step>, id: RecordId, a: nat, b: nat, c: nat, d: nat,
                             e: nat, f: nat,
                             brainGrants: seq<string>, serviceGrants: seq<string>, maxHops: int)
    requires Run(w, states, steps) && a <= b <= c <= d <= e <= f < |states| && forall x :: IsBrainId(w.brainName(x))
    requires id in states[a].paths && states[a].paths[id].state == Enabled
    requires id in states[f].paths && states[f].paths[id].version == states[a].paths[id].version
    requires var torn := TornLoad(id, states[a], states[b], states[c], states[d], states[e], states[f]);
             Names(brainGrants, torn.brainGrants, w.brainName)
               && Names(serviceGrants, torn.serviceGrants, w.serviceName)
    ensures var torn := TornLoad(id, states[a], states[b], states[c], states[d], states[e], states[f]);
            torn.route.Some? && Decision(RunInput(w, torn, Push, torn.brain, brainGrants, serviceGrants,
                                                  maxHops)) != Err(PrincipalNotAuthorized)
  {
    hide Run, Decision, TornLoad, Names;
    TornLoadIsSafe(w, states, steps, id, a, b, c, d, e, f);
    PushDecision(w, TornLoad(id, states[a], states[b], states[c], states[d], states[e], states[f]), brainGrants,
                 serviceGrants, maxHops);
  }

  /** The grants that were read cover the route that was read, in canonical IDs. */
  predicate Covered(w: World, c: Config, brainGrants: seq<string>, serviceGrants: seq<string>)
    requires c.route.Some?
  {
    && (forall s | s in c.route.value.hops :: w.serviceName(s) in serviceGrants)
    && (c.route.value.terminal.Fixed? ==>
          || w.brainName(c.route.value.terminal.brain) == w.brainName(c.brain)
          || w.brainName(c.route.value.terminal.brain) in brainGrants)
  }

  lemma CoveredNames(w: World, c: Config, brainGrants: seq<string>, serviceGrants: seq<string>)
    requires c.route.Some?
    ensures Elements(HopNames(c.route.value.hops, w.serviceName)) <= Elements(serviceGrants) <==>
            forall s | s in c.route.value.hops :: w.serviceName(s) in serviceGrants
  {
    var hops, names := c.route.value.hops, HopNames(c.route.value.hops, w.serviceName);
    if forall s | s in hops :: w.serviceName(s) in serviceGrants {
      forall n | n in names ensures n in serviceGrants {
        var i :| 0 <= i < |hops| && names[i] == n;
        assert hops[i] in hops;
      }
    }
    if Elements(names) <= Elements(serviceGrants) {
      forall s | s in hops ensures w.serviceName(s) in serviceGrants {
        var i :| 0 <= i < |hops| && hops[i] == s;
        assert names[i] in Elements(names);
      }
    }
  }

  /** Whatever a load put together: with a fixed terminal and a route within the limit,
      a push by the source is refused as PRINCIPAL_NOT_AUTHORIZED exactly when the
      header is private and the grants do not cover the hops and the destination. */
  lemma PushRefusedWhen(w: World, c: Config, brainGrants: seq<string>, serviceGrants: seq<string>, maxHops: int)
    requires c.route.Some? && c.route.value.terminal.Fixed? && |c.route.value.hops| <= HopBound(maxHops)
    requires !c.visibility.OtherVisibility? && forall b :: IsBrainId(w.brainName(b))
    ensures var decision := Decision(RunInput(w, c, Push, c.brain, brainGrants, serviceGrants, maxHops));
            && (decision == Err(PrincipalNotAuthorized) <==>
                c.visibility == Private && !Covered(w, c, brainGrants, serviceGrants))
            && (decision != Err(PrincipalNotAuthorized) ==> decision == Ok(w.brainName(c.route.value.terminal.brain)))
  {
    hide IsBrainId;
    CallerIsNoBrain();
    CoveredNames(w, c, brainGrants, serviceGrants);
    hide HopNames, Elements;
  }

  /** The exact condition for a load whose six statements met any states of a run: the
      push is refused exactly when the header read was private and the grants read do
      not cover the hops and the destination read.  The version must then have moved. */
  lemma TornPushRefusedWhen(w: World, states: seq<Db>, steps: seq<Step>, id: RecordId, a: nat, b: nat, c: nat, d: nat,
                            e: nat, f: nat,
                            brainGrants: seq<string>, serviceGrants: seq<string>, maxHops: int)
    requires Run(w, states, steps) && a <= b <= c <= d <= e <= f < |states| && forall x :: IsBrainId(w.brainName(x))
    requires id in states[a].paths && states[a].paths[id].state == Enabled
    requires var torn := TornLoad(id, states[a], states[b], states[c], states[d], states[e], states[f]);
             && Names(brainGrants, torn.brainGrants, w.brainName)
                && Names(serviceGrants, torn.serviceGrants, w.serviceName)
             && torn.route.Some? && torn.route.value.terminal.Fixed? && |torn.route.value.hops| <= HopBound(maxHops)
    ensures var torn := TornLoad(id, states[a], states[b], states[c], states[d], states[e], states[f]);
            var decision := Decision(RunInput(w, torn, Push, torn.brain, brainGrants, serviceGrants, maxHops));
            && (decision == Err(PrincipalNotAuthorized) <==>
                torn.visibility == Private && !Covered(w, torn, brainGrants, serviceGrants))
            && (decision == Err(PrincipalNotAuthorized) ==>
                  id !in states[f].paths || states[f].paths[id].version != states[a].paths[id].version)
  {
    InvAt(w, states, steps, a);
    assert HeaderOk(states[a].paths[id]);
    hide Run, Decision, Inv, Names, Covered, HeaderOk;
    var torn := TornLoad(id, states[a], states[b], states[c], states[d], states[e], states[f]);
    PushRefusedWhen(w, torn, brainGrants, serviceGrants, maxHops);
    if id in states[f].paths && states[f].paths[id].version == states[a].paths[id].version {
      TornPushIsAuthorized(w, states, steps, id, a, b, c, d, e, f, brainGrants, serviceGrants, maxHops);
    }
  }

  // ------------------------------------------------------------ a load that a replace cuts in two

  const SOURCE: RecordId := "brain.b"
  const TARGET: RecordId := "brain.c"

  function ExampleWorld(): World {
    World(id => id, id => id, id => SOURCE)
  }

  /** A private path through one Service, which is granted, to a granted destination. */
  function ExampleCommand(service: RecordId): Command {
    Command(SOURCE, "/x", Private, Enabled, [RawRead], ["a"], [TARGET], [service],
            Some(Route(Fixed(TARGET), [service])))
  }

  function ExampleTables(): Db {
    Db({SOURCE, TARGET}, {"s", "t"}, {"a"}, map[], {}, {})
  }

  /** A run goes on with any step that can be taken. */
  lemma Extend(w: World, states: seq<Db>, steps: seq<Step>, step: Step) returns (all: seq<Db>, taken: seq<Step>)
    requires Run(w, states, steps) && |states| == |steps| + 1 && CanStep(w, states[|steps|], step)
    ensures Run(w, all, taken) && |all| == |taken| + 1 && |taken| == |steps| + 1
    ensures all[..|steps| + 1] == states && all[|taken|] == Apply(w, states[|steps|], step)
  {
    hide CanStep, Apply;
    all, taken := states + [Apply(w, states[|steps|], step)], steps + [step];
    forall i | 0 <= i < |taken| ensures CanStep(w, all[i], taken[i]) && all[i + 1] == Apply(w, all[i], taken[i]) {
      if i < |steps| {
        assert all[i] == states[i] && taken[i] == steps[i];
      }
    }
  }

  lemma ExampleIsReachable() returns (states: seq<Db>, steps: seq<Step>)
    ensures Run(ExampleWorld(), states, steps) && |states| == |steps| + 1 && states[|steps|] == ExampleTables()
  {
    states, steps := [Db({}, {}, {}, map[], {}, {})], [];
    assert Run(ExampleWorld(), states, steps);
    hide Run;
    states, steps := Extend(ExampleWorld(), states, steps, AddBrain(SOURCE));
    states, steps := Extend(ExampleWorld(), states, steps, AddBrain(TARGET));
    states, steps := Extend(ExampleWorld(), states, steps, AddService("s"));
    states, steps := Extend(ExampleWorld(), states, steps, AddService("t"));
    states, steps := Extend(ExampleWorld(), states, steps, AddAsset("a"));
  }

  lemma ExampleFits(db: Db, id: RecordId, service: RecordId)
    requires db.brains == {SOURCE, TARGET} && db.services == {"s", "t"} && db.assets == {"a"} && service in {"s", "t"}
    requires db.paths.Keys <= {id}
    ensures Fits(db, id, ExampleCommand(service)) && Safe(ExampleWorld(), ExampleCommand(service))
  {
    var cmd := ExampleCommand(service);
    assert Elements(cmd.assets) == {"a"} && Elements(cmd.brainGrants) == {TARGET}
           && Elements(cmd.serviceGrants) == {service};
    assert cmd.path == "/x" && cmd.path[1] == 'x';
  }

  /** The push of the example, as an execution over configuration `c` decides it. */
  function ExamplePush(c: Config, service: string): Result<string, Code>
    requires c.route.Some?
  {
    Decision(RunInput(ExampleWorld(), c, Push, SOURCE, [TARGET], [service], MAX_ROUTE_HOPS))
  }

  /** When a replace commits between the reads of the Service grants and of the route,
      a push by the source is refused as PRINCIPAL_NOT_AUTHORIZED, although both the
      old and the new configuration deliver it. */
  lemma TornLoadRefused() returns (states: seq<Db>, steps: seq<Step>, n: nat)
    ensures Run(ExampleWorld(), states, steps) && |states| == n + 2 && "p" in states[n].paths
            && "p" in states[n + 1].paths
    ensures states[n].paths["p"].state == Enabled && states[n + 1].paths["p"].state == Enabled
    ensures var before, after := ConfigOf("p", states[n].paths["p"]), ConfigOf("p", states[n + 1].paths["p"]);
            && before.brainGrants == {TARGET} && before.serviceGrants == {"s"}
            && before.route.Some? && ExamplePush(before, "s") == Ok(TARGET)
            && after.brainGrants == {TARGET} && after.serviceGrants == {"t"}
            && after.route.Some? && ExamplePush(after, "t") == Ok(TARGET)
    ensures var torn := TornLoad("p", states[n], states[n], states[n], states[n], states[n + 1], states[n + 1]);
            && torn.brainGrants == {TARGET} && torn.serviceGrants == {"s"}
            && torn.route.Some? && ExamplePush(torn, "s") == Err(PrincipalNotAuthorized)
  {
    hide Run, Fits, Safe, Present, Decision, ExamplePush;
    states, steps := ExampleIsReachable();
    n := |steps| + 1;
    ExampleFits(states[|steps|], "p", "s");
    states, steps := Extend(ExampleWorld(), states, steps, Create("p", ExampleCommand("s")));
    ghost var first := states[n];
    ExampleFits(first, "p", "t");
    states, steps := Extend(ExampleWorld(), states, steps, Replace("p", 1, ExampleCommand("t")));
    assert states[n] == states[..n + 1][n] == first;
    ExampleGranted(ConfigOf("p", states[n].paths["p"]), "s");
    ExampleGranted(ConfigOf("p", states[n + 1].paths["p"]), "t");
    ExampleRefused(TornLoad("p", states[n], states[n], states[n], states[n], states[n + 1], states[n + 1]));
  }

  lemma ExampleGranted(c: Config, service: RecordId)
    requires c.visibility == Private && c.brain == SOURCE && c.route == Some(Route(Fixed(TARGET), [service]))
    ensures ExamplePush(c, service) == Ok(TARGET)
  {
    var a := RunInput(ExampleWorld(), c, Push, SOURCE, [TARGET], [service], MAX_ROUTE_HOPS);
    assert a.hops == [service] && Elements(a.hops) == Elements(a.serviceGrants) && TARGET in Elements(a.brainGrants);
    assert IsSlug("c") && TARGET[6..] == "c" && IsBrainId(TARGET);
  }

  lemma ExampleRefused(c: Config)
    requires c.visibility == Private && c.brain == SOURCE && c.route == Some(Route(Fixed(TARGET), ["t"]))
    ensures ExamplePush(c, "s") == Err(PrincipalNotAuthorized)
  {
    var a := RunInput(ExampleWorld(), c, Push, SOURCE, [TARGET], ["s"], MAX_ROUTE_HOPS);
    assert a.hops[0] == "t" && "t" in Elements(a.hops) && "t" !in Elements(a.serviceGrants);
    assert IsSlug("c") && TARGET[6..] == "c" && IsBrainId(TARGET);
  }
}
