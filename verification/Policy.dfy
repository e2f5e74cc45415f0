/** Save-time validation and run-time authorization (internal/routes/policy.go). */
module Validation {
  import opened Prelude
  import opened Domain

  datatype Brain = Brain(id: RecordId, owner: RecordId, canonical: string)
  datatype Asset = Asset(brain: RecordId, format: AssetFormat, state: AssetState)
  datatype RouteConfig = RouteConfig(hops: seq<string>, terminal: string)

  datatype Configuration = Configuration(
    queryPathId: string, path: string, assetIds: seq<string>, operations: seq<Operation>, visibility: Visibility,
    brainGrants: seq<string>, serviceGrants: seq<string>, route: Option<RouteConfig>, state: PathState)

  /** Resolved current state; brains and services are keyed by canonical ID.  A
      source Brain that does not exist has the empty ID. */
  datatype Context = Context(
    actor: RecordId, source: Brain, assets: map<string, Asset>, brains: map<string, Brain>,
    services: map<string, RecordId>, existingPaths: map<string, string>, maxHops: int)

  /** One constructor for each (field, code) pair the validator can report. */
  datatype FieldError =
    | SourceNotFound | SourceNotOwned
    | PathInvalid | PathNotUnique
    | AssetsRequired | AssetDuplicate(i: nat) | AssetNotFound(i: nat) | AssetWrongBrain(i: nat)
    | OperationsRequired | OperationDuplicate(i: nat) | OperationUnknown(i: nat) | OperationIncompatible(i: nat)
    | VisibilityInvalid
    | BrainGrantDuplicate(i: nat) | BrainGrantNotFound(i: nat)
    | ServiceGrantDuplicate(i: nat) | ServiceGrantNotFound(i: nat)
    | StateInvalid | RouteRequired | HopsTooLong | HopNotFound(i: nat) | TerminalInvalid
    | MissingRouteService(service: string) | MissingDestination
    | AssetParseFailedAt(i: nat) | AssetUnavailableAt(i: nat)

  predicate OperationCompatible(op: Operation, a: Asset) {
    op == RawRead
    || (a.state != ParseFailed
        && ((op == TextSearchOp && (a.format == Text || a.format == Markdown))
            || (op == CsvQueryOp && a.format == Csv)))
  }

  function HopBound(maxHops: int): (r: nat)
    ensures 0 < r <= MAX_ROUTE_HOPS
  {
    if maxHops <= 0 || maxHops > MAX_ROUTE_HOPS then MAX_ROUTE_HOPS else maxHops
  }

  predicate Repeats<T(==)>(s: seq<T>, i: nat) {
    i < |s| && s[i] in s[..i]
  }

  predicate TerminalValid(terminal: string, ctx: Context) {
    terminal == "caller" || (terminal in ctx.brains && HasPrefix(terminal, "brain."))
  }

  predicate PrivateAndEnabled(cfg: Configuration) {
    cfg.visibility == Private && cfg.state == Enabled
  }

  predicate SomeAssetCompatible(cfg: Configuration, ctx: Context, op: Operation) {
    exists k | 0 <= k < |cfg.assetIds| ::
      cfg.assetIds[k] in ctx.assets && OperationCompatible(op, ctx.assets[cfg.assetIds[k]])
  }

  /** When each error is to be reported, independent of any order of checking. */
  predicate Reported(cfg: Configuration, ctx: Context, e: FieldError) {
    match e
    case SourceNotFound => ctx.source.id == ""
    case SourceNotOwned => ctx.source.id != "" && ctx.source.owner != ctx.actor
    case PathInvalid => !IsQueryPath(cfg.path)
    case PathNotUnique =>
      IsQueryPath(cfg.path) && cfg.path in ctx.existingPaths && ctx.existingPaths[cfg.path] != cfg.queryPathId
    case AssetsRequired => cfg.assetIds == []
    case AssetDuplicate(i) => Repeats(cfg.assetIds, i)
    case AssetNotFound(i) => i < |cfg.assetIds| && !Repeats(cfg.assetIds, i) && cfg.assetIds[i] !in ctx.assets
    case AssetWrongBrain(i) =>
      && i < |cfg.assetIds| && !Repeats(cfg.assetIds, i) && cfg.assetIds[i] in ctx.assets
      && ctx.source.id != "" && ctx.assets[cfg.assetIds[i]].brain != ctx.source.id
    case OperationsRequired => cfg.operations == []
    case OperationDuplicate(i) => Repeats(cfg.operations, i)
    case OperationUnknown(i) =>
      i < |cfg.operations| && !Repeats(cfg.operations, i) && cfg.operations[i].OtherOperation?
    case OperationIncompatible(i) =>
      && i < |cfg.operations| && !Repeats(cfg.operations, i) && !cfg.operations[i].OtherOperation?
      && !SomeAssetCompatible(cfg, ctx, cfg.operations[i])
    case VisibilityInvalid => cfg.visibility.OtherVisibility?
    case BrainGrantDuplicate(i) => Repeats(cfg.brainGrants, i)
    case BrainGrantNotFound(i) =>
      && i < |cfg.brainGrants| && !Repeats(cfg.brainGrants, i)
      && !(cfg.brainGrants[i] in ctx.brains && HasPrefix(cfg.brainGrants[i], "brain."))
    case ServiceGrantDuplicate(i) => Repeats(cfg.serviceGrants, i)
    case ServiceGrantNotFound(i) =>
      && i < |cfg.serviceGrants| && !Repeats(cfg.serviceGrants, i)
      && !(cfg.serviceGrants[i] in ctx.services && HasPrefix(cfg.serviceGrants[i], "service."))
    case StateInvalid => cfg.state.OtherState?
    case RouteRequired => cfg.state == Enabled && cfg.route.None?
    case HopsTooLong => cfg.route.Some? && |cfg.route.value.hops| > HopBound(ctx.maxHops)
    case HopNotFound(i) =>
      cfg.route.Some? && i < |cfg.route.value.hops| && cfg.route.value.hops[i] !in ctx.services
    case TerminalInvalid => cfg.route.Some? && !TerminalValid(cfg.route.value.terminal, ctx)
    case MissingRouteService(service) =>
      && cfg.route.Some? && PrivateAndEnabled(cfg)
      && service in cfg.route.value.hops && service !in cfg.serviceGrants
    case MissingDestination =>
      && cfg.route.Some? && PrivateAndEnabled(cfg)
      && var terminal := cfg.route.value.terminal;
         && TerminalValid(terminal, ctx) && terminal != "caller" && terminal != ctx.source.canonical
         && terminal !in cfg.brainGrants
    case AssetParseFailedAt(i) =>
      && cfg.state == Enabled && i < |cfg.assetIds| && cfg.assetIds[i] in ctx.assets
      && ctx.assets[cfg.assetIds[i]].state == ParseFailed && cfg.operations != [RawRead]
    case AssetUnavailableAt(i) =>
      && cfg.state == Enabled && i < |cfg.assetIds| && cfg.assetIds[i] in ctx.assets
      && ctx.assets[cfg.assetIds[i]].state in {Uploading, UploadFailed}
  }

  /** Position of an error in the validation order: its block, then its index. */
  function Rank(e: FieldError): (nat, nat) {
    match e
    case SourceNotFound => (0, 0) case SourceNotOwned => (0, 0)
    case PathInvalid => (1, 0) case PathNotUnique => (1, 0)
    case AssetsRequired => (2, 0)
    case AssetDuplicate(i) => (3, i) case AssetNotFound(i) => (3, i) case AssetWrongBrain(i) => (3, i)
    case OperationsRequired => (4, 0)
    case OperationDuplicate(i) => (5, i) case OperationUnknown(i) => (5, i) case OperationIncompatible(i) => (5, i)
    case VisibilityInvalid => (6, 0)
    case BrainGrantDuplicate(i) => (7, i) case BrainGrantNotFound(i) => (7, i)
    case ServiceGrantDuplicate(i) => (8, i) case ServiceGrantNotFound(i) => (8, i)
    case StateInvalid => (9, 0)
    case RouteRequired => (10, 0)
    case HopsTooLong => (11, 0)
    case HopNotFound(i) => (12, i)
    case TerminalInvalid => (13, 0)
    case MissingRouteService(_) => (14, 0)
    case MissingDestination => (15, 0)
    case AssetParseFailedAt(i) => (16, i) case AssetUnavailableAt(i) => (16, i)
  }

  predicate Before(a: FieldError, b: FieldError) {
    || Rank(a).0 < Rank(b).0
    || (Rank(a).0 == Rank(b).0 && Rank(a).1 < Rank(b).1)
    || (a.MissingRouteService? && b.MissingRouteService? && a != b)
  }

  /** In validation order, each error once; only the missing-service block, which
      comes from a map, has no order of its own. */
  predicate Ordered(errors: seq<FieldError>) {
    forall i, j | 0 <= i < j < |errors| :: Before(errors[i], errors[j])
  }

  /** `errors` lists, in order, exactly the reported errors of blocks `from` to `to`. */
  ghost predicate Lists(cfg: Configuration, ctx: Context, errors: seq<FieldError>, from: nat, to: nat) {
    && Ordered(errors)
    && forall e :: e in errors <==> from <= Rank(e).0 < to && Reported(cfg, ctx, e)
  }

  lemma ListsJoin(cfg: Configuration, ctx: Context, a: seq<FieldError>, b: seq<FieldError>, from: nat, mid: nat,
                  to: nat)
    requires from <= mid <= to
    requires Lists(cfg, ctx, a, from, mid) && Lists(cfg, ctx, b, mid, to)
    ensures Lists(cfg, ctx, a + b, from, to)
  {
    hide Reported;
    var all := a + b;
    forall i, j | 0 <= i < j < |all| ensures Before(all[i], all[j]) {
      if i < |a| <= j {
        assert all[i] in a && all[j] in b;
      }
    }
  }

  /** The block so far: the errors reported for indices below `n`. */
  ghost predicate ListsBelow(cfg: Configuration, ctx: Context, errors: seq<FieldError>, block: nat, n: nat) {
    && Ordered(errors)
    && forall e :: e in errors <==> Rank(e).0 == block && Rank(e).1 < n && Reported(cfg, ctx, e)
  }

  ghost predicate ListsAt(cfg: Configuration, ctx: Context, errors: seq<FieldError>, block: nat, n: nat) {
    && |errors| <= 1
    && forall e :: e in errors <==> Rank(e) == (block, n) && Reported(cfg, ctx, e)
  }

  lemma NextIndex(cfg: Configuration, ctx: Context, errors: seq<FieldError>, more: seq<FieldError>, block: nat, n: nat)
    requires ListsBelow(cfg, ctx, errors, block, n) && ListsAt(cfg, ctx, more, block, n)
    ensures ListsBelow(cfg, ctx, errors + more, block, n + 1)
  {
    hide Reported, Rank;
    var all := errors + more;
    forall i, j | 0 <= i < j < |all| ensures Before(all[i], all[j]) {
      if i < |errors| <= j {
        assert all[i] in errors && all[j] in more;
      }
    }
  }

  lemma BlockDone(cfg: Configuration, ctx: Context, errors: seq<FieldError>, block: nat, n: nat)
    requires ListsBelow(cfg, ctx, errors, block, n)
    requires forall e :: Rank(e).0 == block && Reported(cfg, ctx, e) ==> Rank(e).1 < n
    ensures Lists(cfg, ctx, errors, block, block + 1)
  {
    hide Reported, Rank;
  }

  lemma SingleBlock(cfg: Configuration, ctx: Context, errors: seq<FieldError>, block: nat)
    requires |errors| <= 1
    requires forall e :: e in errors <==> Rank(e).0 == block && Reported(cfg, ctx, e)
    ensures Lists(cfg, ctx, errors, block, block + 1)
  {
    hide Reported, Rank;
  }

  method CheckSource(cfg: Configuration, ctx: Context) returns (errors: seq<FieldError>)
    ensures Lists(cfg, ctx, errors, 0, 1)
  {
    errors := [];
    if ctx.source.id == "" {
      errors := errors + [SourceNotFound];
    } else if ctx.source.owner != ctx.actor {
      errors := errors + [SourceNotOwned];
    }
    SingleBlock(cfg, ctx, errors, 0);
  }

  method CheckPath(cfg: Configuration, ctx: Context) returns (errors: seq<FieldError>)
    ensures Lists(cfg, ctx, errors, 1, 2)
  {
    hide IsQueryPath;
    errors := [];
    if !IsQueryPath(cfg.path) {
      errors := errors + [PathInvalid];
    } else if cfg.path in ctx.existingPaths && ctx.existingPaths[cfg.path] != cfg.queryPathId {
      errors := errors + [PathNotUnique];
    }
    SingleBlock(cfg, ctx, errors, 1);
  }

  method CheckAssets(cfg: Configuration, ctx: Context) returns (errors: seq<FieldError>)
    ensures Lists(cfg, ctx, errors, 2, 4)
  {
    var required := if |cfg.assetIds| == 0 then [AssetsRequired] else [];
    SingleBlock(cfg, ctx, required, 2);
    errors := [];
    var seen: set<string> := {};
    for i := 0 to |cfg.assetIds|
      invariant ListsBelow(cfg, ctx, errors, 3, i)
      invariant forall id :: id in seen <==> id in cfg.assetIds[..i]
    {
      hide Ordered, ListsBelow, ListsAt, Lists;
      var id := cfg.assetIds[i];
      var more: seq<FieldError> := [];
      if id in seen {
        more := [AssetDuplicate(i)];
      } else {
        seen := seen + {id};
        if id !in ctx.assets {
          more := [AssetNotFound(i)];
        } else if ctx.source.id != "" && ctx.assets[id].brain != ctx.source.id {
          more := [AssetWrongBrain(i)];
        }
      }
      AssetErrorsAt(cfg, ctx, i, more);
      NextIndex(cfg, ctx, errors, more, 3, i);
      errors := errors + more;
    }
    AssetBlockDone(cfg, ctx, errors);
    ListsJoin(cfg, ctx, required, errors, 2, 3, 4);
    errors := required + errors;
  }

  lemma AssetErrorsAt(cfg: Configuration, ctx: Context, i: nat, errors: seq<FieldError>)
    requires i < |cfg.assetIds|
    requires var id := cfg.assetIds[i];
      errors == if Repeats(cfg.assetIds, i) then [AssetDuplicate(i)]
                else if id !in ctx.assets then [AssetNotFound(i)]
                else if ctx.source.id != "" && ctx.assets[id].brain != ctx.source.id then [AssetWrongBrain(i)] else []
    ensures ListsAt(cfg, ctx, errors, 3, i)
  {
    hide Repeats;
  }

  lemma AssetBlockDone(cfg: Configuration, ctx: Context, errors: seq<FieldError>)
    requires ListsBelow(cfg, ctx, errors, 3, |cfg.assetIds|)
    ensures Lists(cfg, ctx, errors, 3, 4)
  {
    hide ListsBelow, Lists;
    BlockDone(cfg, ctx, errors, 3, |cfg.assetIds|);
  }

  method AnyAssetCompatible(cfg: Configuration, ctx: Context, op: Operation) returns (compatible: bool)
    ensures compatible <==> SomeAssetCompatible(cfg, ctx, op)
  {
    for k := 0 to |cfg.assetIds|
      invariant forall j | 0 <= j < k ::
        !(cfg.assetIds[j] in ctx.assets && OperationCompatible(op, ctx.assets[cfg.assetIds[j]]))
    {
      var id := cfg.assetIds[k];
      if id in ctx.assets && OperationCompatible(op, ctx.assets[id]) {
        return true;
      }
    }
    return false;
  }

  method CheckOperations(cfg: Configuration, ctx: Context) returns (errors: seq<FieldError>)
    ensures Lists(cfg, ctx, errors, 4, 6)
  {
    var required := if |cfg.operations| == 0 then [OperationsRequired] else [];
    SingleBlock(cfg, ctx, required, 4);
    errors := [];
    var seen: set<Operation> := {};
    for i := 0 to |cfg.operations|
      invariant ListsBelow(cfg, ctx, errors, 5, i)
      invariant forall op :: op in seen <==> op in cfg.operations[..i]
    {
      hide Ordered, ListsBelow, ListsAt, Lists, SomeAssetCompatible;
      var op := cfg.operations[i];
      var more: seq<FieldError> := [];
      if op in seen {
        more := [OperationDuplicate(i)];
      } else {
        seen := seen + {op};
        if op.OtherOperation? {
          more := [OperationUnknown(i)];
        } else {
          var compatible := AnyAssetCompatible(cfg, ctx, op);
          if !compatible {
            more := [OperationIncompatible(i)];
          }
        }
      }
      OperationErrorsAt(cfg, ctx, i, more);
      NextIndex(cfg, ctx, errors, more, 5, i);
      errors := errors + more;
    }
    OperationBlockDone(cfg, ctx, errors);
    ListsJoin(cfg, ctx, required, errors, 4, 5, 6);
    errors := required + errors;
  }

  lemma OperationErrorsAt(cfg: Configuration, ctx: Context, i: nat, errors: seq<FieldError>)
    requires i < |cfg.operations|
    requires var op := cfg.operations[i];
      errors == if Repeats(cfg.operations, i) then [OperationDuplicate(i)]
                else if op.OtherOperation? then [OperationUnknown(i)]
                else if !SomeAssetCompatible(cfg, ctx, op) then [OperationIncompatible(i)] else []
    ensures ListsAt(cfg, ctx, errors, 5, i)
  {
    hide Repeats, SomeAssetCompatible;
  }

  lemma OperationBlockDone(cfg: Configuration, ctx: Context, errors: seq<FieldError>)
    requires ListsBelow(cfg, ctx, errors, 5, |cfg.operations|)
    ensures Lists(cfg, ctx, errors, 5, 6)
  {
    hide ListsBelow, Lists, SomeAssetCompatible;
    BlockDone(cfg, ctx, errors, 5, |cfg.operations|);
  }

  method CheckVisibility(cfg: Configuration, ctx: Context) returns (errors: seq<FieldError>)
    ensures Lists(cfg, ctx, errors, 6, 7)
  {
    errors := if cfg.visibility.OtherVisibility? then [VisibilityInvalid] else [];
    SingleBlock(cfg, ctx, errors, 6);
  }

  method ValidateBrainGrants(cfg: Configuration, ctx: Context) returns (errors: seq<FieldError>, grants: set<string>)
    ensures Lists(cfg, ctx, errors, 7, 8)
    ensures forall id :: id in grants <==> id in cfg.brainGrants
  {
    errors, grants := [], {};
    for i := 0 to |cfg.brainGrants|
      invariant ListsBelow(cfg, ctx, errors, 7, i)
      invariant forall id :: id in grants <==> id in cfg.brainGrants[..i]
    {
      hide Ordered, ListsBelow, ListsAt, Lists;
      var id := cfg.brainGrants[i];
      var more: seq<FieldError> := [];
      if id in grants {
        more := [BrainGrantDuplicate(i)];
      } else {
        grants := grants + {id};
        if id !in ctx.brains || !HasPrefix(id, "brain.") {
          more := [BrainGrantNotFound(i)];
        }
      }
      BrainGrantErrorsAt(cfg, ctx, i, more);
      NextIndex(cfg, ctx, errors, more, 7, i);
      errors := errors + more;
    }
    BrainGrantBlockDone(cfg, ctx, errors);
  }

  lemma BrainGrantErrorsAt(cfg: Configuration, ctx: Context, i: nat, errors: seq<FieldError>)
    requires i < |cfg.brainGrants|
    requires var id := cfg.brainGrants[i];
      errors == if Repeats(cfg.brainGrants, i) then [BrainGrantDuplicate(i)]
                else if id !in ctx.brains || !HasPrefix(id, "brain.") then [BrainGrantNotFound(i)] else []
    ensures ListsAt(cfg, ctx, errors, 7, i)
  {
    hide Repeats, HasPrefix;
  }

  lemma BrainGrantBlockDone(cfg: Configuration, ctx: Context, errors: seq<FieldError>)
    requires ListsBelow(cfg, ctx, errors, 7, |cfg.brainGrants|)
    ensures Lists(cfg, ctx, errors, 7, 8)
  {
    hide ListsBelow, Lists;
    BlockDone(cfg, ctx, errors, 7, |cfg.brainGrants|);
  }

  method ValidateServiceGrants(cfg: Configuration, ctx: Context) returns (errors: seq<FieldError>, grants: set<string>)
    ensures Lists(cfg, ctx, errors, 8, 9)
    ensures forall id :: id in grants <==> id in cfg.serviceGrants
  {
    errors, grants := [], {};
    for i := 0 to |cfg.serviceGrants|
      invariant ListsBelow(cfg, ctx, errors, 8, i)
      invariant forall id :: id in grants <==> id in cfg.serviceGrants[..i]
    {
      hide Ordered, ListsBelow, ListsAt, Lists;
      var id := cfg.serviceGrants[i];
      var more: seq<FieldError> := [];
      if id in grants {
        more := [ServiceGrantDuplicate(i)];
      } else {
        grants := grants + {id};
        if id !in ctx.services || !HasPrefix(id, "service.") {
          more := [ServiceGrantNotFound(i)];
        }
      }
      ServiceGrantErrorsAt(cfg, ctx, i, more);
      NextIndex(cfg, ctx, errors, more, 8, i);
      errors := errors + more;
    }
    ServiceGrantBlockDone(cfg, ctx, errors);
  }

  lemma ServiceGrantErrorsAt(cfg: Configuration, ctx: Context, i: nat, errors: seq<FieldError>)
    requires i < |cfg.serviceGrants|
    requires var id := cfg.serviceGrants[i];
      errors == if Repeats(cfg.serviceGrants, i) then [ServiceGrantDuplicate(i)]
                else if id !in ctx.services || !HasPrefix(id, "service.") then [ServiceGrantNotFound(i)] else []
    ensures ListsAt(cfg, ctx, errors, 8, i)
  {
    hide Repeats, HasPrefix;
  }

  lemma ServiceGrantBlockDone(cfg: Configuration, ctx: Context, errors: seq<FieldError>)
    requires ListsBelow(cfg, ctx, errors, 8, |cfg.serviceGrants|)
    ensures Lists(cfg, ctx, errors, 8, 9)
  {
    hide ListsBelow, Lists;
    BlockDone(cfg, ctx, errors, 8, |cfg.serviceGrants|);
  }

  method CheckState(cfg: Configuration, ctx: Context) returns (errors: seq<FieldError>)
    ensures Lists(cfg, ctx, errors, 9, 11)
  {
    var invalid := if cfg.state.OtherState? then [StateInvalid] else [];
    SingleBlock(cfg, ctx, invalid, 9);
    var missing := if cfg.state == Enabled && cfg.route.None? then [RouteRequired] else [];
    SingleBlock(cfg, ctx, missing, 10);
    ListsJoin(cfg, ctx, invalid, missing, 9, 10, 11);
    errors := invalid + missing;
  }

  method CheckHops(cfg: Configuration, ctx: Context) returns (errors: seq<FieldError>, distinctHops: set<string>)
    requires cfg.route.Some?
    ensures Lists(cfg, ctx, errors, 11, 13)
    ensures forall id :: id in distinctHops <==> id in cfg.route.value.hops
  {
    var hops := cfg.route.value.hops;
    var long := if |hops| > HopBound(ctx.maxHops) then [HopsTooLong] else [];
    SingleBlock(cfg, ctx, long, 11);
    errors, distinctHops := [], {};
    for i := 0 to |hops|
      invariant ListsBelow(cfg, ctx, errors, 12, i)
      invariant forall id :: id in distinctHops <==> id in hops[..i]
    {
      hide Ordered, ListsBelow, ListsAt, Lists;
      var more := if hops[i] !in ctx.services then [HopNotFound(i)] else [];
      distinctHops := distinctHops + {hops[i]};
      HopErrorsAt(cfg, ctx, i, more);
      NextIndex(cfg, ctx, errors, more, 12, i);
      errors := errors + more;
    }
    HopBlockDone(cfg, ctx, errors);
    ListsJoin(cfg, ctx, long, errors, 11, 12, 13);
    errors := long + errors;
  }

  lemma HopErrorsAt(cfg: Configuration, ctx: Context, i: nat, errors: seq<FieldError>)
    requires cfg.route.Some? && i < |cfg.route.value.hops|
    requires errors == if cfg.route.value.hops[i] !in ctx.services then [HopNotFound(i)] else []
    ensures ListsAt(cfg, ctx, errors, 12, i)
  {
  }

  lemma HopBlockDone(cfg: Configuration, ctx: Context, errors: seq<FieldError>)
    requires cfg.route.Some? && ListsBelow(cfg, ctx, errors, 12, |cfg.route.value.hops|)
    ensures Lists(cfg, ctx, errors, 12, 13)
  {
    hide ListsBelow, Lists;
    BlockDone(cfg, ctx, errors, 12, |cfg.route.value.hops|);
  }

  method CheckTerminal(cfg: Configuration, ctx: Context) returns (errors: seq<FieldError>, terminalValid: bool)
    requires cfg.route.Some?
    ensures Lists(cfg, ctx, errors, 13, 14)
    ensures terminalValid <==> TerminalValid(cfg.route.value.terminal, ctx)
  {
    var terminal := cfg.route.value.terminal;
    terminalValid := terminal == "caller" || (terminal in ctx.brains && HasPrefix(terminal, "brain."));
    errors := if terminalValid then [] else [TerminalInvalid];
    hide HasPrefix;
    SingleBlock(cfg, ctx, errors, 13);
  }

  /** Map iteration: the distinct hops in any order. */
  method CheckRouteGrants(cfg: Configuration, ctx: Context, distinctHops: set<string>, serviceGrants: set<string>)
    returns (errors: seq<FieldError>)
    requires cfg.route.Some? && PrivateAndEnabled(cfg)
    requires forall id :: id in distinctHops <==> id in cfg.route.value.hops
    requires forall id :: id in serviceGrants <==> id in cfg.serviceGrants
    ensures Lists(cfg, ctx, errors, 14, 15)
  {
    errors := [];
    var left := distinctHops;
    while left != {}
      invariant left <= distinctHops
      invariant Ordered(errors)
      invariant forall e :: e in errors <==>
        e.MissingRouteService? && e.service in distinctHops - left && e.service !in serviceGrants
      decreases left
    {
      var id :| id in left;
      left := left - {id};
      if id !in serviceGrants {
        AppendMissing(errors, id);
        errors := errors + [MissingRouteService(id)];
      }
    }
    MissingBlock(cfg, ctx, errors);
  }

  lemma AppendMissing(errors: seq<FieldError>, id: string)
    requires Ordered(errors) && MissingRouteService(id) !in errors
    requires forall e :: e in errors ==> e.MissingRouteService?
    ensures Ordered(errors + [MissingRouteService(id)])
  {
    hide Rank;
    forall i | 0 <= i < |errors| ensures Before(errors[i], MissingRouteService(id)) {
      assert errors[i] in errors;
    }
  }

  lemma MissingBlock(cfg: Configuration, ctx: Context, errors: seq<FieldError>)
    requires cfg.route.Some? && PrivateAndEnabled(cfg) && Ordered(errors)
    requires forall e :: e in errors <==>
      e.MissingRouteService? && e.service in cfg.route.value.hops && e.service !in cfg.serviceGrants
    ensures Lists(cfg, ctx, errors, 14, 15)
  {
    hide Ordered, TerminalValid;
  }

  method CheckRoute(cfg: Configuration, ctx: Context, brainGrants: set<string>, serviceGrants: set<string>)
    returns (errors: seq<FieldError>)
    requires forall id :: id in brainGrants <==> id in cfg.brainGrants
    requires forall id :: id in serviceGrants <==> id in cfg.serviceGrants
    ensures Lists(cfg, ctx, errors, 11, 16)
  {
    if cfg.route.None? {
      NoRouteBlocks(cfg, ctx);
      return [];
    }
    var hopErrors, distinctHops := CheckHops(cfg, ctx);
    var terminalErrors, terminalValid := CheckTerminal(cfg, ctx);
    var missing: seq<FieldError>, destination: seq<FieldError> := [], [];
    if cfg.visibility == Private && cfg.state == Enabled {
      missing := CheckRouteGrants(cfg, ctx, distinctHops, serviceGrants);
      var terminal := cfg.route.value.terminal;
      if terminalValid && terminal != "caller" && terminal != ctx.source.canonical && terminal !in brainGrants {
        destination := [MissingDestination];
      }
    } else {
      PublicBlocks(cfg, ctx);
    }
    DestinationBlock(cfg, ctx, destination, terminalValid);
    hide Lists;
    ListsJoin(cfg, ctx, hopErrors, terminalErrors, 11, 13, 14);
    ListsJoin(cfg, ctx, hopErrors + terminalErrors, missing, 11, 14, 15);
    ListsJoin(cfg, ctx, hopErrors + terminalErrors + missing, destination, 11, 15, 16);
    errors := hopErrors + terminalErrors + missing + destination;
  }

  lemma NoRouteBlocks(cfg: Configuration, ctx: Context)
    requires cfg.route.None?
    ensures Lists(cfg, ctx, [], 11, 16)
  {
  }

  lemma PublicBlocks(cfg: Configuration, ctx: Context)
    requires !PrivateAndEnabled(cfg)
    ensures Lists(cfg, ctx, [], 14, 15)
  {
  }

  lemma DestinationBlock(cfg: Configuration, ctx: Context, errors: seq<FieldError>, terminalValid: bool)
    requires cfg.route.Some? && (terminalValid <==> TerminalValid(cfg.route.value.terminal, ctx))
    requires var terminal := cfg.route.value.terminal;
      errors == if PrivateAndEnabled(cfg) && terminalValid && terminal != "caller" && terminal != ctx.source.canonical
                   && terminal !in cfg.brainGrants then [MissingDestination] else []
    ensures Lists(cfg, ctx, errors, 15, 16)
  {
    hide TerminalValid;
    SingleBlock(cfg, ctx, errors, 15);
  }

  method CheckAssetStates(cfg: Configuration, ctx: Context) returns (errors: seq<FieldError>)
    ensures Lists(cfg, ctx, errors, 16, 17)
  {
    errors := [];
    if cfg.state != Enabled {
      NotEnabledBlock(cfg, ctx);
      return;
    }
    for i := 0 to |cfg.assetIds|
      invariant ListsBelow(cfg, ctx, errors, 16, i)
    {
      hide Ordered, ListsBelow, ListsAt, Lists;
      var id := cfg.assetIds[i];
      var more: seq<FieldError> := [];
      if id in ctx.assets {
        match ctx.assets[id].state {
          case Ready =>
          case ParseFailed =>
            if |cfg.operations| != 1 || cfg.operations[0] != RawRead {
              more := [AssetParseFailedAt(i)];
            }
          case _ => more := [AssetUnavailableAt(i)];
        }
      }
      AssetStateErrorsAt(cfg, ctx, i, more);
      NextIndex(cfg, ctx, errors, more, 16, i);
      errors := errors + more;
    }
    AssetStateBlockDone(cfg, ctx, errors);
  }

  lemma NotEnabledBlock(cfg: Configuration, ctx: Context)
    requires cfg.state != Enabled
    ensures Lists(cfg, ctx, [], 16, 17)
  {
  }

  lemma AssetStateErrorsAt(cfg: Configuration, ctx: Context, i: nat, errors: seq<FieldError>)
    requires i < |cfg.assetIds| && cfg.state == Enabled
    requires var id := cfg.assetIds[i];
      errors == if id !in ctx.assets || ctx.assets[id].state == Ready then []
                else if ctx.assets[id].state == ParseFailed
                then if cfg.operations != [RawRead] then [AssetParseFailedAt(i)] else []
                else [AssetUnavailableAt(i)]
    ensures ListsAt(cfg, ctx, errors, 16, i)
  {
  }

  lemma AssetStateBlockDone(cfg: Configuration, ctx: Context, errors: seq<FieldError>)
    requires ListsBelow(cfg, ctx, errors, 16, |cfg.assetIds|)
    ensures Lists(cfg, ctx, errors, 16, 17)
  {
    hide ListsBelow, Lists;
    BlockDone(cfg, ctx, errors, 16, |cfg.assetIds|);
  }

  /** Every owner-actionable error, in validation order, and nothing else. */
  method ValidateConfiguration(cfg: Configuration, ctx: Context) returns (fields: seq<FieldError>)
    ensures Ordered(fields)
    ensures forall e :: e in fields <==> Reported(cfg, ctx, e)
    ensures fields == [] <==> ValidConfiguration(cfg, ctx)
  {
    var source := CheckSource(cfg, ctx);
    var path := CheckPath(cfg, ctx);
    var assets := CheckAssets(cfg, ctx);
    var operations := CheckOperations(cfg, ctx);
    var visibility := CheckVisibility(cfg, ctx);
    var brainErrors, brainGrants := ValidateBrainGrants(cfg, ctx);
    var serviceErrors, serviceGrants := ValidateServiceGrants(cfg, ctx);
    var state := CheckState(cfg, ctx);
    var route := CheckRoute(cfg, ctx, brainGrants, serviceGrants);
    var states := CheckAssetStates(cfg, ctx);
    fields := source + path + assets + operations + visibility + brainErrors + serviceErrors + state + route + states;
    Joined(cfg, ctx, source, path, assets, operations, visibility, brainErrors, serviceErrors, state, route, states);
    AllBlocks(cfg, ctx, fields);
    NothingReported(cfg, ctx);
    hide *;
    if fields != [] {
      assert fields[0] in fields;
    }
  }

  lemma Joined(cfg: Configuration, ctx: Context, source: seq<FieldError>, path: seq<FieldError>,
               assets: seq<FieldError>,
               operations: seq<FieldError>, visibility: seq<FieldError>, brains: seq<FieldError>,
               services: seq<FieldError>, state: seq<FieldError>, route: seq<FieldError>, states: seq<FieldError>)
    requires Lists(cfg, ctx, source, 0, 1) && Lists(cfg, ctx, path, 1, 2) && Lists(cfg, ctx, assets, 2, 4)
    requires Lists(cfg, ctx, operations, 4, 6) && Lists(cfg, ctx, visibility, 6, 7)
    requires Lists(cfg, ctx, brains, 7, 8) && Lists(cfg, ctx, services, 8, 9) && Lists(cfg, ctx, state, 9, 11)
    requires Lists(cfg, ctx, route, 11, 16) && Lists(cfg, ctx, states, 16, 17)
    ensures Lists(cfg, ctx,
                  source + path + assets + operations + visibility + brains + services + state + route + states, 0, 17)
  {
    hide *;
    var all := source;
    ListsJoin(cfg, ctx, all, path, 0, 1, 2);
    all := all + path;
    ListsJoin(cfg, ctx, all, assets, 0, 2, 4);
    all := all + assets;
    ListsJoin(cfg, ctx, all, operations, 0, 4, 6);
    all := all + operations;
    ListsJoin(cfg, ctx, all, visibility, 0, 6, 7);
    all := all + visibility;
    ListsJoin(cfg, ctx, all, brains, 0, 7, 8);
    all := all + brains;
    ListsJoin(cfg, ctx, all, services, 0, 8, 9);
    all := all + services;
    ListsJoin(cfg, ctx, all, state, 0, 9, 11);
    all := all + state;
    ListsJoin(cfg, ctx, all, route, 0, 11, 16);
    all := all + route;
    ListsJoin(cfg, ctx, all, states, 0, 16, 17);
  }

  lemma AllBlocks(cfg: Configuration, ctx: Context, fields: seq<FieldError>)
    requires Lists(cfg, ctx, fields, 0, 17)
    ensures Ordered(fields) && forall e :: e in fields <==> Reported(cfg, ctx, e)
  {
    hide Reported, Ordered;
  }

  /** The reported set and the order determine the list, unless Services are missing. */
  lemma {:induction false} OrderIsStable(a: seq<FieldError>, b: seq<FieldError>)
    requires Ordered(a) && Ordered(b) && forall e :: e in a <==> e in b
    requires forall e :: e in a ==> !e.MissingRouteService?
    ensures a == b
  {
    if a == [] {
      HasElement(b);
    } else {
      hide Rank, Ordered;
      assert a[0] in b && b != [] && b[0] in a;
      if a[0] != b[0] {
        FirstIsLeast(a, b[0]);
        FirstIsLeast(b, a[0]);
      }
      TailHasRest(a);
      TailHasRest(b);
      OrderIsStable(a[1..], b[1..]);
      assert a == [a[0]] + a[1..] && b == [b[0]] + b[1..];
    }
  }

  lemma HasElement(b: seq<FieldError>)
    ensures b != [] ==> exists e :: e in b
  {
    if b != [] {
      assert b[0] in b;
    }
  }

  lemma FirstIsLeast(a: seq<FieldError>, e: FieldError)
    requires Ordered(a) && e in a && e != a[0] && !a[0].MissingRouteService?
    ensures Before(a[0], e) && !Before(e, a[0])
  {
    hide Rank;
    var i :| 0 <= i < |a| && a[i] == e;
    assert Before(a[0], a[i]);
  }

  lemma TailHasRest(a: seq<FieldError>)
    requires Ordered(a) && a != [] && !a[0].MissingRouteService?
    ensures Ordered(a[1..]) && forall e :: e in a[1..] <==> e in a && e != a[0]
  {
    hide Rank;
    forall e | e in a[1..] ensures e != a[0] {
      var k :| 0 <= k < |a[1..]| && a[1..][k] == e;
      assert Before(a[0], a[k + 1]);
    }
    forall e | e in a && e != a[0] ensures e in a[1..] {
      var k :| 0 <= k < |a| && a[k] == e;
      assert a[1..][k - 1] == e;
    }
    forall i, j | 0 <= i < j < |a[1..]| ensures Before(a[1..][i], a[1..][j]) {
      assert Before(a[i + 1], a[j + 1]);
    }
  }

  // ------------------------------------------------------- what validity means

  predicate ValidScope(cfg: Configuration, ctx: Context) {
    && cfg.assetIds != [] && Distinct(cfg.assetIds)
    && (forall k | 0 <= k < |cfg.assetIds| ::
          cfg.assetIds[k] in ctx.assets && ctx.assets[cfg.assetIds[k]].brain == ctx.source.id)
    && cfg.operations != [] && Distinct(cfg.operations)
    && (forall k | 0 <= k < |cfg.operations| ::
          !cfg.operations[k].OtherOperation? && SomeAssetCompatible(cfg, ctx, cfg.operations[k]))
  }

  predicate ValidGrants(cfg: Configuration, ctx: Context) {
    && Distinct(cfg.brainGrants) && Distinct(cfg.serviceGrants)
    && (forall k | 0 <= k < |cfg.brainGrants| ::
          cfg.brainGrants[k] in ctx.brains && HasPrefix(cfg.brainGrants[k], "brain."))
    && (forall k | 0 <= k < |cfg.serviceGrants| ::
          cfg.serviceGrants[k] in ctx.services && HasPrefix(cfg.serviceGrants[k], "service."))
  }

  predicate ValidRoute(cfg: Configuration, ctx: Context) {
    && (cfg.state == Enabled ==> cfg.route.Some?)
    && (cfg.route.Some? ==>
          && |cfg.route.value.hops| <= HopBound(ctx.maxHops)
          && (forall k | 0 <= k < |cfg.route.value.hops| :: cfg.route.value.hops[k] in ctx.services)
          && TerminalValid(cfg.route.value.terminal, ctx))
    && (cfg.route.Some? && PrivateAndEnabled(cfg) ==>
          && (forall k | 0 <= k < |cfg.route.value.hops| :: cfg.route.value.hops[k] in cfg.serviceGrants)
          && cfg.route.value.terminal in {"caller", ctx.source.canonical} + Elements(cfg.brainGrants))
  }

  predicate RunnableAssets(cfg: Configuration, ctx: Context) {
    cfg.state == Enabled ==>
      forall k | 0 <= k < |cfg.assetIds| && cfg.assetIds[k] in ctx.assets ::
        var state := ctx.assets[cfg.assetIds[k]].state;
        state == Ready || (state == ParseFailed && cfg.operations == [RawRead])
  }

  predicate ValidHeader(cfg: Configuration, ctx: Context) {
    && ctx.source.id != "" && ctx.source.owner == ctx.actor
    && IsQueryPath(cfg.path) && (cfg.path in ctx.existingPaths ==> ctx.existingPaths[cfg.path] == cfg.queryPathId)
    && !cfg.visibility.OtherVisibility? && !cfg.state.OtherState?
  }

  predicate ValidConfiguration(cfg: Configuration, ctx: Context) {
    ValidHeader(cfg, ctx) && ValidScope(cfg, ctx) && ValidGrants(cfg, ctx) && ValidRoute(cfg, ctx)
      && RunnableAssets(cfg, ctx)
  }

  lemma DistinctMeansNoRepeat<T>(s: seq<T>)
    ensures Distinct(s) <==> forall i: nat :: !Repeats(s, i)
  {
    if !Distinct(s) {
      var i, j :| 0 <= i < j < |s| && s[i] == s[j];
      assert s[..j][i] == s[j];
      assert Repeats(s, j);
    }
  }

  /** No error is reported exactly when the configuration is valid. */
  lemma NothingReported(cfg: Configuration, ctx: Context)
    ensures ValidConfiguration(cfg, ctx) <==> forall e :: !Reported(cfg, ctx, e)
  {
    if ValidConfiguration(cfg, ctx) {
      forall e ensures !Reported(cfg, ctx, e) {
        ValidReportsNothing(cfg, ctx, e);
      }
    }
    if forall e :: !Reported(cfg, ctx, e) {
      CleanHeader(cfg, ctx);
      CleanScope(cfg, ctx);
      CleanGrants(cfg, ctx);
      CleanRoute(cfg, ctx);
      CleanAssetStates(cfg, ctx);
    }
  }

  lemma ValidReportsNothing(cfg: Configuration, ctx: Context, e: FieldError)
    requires ValidConfiguration(cfg, ctx)
    ensures !Reported(cfg, ctx, e)
  {
    hide IsQueryPath, TerminalValid, SomeAssetCompatible, Distinct, Repeats, HasPrefix;
    DistinctMeansNoRepeat(cfg.assetIds);
    DistinctMeansNoRepeat(cfg.operations);
    DistinctMeansNoRepeat(cfg.brainGrants);
    DistinctMeansNoRepeat(cfg.serviceGrants);
  }

  lemma CleanHeader(cfg: Configuration, ctx: Context)
    requires forall e :: !Reported(cfg, ctx, e)
    ensures ValidHeader(cfg, ctx)
  {
    hide IsQueryPath;
    assert !Reported(cfg, ctx, SourceNotFound) && !Reported(cfg, ctx, SourceNotOwned);
    assert !Reported(cfg, ctx, PathInvalid) && !Reported(cfg, ctx, PathNotUnique);
    assert !Reported(cfg, ctx, VisibilityInvalid) && !Reported(cfg, ctx, StateInvalid);
  }

  lemma CleanScope(cfg: Configuration, ctx: Context)
    requires forall e :: !Reported(cfg, ctx, e)
    ensures ValidScope(cfg, ctx)
  {
    hide SomeAssetCompatible, Distinct, Repeats, IsQueryPath;
    assert !Reported(cfg, ctx, AssetsRequired) && !Reported(cfg, ctx, OperationsRequired);
    assert !Reported(cfg, ctx, SourceNotFound);
    forall i: nat ensures !Repeats(cfg.assetIds, i) { assert !Reported(cfg, ctx, AssetDuplicate(i)); }
    forall i: nat ensures !Repeats(cfg.operations, i) { assert !Reported(cfg, ctx, OperationDuplicate(i)); }
    DistinctMeansNoRepeat(cfg.assetIds);
    DistinctMeansNoRepeat(cfg.operations);
    forall k | 0 <= k < |cfg.assetIds|
      ensures cfg.assetIds[k] in ctx.assets && ctx.assets[cfg.assetIds[k]].brain == ctx.source.id
    {
      assert !Reported(cfg, ctx, AssetNotFound(k)) && !Reported(cfg, ctx, AssetWrongBrain(k));
    }
    forall k | 0 <= k < |cfg.operations|
      ensures !cfg.operations[k].OtherOperation? && SomeAssetCompatible(cfg, ctx, cfg.operations[k])
    {
      assert !Reported(cfg, ctx, OperationUnknown(k)) && !Reported(cfg, ctx, OperationIncompatible(k));
    }
  }

  lemma CleanGrants(cfg: Configuration, ctx: Context)
    requires forall e :: !Reported(cfg, ctx, e)
    ensures ValidGrants(cfg, ctx)
  {
    hide Distinct, Repeats, HasPrefix;
    forall i: nat ensures !Repeats(cfg.brainGrants, i) { assert !Reported(cfg, ctx, BrainGrantDuplicate(i)); }
    forall i: nat ensures !Repeats(cfg.serviceGrants, i) { assert !Reported(cfg, ctx, ServiceGrantDuplicate(i)); }
    DistinctMeansNoRepeat(cfg.brainGrants);
    DistinctMeansNoRepeat(cfg.serviceGrants);
    forall k | 0 <= k < |cfg.brainGrants|
      ensures cfg.brainGrants[k] in ctx.brains && HasPrefix(cfg.brainGrants[k], "brain.")
    {
      assert !Reported(cfg, ctx, BrainGrantNotFound(k));
    }
    forall k | 0 <= k < |cfg.serviceGrants|
      ensures cfg.serviceGrants[k] in ctx.services && HasPrefix(cfg.serviceGrants[k], "service.")
    {
      assert !Reported(cfg, ctx, ServiceGrantNotFound(k));
    }
  }

  lemma CleanRoute(cfg: Configuration, ctx: Context)
    requires forall e :: !Reported(cfg, ctx, e)
    ensures ValidRoute(cfg, ctx)
  {
    hide TerminalValid;
    assert !Reported(cfg, ctx, RouteRequired) && !Reported(cfg, ctx, HopsTooLong);
    assert !Reported(cfg, ctx, TerminalInvalid) && !Reported(cfg, ctx, MissingDestination);
    if cfg.route.Some? {
      var hops := cfg.route.value.hops;
      forall k | 0 <= k < |hops|
        ensures hops[k] in ctx.services && (PrivateAndEnabled(cfg) ==> hops[k] in cfg.serviceGrants)
      {
        assert !Reported(cfg, ctx, HopNotFound(k)) && !Reported(cfg, ctx, MissingRouteService(hops[k]));
      }
    }
  }

  lemma CleanAssetStates(cfg: Configuration, ctx: Context)
    requires forall e :: !Reported(cfg, ctx, e)
    ensures RunnableAssets(cfg, ctx)
  {
    forall k | 0 <= k < |cfg.assetIds| && cfg.assetIds[k] in ctx.assets && cfg.state == Enabled
      ensures var state := ctx.assets[cfg.assetIds[k]].state;
        state == Ready || (state == ParseFailed && cfg.operations == [RawRead])
    {
      assert !Reported(cfg, ctx, AssetParseFailedAt(k)) && !Reported(cfg, ctx, AssetUnavailableAt(k));
    }
  }
}

/** What a valid configuration is, by its fields alone. */
module ValidityLaws {
  import opened Prelude
  import opened Domain
  import opened Validation

  predicate Different<T(==)>(s: seq<T>) {
    forall i, j | 0 <= i < j < |s| :: s[i] != s[j]
  }

  /** The caller, or an existing Brain under its canonical ID. */
  predicate Receives(terminal: string, ctx: Context) {
    terminal == "caller" || (terminal in ctx.brains && |terminal| >= 6 && terminal[..6] == "brain.")
  }

  predicate RouteIsValid(cfg: Configuration, ctx: Context, route: RouteConfig) {
    && |route.hops| <= (if 1 <= ctx.maxHops <= 20 then ctx.maxHops else 20)
    && (forall i | 0 <= i < |route.hops| :: route.hops[i] in ctx.services) && Receives(route.terminal, ctx)
    && (cfg.visibility == Private && cfg.state == Enabled ==>
          && (forall i | 0 <= i < |route.hops| :: route.hops[i] in cfg.serviceGrants)
          && (route.terminal == "caller" || route.terminal == ctx.source.canonical
              || route.terminal in cfg.brainGrants))
  }

  predicate IsValid(cfg: Configuration, ctx: Context) {
    && ctx.source.id != "" && ctx.source.owner == ctx.actor && IsQueryPath(cfg.path)
    && (cfg.path in ctx.existingPaths ==> ctx.existingPaths[cfg.path] == cfg.queryPathId)
    && cfg.assetIds != [] && Different(cfg.assetIds)
    && (forall i | 0 <= i < |cfg.assetIds| ::
          && cfg.assetIds[i] in ctx.assets && ctx.assets[cfg.assetIds[i]].brain == ctx.source.id
          && (cfg.state == Enabled ==>
                || ctx.assets[cfg.assetIds[i]].state == Ready
                || (ctx.assets[cfg.assetIds[i]].state == ParseFailed && cfg.operations == [RawRead])))
    && cfg.operations != [] && Different(cfg.operations)
    && (forall i | 0 <= i < |cfg.operations| ::
          cfg.operations[i] in {RawRead, TextSearchOp, CsvQueryOp} && SomeAssetCompatible(cfg, ctx, cfg.operations[i]))
    && cfg.visibility in {Public, Private} && cfg.state in {Draft, Enabled, Disabled}
    && Different(cfg.brainGrants) && Different(cfg.serviceGrants)
    && (forall i | 0 <= i < |cfg.brainGrants| ::
          cfg.brainGrants[i] in ctx.brains && |cfg.brainGrants[i]| >= 6 && cfg.brainGrants[i][..6] == "brain.")
    && (forall i | 0 <= i < |cfg.serviceGrants| ::
          cfg.serviceGrants[i] in ctx.services && |cfg.serviceGrants[i]| >= 8
            && cfg.serviceGrants[i][..8] == "service.")
    && (cfg.state == Enabled ==> cfg.route.Some?)
    && (cfg.route.Some? ==> RouteIsValid(cfg, ctx, cfg.route.value))
  }

  lemma PrefixWhen(s: string, prefix: string)
    ensures HasPrefix(s, prefix) <==> |s| >= |prefix| && s[..|prefix|] == prefix
  {
  }

  lemma RouteIsValidWhen(cfg: Configuration, ctx: Context)
    ensures ValidRoute(cfg, ctx) <==>
      && (cfg.state == Enabled ==> cfg.route.Some?)
      && (cfg.route.Some? ==> RouteIsValid(cfg, ctx, cfg.route.value))
  {
    if cfg.route.Some? {
      PrefixWhen(cfg.route.value.terminal, "brain.");
    }
  }

  lemma GrantsAreValidWhen(cfg: Configuration, ctx: Context)
    ensures ValidGrants(cfg, ctx) <==>
      && Different(cfg.brainGrants) && Different(cfg.serviceGrants)
      && (forall i | 0 <= i < |cfg.brainGrants| ::
            cfg.brainGrants[i] in ctx.brains && |cfg.brainGrants[i]| >= 6 && cfg.brainGrants[i][..6] == "brain.")
      && (forall i | 0 <= i < |cfg.serviceGrants| ::
            cfg.serviceGrants[i] in ctx.services && |cfg.serviceGrants[i]| >= 8
              && cfg.serviceGrants[i][..8] == "service.")
  {
    forall s: string ensures HasPrefix(s, "brain.") <==> |s| >= 6 && s[..6] == "brain." {
      PrefixWhen(s, "brain.");
    }
    forall s: string ensures HasPrefix(s, "service.") <==> |s| >= 8 && s[..8] == "service." {
      PrefixWhen(s, "service.");
    }
    hide HasPrefix;
  }

  lemma ValidWhen(cfg: Configuration, ctx: Context)
    ensures ValidConfiguration(cfg, ctx) <==> IsValid(cfg, ctx)
  {
    RouteIsValidWhen(cfg, ctx);
    GrantsAreValidWhen(cfg, ctx);
    hide IsQueryPath, SomeAssetCompatible, RouteIsValid, ValidRoute, ValidGrants;
  }
}

module Authorization {
  import opened Prelude
  import opened Domain
  import opened Validation

  datatype Input = Input(
    mode: Mode, visibility: Visibility, source: string, initiating: string, owned: bool, registered: bool,
    terminal: string, brainGrants: seq<string>, serviceGrants: seq<string>, hops: seq<string>, maxHops: int)

  function ResolveTerminal(mode: Mode, terminal: string, source: string, initiating: string): Result<string, Code> {
    if mode.OtherMode? then Err(RouteInvalid)
    else if terminal == "caller" then
      if mode == Push then Err(RouteInvalid)
      else if initiating == "" then Err(RouteInvalid)
      else Ok(initiating)
    else if !IsBrainId(terminal) then Err(RouteInvalid)
    else if mode == Pull && initiating != terminal then Err(DestinationMismatch)
    else if mode == Push && initiating != source then Err(NotAuthorized)
    else Ok(terminal)
  }

  /** Who a private path lets through once the destination is known. */
  predicate Permitted(brainGrants: set<string>, serviceGrants: set<string>, hops: set<string>,
                      source: string, initiating: string, destination: string)
  {
    && (initiating == source || initiating in brainGrants)
    && (destination == source || destination in brainGrants)
    && hops <= serviceGrants
  }

  /** The decision, from the grants and hops as sets. */
  function Decision(a: Input): Result<string, Code> {
    if !a.owned then Err(InitiatorNotOwned)
    else if !a.registered then Err(NodeNotFound)
    else if |a.hops| > HopBound(a.maxHops) then Err(RouteTooLong)
    else
      var destination := ResolveTerminal(a.mode, a.terminal, a.source, a.initiating);
      if destination.Err? || a.visibility == Public then destination
      else if a.visibility != Private then Err(RouteInvalid)
      else if Permitted(Elements(a.brainGrants), Elements(a.serviceGrants), Elements(a.hops),
                        a.source, a.initiating, destination.value) then destination
      else Err(PrincipalNotAuthorized)
  }

  method ValueSet(values: seq<string>) returns (s: set<string>)
    ensures s == Elements(values)
  {
    s := {};
    for i := 0 to |values|
      invariant s == Elements(values[..i])
    {
      s := s + {values[i]};
    }
    assert values[..|values|] == values;
  }

  method Authorize(a: Input) returns (r: Result<string, Code>)
    ensures r == Decision(a)
  {
    hide IsBrainId;
    if !a.owned {
      return Err(InitiatorNotOwned);
    }
    if !a.registered {
      return Err(NodeNotFound);
    }
    if |a.hops| > HopBound(a.maxHops) {
      return Err(RouteTooLong);
    }
    var destination := ResolveTerminal(a.mode, a.terminal, a.source, a.initiating);
    if destination.Err? || a.visibility == Public {
      return destination;
    }
    if a.visibility != Private {
      return Err(RouteInvalid);
    }
    var brainGrants := ValueSet(a.brainGrants);
    if a.initiating != a.source && a.initiating !in brainGrants {
      return Err(PrincipalNotAuthorized);
    }
    if destination.value != a.source && destination.value !in brainGrants {
      return Err(PrincipalNotAuthorized);
    }
    var serviceGrants := ValueSet(a.serviceGrants);
    var checked: set<string> := {};
    for i := 0 to |a.hops|
      invariant checked <= serviceGrants
      invariant forall k | 0 <= k < i :: a.hops[k] in checked
    {
      var service := a.hops[i];
      if service !in checked {
        if service !in serviceGrants {
          assert service in Elements(a.hops);
          return Err(PrincipalNotAuthorized);
        }
        checked := checked + {service};
      }
    }
    return destination;
  }

  /** A limit within range is the bound on hops, and the schema's limit is it otherwise. */
  lemma TooLongWhen(a: Input)
    requires a.owned && a.registered
    ensures 1 <= a.maxHops <= 20 ==> (Decision(a) == Err(RouteTooLong) <==> |a.hops| > a.maxHops)
    ensures !(1 <= a.maxHops <= 20) ==> (Decision(a) == Err(RouteTooLong) <==> |a.hops| > 20)
  {
    hide IsBrainId, Permitted;
  }

  /** Only the sets of grants and hops matter, apart from the length of the route. */
  lemma DependsOnSets(a: Input, b: Input)
    requires a.(brainGrants := b.brainGrants, serviceGrants := b.serviceGrants, hops := b.hops) == b
    requires Elements(a.brainGrants) == Elements(b.brainGrants)
             && Elements(a.serviceGrants) == Elements(b.serviceGrants)
    requires Elements(a.hops) == Elements(b.hops)
    requires |a.hops| <= HopBound(a.maxHops) <==> |b.hops| <= HopBound(b.maxHops)
    ensures Decision(a) == Decision(b)
  {
    hide ResolveTerminal, IsBrainId;
  }

  /** More grants never revoke a permission, and change nothing but PRINCIPAL_NOT_AUTHORIZED. */
  lemma MoreGrants(a: Input, b: Input)
    requires a.(brainGrants := b.brainGrants, serviceGrants := b.serviceGrants) == b
    requires Elements(a.brainGrants) <= Elements(b.brainGrants)
             && Elements(a.serviceGrants) <= Elements(b.serviceGrants)
    ensures Decision(a).Ok? ==> Decision(b) == Decision(a)
    ensures Decision(a) != Decision(b) ==> Decision(a) == Err(PrincipalNotAuthorized)
  {
    hide ResolveTerminal, IsBrainId;
  }

  /** The run-time input an enabled configuration gives rise to. */
  function InputFor(cfg: Configuration, ctx: Context, mode: Mode, initiating: string): Input
    requires cfg.route.Some?
  {
    Input(mode, cfg.visibility, ctx.source.canonical, initiating, true, true, cfg.route.value.terminal,
          cfg.brainGrants, cfg.serviceGrants, cfg.route.value.hops, ctx.maxHops)
  }

  /** Registered Brains carry well-formed canonical IDs, as the schema checks. */
  predicate RegisteredIds(ctx: Context) {
    && IsBrainId(ctx.source.canonical)
    && forall id | id in ctx.brains :: IsBrainId(id)
  }

  /** What the owner's accepted, enabled configuration lets run: a push by the
      source with a fixed terminal, and a pull by any Brain that is the fixed
      terminal, if there is one, and is the source or granted, if the path is
      private.  Nothing else, and the destination is the saved one. */
  lemma AcceptedIsRunnable(cfg: Configuration, ctx: Context, mode: Mode, initiating: string)
    requires ValidConfiguration(cfg, ctx) && cfg.state == Enabled && RegisteredIds(ctx)
    requires (mode == Pull || mode == Push) && initiating != ""
    ensures cfg.route.Some?
    ensures var terminal, source := cfg.route.value.terminal, ctx.source.canonical;
      var decision := Decision(InputFor(cfg, ctx, mode, initiating));
      var mayRun :=
        if mode == Push then terminal != "caller" && initiating == source
        else (terminal == "caller" || terminal == initiating)
             && (cfg.visibility == Public || initiating == source || initiating in cfg.brainGrants);
      && (decision.Ok? <==> mayRun)
      && (decision.Ok? ==> decision.value == if terminal == "caller" then initiating else terminal)
  {
    hide ValidScope, ValidGrants, RunnableAssets, IsQueryPath, IsBrainId;
    TerminalIsBrain(cfg, ctx);
    if cfg.visibility == Private {
      RouteIsGranted(cfg, ctx);
    }
  }

  lemma TerminalIsBrain(cfg: Configuration, ctx: Context)
    requires ValidRoute(cfg, ctx) && cfg.route.Some? && RegisteredIds(ctx)
    ensures cfg.route.value.terminal == "caller" || IsBrainId(cfg.route.value.terminal)
  {
    hide IsBrainId;
  }

  lemma RouteIsGranted(cfg: Configuration, ctx: Context)
    requires ValidRoute(cfg, ctx) && cfg.route.Some? && PrivateAndEnabled(cfg)
    ensures Elements(cfg.route.value.hops) <= Elements(cfg.serviceGrants)
    ensures var terminal := cfg.route.value.terminal;
      terminal == "caller" || terminal == ctx.source.canonical || terminal in Elements(cfg.brainGrants)
  {
    hide TerminalValid;
  }
}
