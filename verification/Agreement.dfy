/** The execution of a push meets the saved policy: what the tables guarantee is what
    the running route is asked (internal/httpapi/handlers_execution.go,
    internal/routes/policy.go, db/schema.sql). */
module Agreement {
  import opened Prelude
  import opened Domain
  import opened Authorization
  import ConfigStore
  import opened ConfigRuns
  import Laws = ConfigLaws
  import Execution

  /** The canonical IDs a run looked up are those of the records. */
  ghost predicate LooksUp(w: World, run: Execution.Run) {
    && run.source.id == run.config.brain && run.source.canonical == w.brainName(run.source.id)
    && run.initiator.canonical == w.brainName(run.initiator.id)
    && (forall s | s in run.services :: run.services[s].canonical == w.serviceName(s))
    && (forall b | b in run.brains :: run.brains[b] == w.brainName(b))
    && Names(run.brainGrants, run.config.brainGrants, w.brainName)
    && Names(run.serviceGrants, run.config.serviceGrants, w.serviceName)
  }

  /** The input an execution assembles from what it looks up is the one the loaded
      configuration stands for. */
  lemma ExecutionAsksThePolicy(w: World, run: Execution.Run)
    requires LooksUp(w, run) && Execution.Refusal(run).None?
    ensures Execution.PolicyInput(run) ==
            Laws.RunInput(w, run.config, run.mode, run.initiator.id, run.brainGrants, run.serviceGrants, run.maxHops)
  {
    var asked, hops := Execution.PolicyInput(run), run.config.route.value.hops;
    forall i | 0 <= i < |hops| ensures asked.hops[i] == w.serviceName(hops[i]) {
      assert Execution.Services(run)[i].canonical == run.services[hops[i]].canonical;
    }
    assert asked.hops == Laws.HopNames(hops, w.serviceName);
  }

  /** A push by the source over an enabled path, loaded in any reachable state of the
      tables, or piece by piece while its version stood still, does not end in
      PRINCIPAL_NOT_AUTHORIZED, however the rest of the execution goes. */
  lemma PushExecutionIsAuthorized(w: World, states: seq<ConfigStore.Db>, steps: seq<Step>, id: RecordId,
                                  a: nat, b: nat, c: nat, d: nat, e: nat, f: nat,
                                  t: Execution.Tools, run: Execution.Run, seen: Execution.Seen)
    requires Laws.Run(w, states, steps) && a <= b <= c <= d <= e <= f < |states|
    requires forall x :: IsBrainId(w.brainName(x))
    requires id in states[a].paths && states[a].paths[id].state == Enabled
    requires id in states[f].paths && states[f].paths[id].version == states[a].paths[id].version
    requires run.config == Laws.TornLoad(id, states[a], states[b], states[c], states[d], states[e], states[f])
    requires Execution.Sound(run) && LooksUp(w, run) && run.mode == Push && run.initiator == run.source
    requires forall loaded :: t.query(loaded) != Err(PrincipalNotAuthorized)
    ensures Execution.Outcome(t, run, seen) != Err(PrincipalNotAuthorized)
  {
    hide Laws.Run, Laws.TornLoad, Decision, Names;
    Laws.TornPushIsAuthorized(w, states, steps, id, a, b, c, d, e, f, run.brainGrants, run.serviceGrants, run.maxHops);
    if Execution.Refusal(run).None? {
      ExecutionAsksThePolicy(w, run);
    }
    hide Execution.PolicyInput, Execution.HopsPass, Execution.ScopeLoads;
  }
}

/** Save-time validation and the query engine agree on which assets an operation can use
    (internal/routes/policy.go, internal/query/service.go, internal/httpapi/handlers_execution.go). */
module EngineAgreement {
  import opened Prelude
  import opened Domain
  import opened Validation
  import TextSearch
  import CsvPaging
  import CsvQuery
  import AssetLoading

  /** The engine would use the asset for the operation, whatever its readable contents. */
  ghost predicate EngineUses(op: Operation, a: Asset) {
    match op
    case TextSearchOp =>
      forall id, name, text :: TextSearch.Compatible(TextSearch.TextAsset(id, name, a.format, a.state, Some(text)))
    case CsvQueryOp => forall id, file :: CsvPaging.Queryable(CsvPaging.CsvAsset(id, a.format, a.state, file))
    case RawRead => forall id, sha :: AssetLoading.Readable(AssetLoading.ScopedAsset(id, a.state, sha), RawRead)
    case OtherOperation(_) => false
  }

  /** The engine would turn the asset down for the operation, whatever it contains. */
  ghost predicate EngineSkips(op: Operation, a: Asset) {
    match op
    case TextSearchOp =>
      forall id, name, text :: !TextSearch.Compatible(TextSearch.TextAsset(id, name, a.format, a.state, text))
    case CsvQueryOp => forall id, file :: !CsvPaging.Queryable(CsvPaging.CsvAsset(id, a.format, a.state, file))
    case _ => false
  }

  /** Every operation of a valid, enabled path has an asset the engine uses, and every
      asset of its scope can be loaded for every operation. */
  lemma EnabledOperationsRun(cfg: Configuration, ctx: Context, op: Operation)
    requires ValidConfiguration(cfg, ctx) && cfg.state == Enabled && op in cfg.operations
    ensures exists k | 0 <= k < |cfg.assetIds| ::
              cfg.assetIds[k] in ctx.assets && EngineUses(op, ctx.assets[cfg.assetIds[k]])
    ensures forall k, sha | 0 <= k < |cfg.assetIds| ::
              && cfg.assetIds[k] in ctx.assets
              && var a := AssetLoading.ScopedAsset(cfg.assetIds[k], ctx.assets[cfg.assetIds[k]].state, sha);
                 AssetLoading.Readable(a, op)
  {
  }

  /** An operation is turned down as incompatible only if the engine would skip every asset. */
  lemma IncompatibleIsSkipped(cfg: Configuration, ctx: Context, i: nat, k: nat)
    requires Reported(cfg, ctx, OperationIncompatible(i)) && k < |cfg.assetIds| && cfg.assetIds[k] in ctx.assets
    ensures EngineSkips(cfg.operations[i], ctx.assets[cfg.assetIds[k]])
  {
  }

  lemma UsedIsNotSkipped(op: Operation, a: Asset)
    ensures !(EngineUses(op, a) && EngineSkips(op, a))
  {
    assert TextSearch.TextAsset("", "", a.format, a.state, Some("")).text.Some?;
    if EngineUses(op, a) && op == TextSearchOp {
      assert TextSearch.Compatible(TextSearch.TextAsset("", "", a.format, a.state, Some("")));
    }
    if EngineUses(op, a) && op == CsvQueryOp {
      assert CsvPaging.Queryable(CsvPaging.CsvAsset("", a.format, a.state, CsvQuery.CsvFile([], false)));
    }
  }

  /** Of a ready asset the validator knows what the engine does with it. */
  lemma ReadyAssetsAgree(op: Operation, a: Asset)
    requires a.state == Ready && !op.OtherOperation?
    ensures OperationCompatible(op, a) <==> EngineUses(op, a)
    ensures !OperationCompatible(op, a) <==> EngineSkips(op, a)
  {
    UsedIsNotSkipped(op, a);
  }

  /** Over ready assets it is turned down exactly then. */
  lemma IncompatibleWhenSkipped(cfg: Configuration, ctx: Context, i: nat)
    requires i < |cfg.operations| && !cfg.operations[i].OtherOperation? && cfg.operations[i] !in cfg.operations[..i]
    requires forall k | 0 <= k < |cfg.assetIds| && cfg.assetIds[k] in ctx.assets ::
               ctx.assets[cfg.assetIds[k]].state == Ready
    ensures Reported(cfg, ctx, OperationIncompatible(i))
        <==> forall k | 0 <= k < |cfg.assetIds| && cfg.assetIds[k] in ctx.assets ::
               EngineSkips(cfg.operations[i], ctx.assets[cfg.assetIds[k]])
  {
    forall k | 0 <= k < |cfg.assetIds| && cfg.assetIds[k] in ctx.assets
      ensures !OperationCompatible(cfg.operations[i], ctx.assets[cfg.assetIds[k]])
          <==> EngineSkips(cfg.operations[i], ctx.assets[cfg.assetIds[k]]) {
      ReadyAssetsAgree(cfg.operations[i], ctx.assets[cfg.assetIds[k]]);
    }
    hide EngineSkips, OperationCompatible;
  }
}
