/** What an execution that ends delivered went through, in terms of the run alone, and with
    which code every other run ends (internal/httpapi/handlers_execution.go). */
module Deliveries {
  import opened Prelude
  import opened Domain
  import opened Hops
  import opened TransferRows
  import opened Authorization
  import opened AssetLoading
  import opened Execution
  import Protocol = TransferProtocol
  import ConfigStore

  /** The bodies of the scope, one after another. */
  function Together(fetches: seq<Fetch>): seq<byte> {
    if fetches == [] then []
    else
      var last := fetches[|fetches| - 1];
      Together(fetches[..|fetches| - 1]) + if last.Stream? then last.content else []
  }

  lemma {:induction false} TotalIsTogether(fetches: seq<Fetch>, n: nat)
    requires n <= |fetches|
    ensures Total(fetches, n) == |Together(fetches[..n])|
  {
    if n > 0 {
      TotalIsTogether(fetches, n - 1);
      assert fetches[..n][..n - 1] == fetches[..n - 1];
    }
  }

  /** The asset can be used for the operation, and its whole body with the recorded
      checksum was fetched. */
  predicate Fetched(t: Tools, run: Run, i: nat)
    requires i < |run.assets| && i < |run.fetches|
  {
    && (run.assets[i].state == Ready || (run.assets[i].state == ParseFailed && run.op == RawRead))
    && run.fetches[i].Stream? && !run.fetches[i].breaks
    && (run.assets[i].sha == "" || t.hashing.sum(run.fetches[i].content) == run.assets[i].sha)
  }

  /** What the query is given: every asset of the configuration with its bytes, in order. */
  predicate Scope(run: Run, loaded: seq<Loaded>) {
    && |loaded| == |run.config.assets| == |run.fetches|
    && forall i | 0 <= i < |loaded| ::
         run.fetches[i].Stream? && loaded[i] == Loaded(run.config.assets[i], run.fetches[i].content)
  }

  /** The checks before the row is inserted. */
  predicate Admitted(run: Run) {
    && run.initiatorOwned && run.config.route.Some? && run.op in run.config.operations
    && (forall s | s in run.config.route.value.hops :: s in run.services && run.services[s].ready)
    && match run.config.route.value.terminal
       case Caller => true
       case Fixed(b) => b in run.brains
       case Unset => false
  }

  /** The scope fits the payload limit, and so does the answer of the query on it. */
  ghost predicate Answered(t: Tools, run: Run, payload: Payload) {
    && |run.fetches| == |run.assets| == |run.config.assets| && (forall i | 0 <= i < |run.assets| :: Fetched(t, run, i))
    && |Together(run.fetches)| <= run.maxPayload && run.config.assets != []
    && exists loaded :: Scope(run, loaded) && t.query(loaded) == Ok(payload) && |payload.bytes| <= run.maxPayload
  }

  /** The payload passes the Services of the route. */
  predicate Passes(t: Tools, run: Run, payload: Payload)
    requires run.config.route.Some?
  {
    run.config.route.value.hops == []
    || (|run.config.route.value.hops| <= run.maxHops && t.hashing.seal(payload.envelope).Some?
        && forall i | 0 <= i < |run.contexts| :: run.contexts[i] == Lasts)
  }

  /** The object and the row of the transfer are new and both are stored. */
  predicate Handed(t: Tools, run: Run, payload: Payload, seen: Seen) {
    && run.put == Protocol.Written && TransferPath(run.transferId, t.hashing.sum(payload.bytes)) !in seen.paths
    && run.transferOk && run.transferId !in seen.transfers && run.ttl > 0
  }

  ghost predicate Delivers(t: Tools, run: Run, seen: Seen, payload: Payload)
    requires Sound(run)
  {
    && Admitted(run) && run.insertOk && run.id !in seen.executions
    && Refusal(run).None? && Decision(PolicyInput(run)).Ok?
    && Answered(t, run, payload) && Passes(t, run, payload)
    && (run.mode == Push ==> Handed(t, run, payload, seen))
  }

  lemma ReadyWhen(run: Run)
    requires run.config.route.Some?
    ensures ServicesReady(run) <==>
            forall s | s in run.config.route.value.hops :: s in run.services && run.services[s].ready
  {
    var hops := run.config.route.value.hops;
    if ServicesReady(run) {
      forall s | s in hops ensures s in run.services && run.services[s].ready {
        var i :| 0 <= i < |hops| && hops[i] == s;
        assert HopIds(run)[i] in run.services;
      }
    }
  }

  lemma AdmittedWhen(run: Run)
    ensures Refusal(run).None? <==> Admitted(run)
    ensures Refusal(run) == Some(InitiatorNotOwned) <==> !run.initiatorOwned
    ensures Refusal(run) == Some(OperationNotAllowed) <==>
      run.initiatorOwned && run.config.route.Some? && run.op !in run.config.operations
    ensures Refusal(run).Some? ==> Refusal(run).value in {InitiatorNotOwned, OperationNotAllowed, RouteInvalid}
  {
    if run.config.route.Some? {
      ReadyWhen(run);
    }
    hide ServicesReady;
  }

  lemma ScopeLoadsWhen(t: Tools, run: Run)
    requires Sound(run)
    ensures ScopeLoads(t, run) <==>
      |Together(run.fetches)| <= run.maxPayload && forall i | 0 <= i < |run.assets| :: Fetched(t, run, i)
  {
    TotalIsTogether(run.fetches, |run.fetches|);
    assert run.fetches[..|run.fetches|] == run.fetches;
    forall i | 0 <= i < |run.assets|
      ensures Loadable(t.hashing.sum, run.assets[i], run.op, run.fetches[i]) <==> Fetched(t, run, i) {
    }
    hide Loadable, Fetched, Total, Together;
  }

  lemma AnsweredWhen(t: Tools, run: Run, payload: Payload)
    requires Sound(run)
    ensures Queried(t, run) == Ok(payload) <==> Answered(t, run, payload)
  {
    ScopeLoadsWhen(t, run);
    if forall i | 0 <= i < |run.assets| :: Fetched(t, run, i) {
      forall i | 0 <= i < |run.fetches| ensures run.fetches[i].Stream? {
        assert Fetched(t, run, i);
      }
      var contents := Contents(run.assets, run.fetches);
      assert Scope(run, contents);
      forall loaded | Scope(run, loaded) ensures loaded == contents {
      }
    }
    hide ScopeLoads, Together;
  }

  /** An execution is delivered exactly when every stage goes through, and then the result
      is that of the payload. */
  lemma DeliveredWhen(t: Tools, run: Run, seen: Seen)
    requires Sound(run)
    ensures Outcome(t, run, seen).Ok? <==> exists payload :: Delivers(t, run, seen, payload)
    ensures forall payload | Delivers(t, run, seen, payload) ::
      Outcome(t, run, seen) == Ok(ResultMeta(payload.envelope.mediaType, |payload.bytes|, payload.envelope.filename,
                                             t.hashing.sum(payload.bytes)))
  {
    AdmittedWhen(run);
    forall payload ensures Queried(t, run) == Ok(payload) <==> Answered(t, run, payload) {
      AnsweredWhen(t, run, payload);
    }
    if Refusal(run).None? {
      HopsPassWhen(t, run);
    }
    hide Answered, Queried, Decision, PolicyInput, Refusal, Admitted, HopsPass, Passes;
    if Outcome(t, run, seen).Ok? {
      assert Delivers(t, run, seen, Queried(t, run).value);
    }
  }

  lemma HopsPassWhen(t: Tools, run: Run)
    requires Sound(run) && Refusal(run).None?
    ensures run.config.route.Some? && forall payload :: HopsPass(t, run, payload) <==> Passes(t, run, payload)
  {
  }

  /** A delivered push leaves one pending transfer to the fixed Brain of the route, of the
      payload's size and checksum, under the path of its id and that checksum. */
  lemma PushedTransfer(t: Tools, run: Run, seen: Seen, payload: Payload)
    requires Sound(run) && run.mode == Push && Delivers(t, run, seen, payload)
    ensures run.config.route.value.terminal.Fixed?
    ensures TransferOf(t, run, payload.bytes) ==
            Transfer(Some(run.config.route.value.terminal.brain), Pending,
                     TransferPath(run.transferId, t.hashing.sum(payload.bytes)), |payload.bytes|,
                     t.hashing.sum(payload.bytes), None, run.completed + run.ttl, None)
  {
    hide Answered, Queried, Sound, Services, ServicesReady, Handed, Passes;
  }

  /** With which code a run that is not delivered ends: the first stage that fails. */
  lemma FailsWith(t: Tools, run: Run, seen: Seen)
    requires Sound(run) && Outcome(t, run, seen).Err?
    ensures var code := Outcome(t, run, seen).error;
      if !run.initiatorOwned then code == InitiatorNotOwned
      else if run.config.route.None? then code == RouteInvalid
      else if run.op !in run.config.operations then code == OperationNotAllowed
      else if !Admitted(run) then code == RouteInvalid
      else if run.id in seen.executions then code == NameAlreadyExists
      else if !run.insertOk then code == InvalidRequest
      else if Decision(PolicyInput(run)).Err? then code == Decision(PolicyInput(run)).error
      else if |Together(run.fetches)| > run.maxPayload || exists i | 0 <= i < |run.assets| :: !Fetched(t, run, i)
        then code == AssetUnavailable
      else if run.config.assets == [] then code == QueryInvalid
      else if Queried(t, run).Err? then
        forall loaded | Scope(run, loaded) ::
          if t.query(loaded).Err? then code == t.query(loaded).error else code == PayloadTooLarge
      else if !Passes(t, run, Queried(t, run).value) then code == ServiceHopFailed
      else if run.put != Protocol.Written
              || TransferPath(run.transferId, t.hashing.sum(Queried(t, run).value.bytes)) in seen.paths
        then code == StorageProviderError
      else code == InvalidRequest
  {
    AdmittedWhen(run);
    ScopeLoadsWhen(t, run);
    if Refusal(run).None? {
      HopsPassWhen(t, run);
    }
    hide Together, Decision, PolicyInput, Admitted, HopsPass, Passes, Fetched, ScopeLoads, Refusal;
    forall loaded | Scope(run, loaded) && ScopeLoads(t, run) ensures loaded == Contents(run.assets, run.fetches) {
      assert forall i | 0 <= i < |run.assets| :: Fetched(t, run, i);
    }
  }
}
