/** The lifecycle of one route execution (internal/httpapi/handlers_execution.go,
    internal/store/executions.go, internal/domain/lifecycle.go). */
module AssetLoading {
  import opened Prelude
  import opened Domain

  /** `sha` is empty when no checksum is recorded. */
  datatype ScopedAsset = ScopedAsset(id: RecordId, state: AssetState, sha: string)

  /** What the object store gives for one asset: an error, or a body that may break. */
  datatype Fetch = GetError | Stream(content: seq<byte>, breaks: bool)

  datatype Loaded = Loaded(id: RecordId, bytes: seq<byte>)

  predicate Readable(a: ScopedAsset, op: Operation) {
    a.state == Ready || (a.state == ParseFailed && op == RawRead)
  }

  /** The asset can be loaded whole, size aside. */
  predicate Loadable(sum: seq<byte> -> string, a: ScopedAsset, op: Operation, f: Fetch) {
    Readable(a, op) && f.Stream? && !f.breaks && (a.sha == "" || sum(f.content) == a.sha)
  }

  function Size(f: Fetch): nat {
    if f.Stream? then |f.content| else 0
  }

  function Total(fetches: seq<Fetch>, n: nat): nat
    requires n <= |fetches|
  {
    if n == 0 then 0 else Total(fetches, n - 1) + Size(fetches[n - 1])
  }

  lemma {:induction false} TotalGrows(fetches: seq<Fetch>, n: nat, m: nat)
    requires n <= m <= |fetches|
    ensures Total(fetches, n) <= Total(fetches, m)
  {
    if n < m {
      TotalGrows(fetches, n, m - 1);
    }
  }

  /** A full read of at most `limit` bytes. */
  function Limited(content: seq<byte>, limit: nat): (r: seq<byte>)
    ensures r == content[..Min(limit, |content|)]
  {
    content[..Min(limit, |content|)]
  }

  /** Loads the scope under the byte budget.  The reset of a negative budget and the
      final size check never act, so every failure is ASSET_UNAVAILABLE. */
  method LoadAssets(sum: seq<byte> -> string, assets: seq<ScopedAsset>, op: Operation, fetches: seq<Fetch>,
                    maxPayload: nat)
    returns (r: Result<seq<Loaded>, Code>)
    requires |fetches| == |assets|
    ensures r.Ok? <==>
      && Total(fetches, |fetches|) <= maxPayload
      && forall i | 0 <= i < |assets| :: Loadable(sum, assets[i], op, fetches[i])
    ensures r.Ok? ==>
      && |r.value| == |assets|
      && forall i | 0 <= i < |assets| :: fetches[i].Stream? && r.value[i] == Loaded(assets[i].id, fetches[i].content)
    ensures r.Err? ==> r.error == AssetUnavailable
  {
    var loaded: seq<Loaded>, total: int := [], 0;
    for i := 0 to |assets|
      invariant total == Total(fetches, i) <= maxPayload && |loaded| == i
      invariant forall k | 0 <= k < i :: Loadable(sum, assets[k], op, fetches[k])
      invariant forall k | 0 <= k < i :: loaded[k] == Loaded(assets[k].id, fetches[k].content)
    {
      var asset := assets[i];
      if !Readable(asset, op) || fetches[i].GetError? {
        assert !Loadable(sum, asset, op, fetches[i]);
        return Err(AssetUnavailable);
      }
      var remaining := maxPayload - total;
      if remaining < 0 {
        assert false;
      }
      var bytes := Limited(fetches[i].content, remaining + 1);
      if fetches[i].breaks || |bytes| > remaining {
        TotalGrows(fetches, i + 1, |fetches|);
        assert fetches[i].breaks ==> !Loadable(sum, asset, op, fetches[i]);
        return Err(AssetUnavailable);
      }
      assert bytes == fetches[i].content;
      if asset.sha != "" && sum(bytes) != asset.sha {
        assert !Loadable(sum, asset, op, fetches[i]);
        return Err(AssetUnavailable);
      }
      total := total + |bytes|;
      if total > maxPayload {
        assert false;
      }
      loaded := loaded + [Loaded(asset.id, bytes)];
    }
    return Ok(loaded);
  }
}

module Execution {
  import opened Prelude
  import opened Domain
  import opened Hops
  import opened TransferRows
  import opened Authorization
  import opened AssetLoading
  import ConfigStore
  import Protocol = TransferProtocol

  datatype State = Created | Authorizing | Reading | Processing | Delivered | Failed

  datatype ResultMeta = ResultMeta(mediaType: string, byteSize: nat, filename: string, sha: string)

  datatype Row = Row(mode: Mode, state: State, result: Option<ResultMeta>, error: Option<Code>,
                     startedAt: Option<nat>, completedAt: Option<nat>)

  /** What a transition writes; a missing start time keeps the stored one. */
  datatype Transition = Transition(
    state: State, result: Option<ResultMeta>, error: Option<Code>, startedAt: Option<nat>, completedAt: Option<nat>)

  // The only transitions the domain lets infrastructure persist.

  function BeginRead(at: nat): Transition {
    Transition(Reading, None, None, Some(at), None)
  }

  function BeginProcessing(at: nat): Transition {
    Transition(Processing, None, None, Some(at), None)
  }

  function Deliver(result: ResultMeta, at: nat, completed: nat): Transition {
    Transition(Delivered, Some(result), None, Some(at), Some(completed))
  }

  function Fail(code: Code, completed: nat): Transition {
    Transition(Failed, None, Some(code), None, Some(completed))
  }

  predicate Legal(t: Transition, started: nat, completed: nat) {
    && t.completedAt == (if Terminal(t.state) then Some(completed) else None)
    && (t.error.Some? <==> t.state == Failed) && (t.result.Some? <==> t.state == Delivered)
    && (t.startedAt.Some? ==> t.startedAt == Some(started)) && t.state != Authorizing
    && (t.state in {Reading, Processing, Delivered} ==> t.startedAt.Some?)
  }

  function Updated(row: Row, t: Transition): Row {
    Row(row.mode, t.state, t.result, t.error, if t.startedAt.Some? then t.startedAt else row.startedAt, t.completedAt)
  }

  predicate Terminal(s: State) {
    s == Delivered || s == Failed
  }

  predicate WellShaped(row: Row) {
    && (row.completedAt.Some? <==> Terminal(row.state))
    && (row.error.Some? <==> row.state == Failed)
    && (row.result.Some? <==> row.state == Delivered)
    && (row.state in {Reading, Processing, Delivered} ==> row.startedAt.Some?)
  }

  predicate Follows(before: State, after: State) {
    match before
    case Created => after == Authorizing
    case Authorizing => after == Reading || after == Failed
    case Reading => after == Processing || after == Failed
    case Processing => after == Delivered || after == Failed
    case _ => false
  }

  /** A version of one execution: started when it began to read, completed when it ended. */
  predicate VersionOf(row: Row, mode: Mode, started: nat, completed: nat) {
    && WellShaped(row) && row.mode == mode
    && (row.startedAt.Some? ==> row.startedAt == Some(started)) && (row.state == Authorizing ==> row.startedAt.None?)
    && (row.completedAt.Some? ==> row.completedAt == Some(completed))
  }

  /** The versions one execution row goes through, from its insertion. */
  predicate Lifecycle(versions: seq<Row>, mode: Mode, started: nat, completed: nat) {
    && versions != [] && versions[0] == Row(mode, Authorizing, None, None, None, None)
    && (forall i | 0 <= i < |versions| :: VersionOf(versions[i], mode, started, completed))
    && (forall i | 0 <= i < |versions| - 1 :: Follows(versions[i].state, versions[i + 1].state))
  }

  /** A lifecycle that has ended went through a full prefix of the working states
      and ended exactly once. */
  lemma EndedLifecycle(versions: seq<Row>, mode: Mode, started: nat, completed: nat)
    requires Lifecycle(versions, mode, started, completed) && Terminal(versions[|versions| - 1].state)
    ensures var states := seq(|versions|, i requires 0 <= i < |versions| => versions[i].state);
      states in {[Authorizing, Failed], [Authorizing, Reading, Failed], [Authorizing, Reading, Processing, Failed],
                 [Authorizing, Reading, Processing, Delivered]}
  {
    var n := |versions|;
    var states := seq(n, i requires 0 <= i < n => versions[i].state);
    assert n > 1 && Follows(versions[0].state, versions[1].state);
    if n == 2 {
      assert states == [Authorizing, Failed];
    } else {
      assert Follows(versions[1].state, versions[2].state);
      if n == 3 {
        assert states == [Authorizing, Reading, Failed];
      } else {
        assert Follows(versions[2].state, versions[3].state);
        StagesGrow(versions, mode, started, completed, n - 1);
        assert states == [Authorizing, Reading, Processing, states[3]];
      }
    }
  }

  /** The row of an ended execution: timed, with a result or a code. */
  lemma EndedRow(versions: seq<Row>, mode: Mode, started: nat, completed: nat)
    requires Lifecycle(versions, mode, started, completed)
    ensures var last := versions[|versions| - 1];
      && last.mode == mode
      && (last.state == Delivered ==>
            last.result.Some? && last == Row(mode, Delivered, last.result, None, Some(started), Some(completed)))
      && (last.state == Failed ==>
            && last.error.Some? && last.startedAt in {None, Some(started)}
            && last == Row(mode, Failed, None, last.error, last.startedAt, Some(completed)))
  {
    assert VersionOf(versions[|versions| - 1], mode, started, completed);
  }

  function Stage(s: State): nat {
    match s
    case Created => 0 case Authorizing => 1 case Reading => 2 case Processing => 3 case _ => 4
  }

  lemma {:induction false} StagesGrow(versions: seq<Row>, mode: Mode, started: nat, completed: nat, i: nat)
    requires Lifecycle(versions, mode, started, completed) && i < |versions|
    ensures Stage(versions[i].state) > i
  {
    if i > 0 {
      StagesGrow(versions, mode, started, completed, i - 1);
      assert Follows(versions[i - 1].state, versions[i].state);
    }
  }

  datatype ServiceRow = ServiceRow(canonical: string, ready: bool)

  datatype Party = Party(id: RecordId, canonical: string)

  /** Everything an execution meets: the configuration loaded for it with its grants in
      canonical IDs, the Services and Brains it looks up, and how the outside world answers. */
  datatype Run = Run(
    id: RecordId, transferId: RecordId, mode: Mode, op: Operation,
    config: ConfigStore.Config, brainGrants: seq<string>, serviceGrants: seq<string>,
    source: Party, initiator: Party, initiatorOwned: bool,
    services: map<RecordId, ServiceRow>, brains: map<RecordId, string>,
    assets: seq<ScopedAsset>, fetches: seq<Fetch>, contexts: seq<Context>,
    insertOk: bool, put: Protocol.PutOutcome, transferOk: bool, deleteOk: bool,
    now: nat, completed: nat, ttl: nat, maxPayload: nat, maxHops: nat)

  datatype Tools = Tools(hashing: Hashing, query: seq<Loaded> -> Result<Payload, Code>)

  function HopIds(run: Run): seq<RecordId> {
    if run.config.route.Some? then run.config.route.value.hops else []
  }

  predicate Sound(run: Run) {
    && |run.fetches| == |run.assets| == |run.config.assets| && |run.contexts| == |HopIds(run)|
    && forall i | 0 <= i < |run.assets| :: run.assets[i].id == run.config.assets[i]
  }

  predicate ServicesReady(run: Run) {
    forall i | 0 <= i < |HopIds(run)| :: HopIds(run)[i] in run.services && run.services[HopIds(run)[i]].ready
  }

  /** The Services of the route, one per occurrence. */
  function Services(run: Run): (r: seq<Service>)
    ensures ServicesReady(run) ==>
      && |r| == |HopIds(run)|
      && forall i | 0 <= i < |r| :: r[i] == Service(HopIds(run)[i], run.services[HopIds(run)[i]].canonical)
  {
    if ServicesReady(run) then
      var hops := HopIds(run);
      seq(|hops|, i requires 0 <= i < |hops| => Service(hops[i], run.services[hops[i]].canonical))
    else []
  }

  /** The fixed Brain of the route if it exists, or the caller. */
  function DestinationOf(run: Run): Option<Party> {
    if run.config.route.None? then None
    else
      match run.config.route.value.terminal
      case Caller => Some(run.initiator)
      case Fixed(b) => if b in run.brains then Some(Party(b, run.brains[b])) else None
      case Unset => None
  }

  /** The checks before the execution row is inserted. */
  function Refusal(run: Run): Option<Code> {
    if !run.initiatorOwned then Some(InitiatorNotOwned)
    else if run.config.route.None? then Some(RouteInvalid)
    else if run.op !in run.config.operations then Some(OperationNotAllowed)
    else if !ServicesReady(run) || DestinationOf(run).None? then Some(RouteInvalid)
    else None
  }

  function Canonicals(services: seq<Service>): (r: seq<string>)
    ensures |r| == |services| && forall i | 0 <= i < |r| :: r[i] == services[i].canonical
  {
    seq(|services|, i requires 0 <= i < |services| => services[i].canonical)
  }

  /** The policy question an execution asks. */
  function PolicyInput(run: Run): Input
    requires Refusal(run).None?
  {
    Input(run.mode, run.config.visibility, run.source.canonical, run.initiator.canonical, true, true,
          if run.config.route.value.terminal.Caller? then "caller" else DestinationOf(run).value.canonical,
          run.brainGrants, run.serviceGrants, Canonicals(Services(run)), run.maxHops)
  }

  method LookUpServices(run: Run) returns (services: seq<Service>, ok: bool)
    ensures ok <==> ServicesReady(run)
    ensures ok ==> services == Services(run)
  {
    services := [];
    var hops := HopIds(run);
    for i := 0 to |hops|
      invariant |services| == i
      invariant forall k | 0 <= k < i :: hops[k] in run.services && run.services[hops[k]].ready
      invariant forall k | 0 <= k < i :: services[k] == Service(hops[k], run.services[hops[k]].canonical)
    {
      if hops[i] !in run.services || !run.services[hops[i]].ready {
        return services, false;
      }
      services := services + [Service(hops[i], run.services[hops[i]].canonical)];
    }
    return services, true;
  }

  /** The checks in their order, with the Services and the destination they find. */
  method ResolveRoute(run: Run) returns (r: Result<(seq<Service>, Party), Code>)
    ensures r == if Refusal(run).Some? then Err(Refusal(run).value) else Ok((Services(run), DestinationOf(run).value))
    ensures r.Ok? ==> DestinationOf(run).Some?
  {
    if !run.initiatorOwned {
      return Err(InitiatorNotOwned);
    }
    if run.config.route.None? {
      return Err(RouteInvalid);
    }
    var allowed := false;
    for i := 0 to |run.config.operations|
      invariant allowed <==> run.op in run.config.operations[..i]
    {
      if run.config.operations[i] == run.op {
        allowed := true;
      }
    }
    assert run.config.operations[..|run.config.operations|] == run.config.operations;
    if !allowed {
      return Err(OperationNotAllowed);
    }
    var services, ok := LookUpServices(run);
    if !ok {
      return Err(RouteInvalid);
    }
    var destination := run.initiator;
    match run.config.route.value.terminal {
      case Caller =>
      case Unset => return Err(RouteInvalid);
      case Fixed(b) =>
        if b !in run.brains {
          return Err(RouteInvalid);
        }
        destination := Party(b, run.brains[b]);
    }
    return Ok((services, destination));
  }

  function Meta(t: Tools, p: Payload): ResultMeta {
    ResultMeta(p.envelope.mediaType, |p.bytes|, p.envelope.filename, t.hashing.sum(p.bytes))
  }

  /** What exists when a run begins. */
  datatype Seen = Seen(executions: set<RecordId>, paths: set<Path>, transfers: set<RecordId>)

  function PathFor(t: Tools, run: Run, bytes: seq<byte>): Path {
    TransferPath(run.transferId, t.hashing.sum(bytes))
  }

  predicate PutSucceeds(t: Tools, run: Run, bytes: seq<byte>, paths: set<Path>) {
    run.put == Protocol.Written && PathFor(t, run, bytes) !in paths
  }

  /** The transfer row is new, expires in the future and meets the other constraints. */
  predicate InsertSucceeds(run: Run, transfers: set<RecordId>) {
    run.transferOk && run.transferId !in transfers && run.ttl > 0
  }

  function PutStep(t: Tools, run: Run, bytes: seq<byte>, s: Protocol.State): Protocol.PutOutcome {
    if PathFor(t, run, bytes) in s.objects then Protocol.FailedClean else run.put
  }

  /** The protocol's first two steps of one push: the payload, then its object. */
  function PutSteps(t: Tools, run: Run, bytes: seq<byte>, s: Protocol.State): Option<Protocol.State> {
    var c, h := Protocol.Config(t.hashing.sum, run.maxPayload), Protocol.HANDLER;
    var destination := if DestinationOf(run).Some? then DestinationOf(run).value.id else "";
    var start := Protocol.StartPush(h, run.transferId, bytes, destination, run.completed + run.ttl);
    var started := Protocol.Then(c, Some(s), Protocol.Step.Push(start));
    Protocol.Then(c, started, Protocol.Step.Push(Protocol.PushPut(h, PutStep(t, run, bytes, s))))
  }

  /** Then the row, and the clean-up when it is refused. */
  function PushSteps(t: Tools, run: Run, bytes: seq<byte>, s: Protocol.State): Option<Protocol.State> {
    var c, h := Protocol.Config(t.hashing.sum, run.maxPayload), Protocol.HANDLER;
    var stored := PutSteps(t, run, bytes, s);
    if PutStep(t, run, bytes, s) != Protocol.Written then stored
    else
      var ok := InsertSucceeds(run, s.transfers.Keys);
      var inserted := Protocol.Then(c, stored, Protocol.Step.Push(Protocol.PushInsert(h, ok)));
      if ok then inserted
      else if run.deleteOk then Protocol.Then(c, inserted, Protocol.Step.Push(Protocol.PushDelete(h)))
      else Protocol.Then(c, inserted, Protocol.Stop(h))
  }

  predicate Alone(run: Run, s: Protocol.State) {
    s.now == run.completed && s.handlers == map[] && s.locks == map[]
  }

  lemma PutStepsResult(t: Tools, run: Run, bytes: seq<byte>, s: Protocol.State)
    requires |bytes| <= run.maxPayload && Alone(run, s)
    ensures PutSteps(t, run, bytes, s).Some?
    ensures var path, put, after := PathFor(t, run, bytes), PutStep(t, run, bytes, s), PutSteps(t, run, bytes, s).value;
            var destination := if DestinationOf(run).Some? then DestinationOf(run).value.id else "";
            var owner := Protocol.PushStored(run.transferId, bytes, destination, run.completed + run.ttl);
            match put
            case FailedClean => after == s
            case FailedButWritten => after == s.(objects := s.objects[path := bytes])
            case Written => path !in s.objects
                            && after == s.(objects := s.objects[path := bytes],
                                           handlers := map[Protocol.HANDLER := owner])
  {
    hide Protocol.CanResolve, Protocol.CanManage, Protocol.DoResolve, Protocol.DoManage, DestinationOf;
  }

  /** The row of a stored payload, or what its clean-up leaves. */
  lemma InsertStepsResult(t: Tools, run: Run, bytes: seq<byte>, s: Protocol.State)
    requires |bytes| <= run.maxPayload && Alone(run, s) && PutStep(t, run, bytes, s) == Protocol.Written
    ensures PushSteps(t, run, bytes, s).Some?
    ensures var path, after := PathFor(t, run, bytes), PushSteps(t, run, bytes, s).value;
            var left := s.(objects := s.objects[path := bytes]);
            if InsertSucceeds(run, s.transfers.Keys) then
              after == left.(transfers := s.transfers[run.transferId := TransferOf(t, run, bytes)])
            else if run.deleteOk then after == s
            else after == left
  {
    PutStepsResult(t, run, bytes, s);
    hide PutSteps, DestinationOf, Protocol.CanResolve, Protocol.CanManage, Protocol.DoResolve, Protocol.DoManage;
    var path := PathFor(t, run, bytes);
    assert s.objects[path := bytes] - {path} == s.objects;
  }

  /** What the steps of a push come to. */
  lemma PushStepsResult(t: Tools, run: Run, bytes: seq<byte>, s: Protocol.State)
    requires |bytes| <= run.maxPayload && Alone(run, s)
    ensures PushSteps(t, run, bytes, s).Some?
    ensures var path, put := PathFor(t, run, bytes), PutStep(t, run, bytes, s);
            var after := PushSteps(t, run, bytes, s).value;
            var left := s.(objects := s.objects[path := bytes]);
            if put == Protocol.FailedClean then after == s
            else if put == Protocol.FailedButWritten then after == left
            else if InsertSucceeds(run, s.transfers.Keys) then
              after == left.(transfers := s.transfers[run.transferId := TransferOf(t, run, bytes)])
            else if run.deleteOk then after == s
            else after == left
  {
    hide PutSteps, DestinationOf, InsertSucceeds, PutStep, PathFor, TransferOf, Protocol.CanStep, Protocol.Apply;
    if PutStep(t, run, bytes, s) == Protocol.Written {
      InsertStepsResult(t, run, bytes, s);
    } else {
      PutStepsResult(t, run, bytes, s);
    }
  }

  class Api {
    var executions: map<RecordId, Row>
    var hops: map<RecordId, seq<HopResult>>
    var transfers: Rows
    /** The transfer of an execution, which the schema makes unique. */
    var deliveries: map<RecordId, RecordId>
    var objects: map<Path, seq<byte>>
    /** The versions of the row the current run inserted. */
    ghost var versions: seq<Row>

    /** Transfers and hops refer to executions. */
    ghost predicate Valid()
      reads this
    {
      && deliveries.Keys <= executions.Keys && hops.Keys <= executions.Keys
      && forall e | e in deliveries :: deliveries[e] in transfers
    }

    ghost function Exists(): Seen
      reads this
    {
      Seen(executions.Keys, objects.Keys, transfers.Keys)
    }

    /** The transfer protocol's state while no other handler is running. */
    ghost function View(now: nat): Protocol.State
      reads this
    {
      Protocol.State(now, transfers, map[], objects, map[], map[])
    }

    /** The row of the run is the newest of its versions. */
    ghost predicate Tracks(run: Run)
      reads this
    {
      && Valid() && run.id in executions
      && Lifecycle(versions, run.mode, run.now, run.completed) && executions[run.id] == versions[|versions| - 1]
    }

    /** Every legal transition keeps the row well-shaped and timed. */
    method TransitionExecution(id: RecordId, t: Transition, ghost run: Run)
      requires id == run.id && Tracks(run) && Follows(executions[id].state, t.state)
      requires Legal(t, run.now, run.completed)
      modifies this`executions, this`versions
      ensures Tracks(run) && executions == old(executions)[id := Updated(old(executions[id]), t)]
    {
      ghost var before := executions[id];
      assert VersionOf(before, run.mode, run.now, run.completed);
      var row := executions[id].(state := t.state, result := t.result, error := t.error, completedAt := t.completedAt);
      if t.startedAt.Some? {
        row := row.(startedAt := t.startedAt);
      }
      executions := executions[id := row];
      versions := versions + [row];
      assert versions[|versions| - 2] == before;
    }

    method FailExecution(id: RecordId, code: Code, completed: nat, ghost run: Run) returns (error: Code)
      requires id == run.id && completed == run.completed
      requires Tracks(run) && executions[id].state in {Authorizing, Reading, Processing}
      modifies this`executions, this`versions
      ensures Tracks(run) && error == code && executions[id].state == Failed && executions[id].error == Some(code)
      ensures executions[id].startedAt == old(executions[id].startedAt)
              && executions == old(executions)[id := executions[id]]
    {
      TransitionExecution(id, Fail(code, completed), run);
      return code;
    }

    /** Only the row of the run has changed: it has moved to state `to`, or failed with the error returned. */
    ghost predicate Advanced(before: map<RecordId, Row>, run: Run, to: State, r: Result<Payload, Code>)
      reads this
    {
      && Tracks(run) && executions.Keys == before.Keys
      && (forall other | other in executions && other != run.id :: executions[other] == before[other])
      && (r.Ok? ==> executions[run.id].state == to)
      && (r.Err? ==> executions[run.id].state == Failed && executions[run.id].error == Some(r.error))
    }

    /** Loads the scope and runs the query. */
    method ReadScope(t: Tools, run: Run) returns (r: Result<Payload, Code>)
      requires Sound(run) && Tracks(run) && executions[run.id].state == Reading
      modifies this`executions, this`versions
      ensures Advanced(old(executions), run, Processing, r) && r == Queried(t, run)
    {
      hide Lifecycle, Loadable;
      var loaded := LoadAssets(t.hashing.sum, run.assets, run.op, run.fetches, run.maxPayload);
      if loaded.Err? {
        var code := FailExecution(run.id, AssetUnavailable, run.completed, run);
        return Err(code);
      }
      assert loaded.value == Contents(run.assets, run.fetches);
      var payload := RunQuery(t, loaded.value, run.maxPayload);
      if payload.Err? {
        var code := FailExecution(run.id, payload.error, run.completed, run);
        return Err(code);
      }
      TransitionExecution(run.id, BeginProcessing(run.now), run);
      return payload;
    }

    /** Passes the payload through the identity Services and records the hops. */
    method Traverse(t: Tools, run: Run, services: seq<Service>, payload: Payload) returns (r: Result<Payload, Code>)
      requires Sound(run) && Tracks(run) && executions[run.id].state == Processing
      requires ServicesReady(run) && services == Services(run)
      modifies this`executions, this`versions, this`hops
      ensures Advanced(old(executions), run, Processing, r)
      ensures r == if HopsPass(t, run, payload) then Ok(payload) else Err(ServiceHopFailed)
      ensures run.id in hops && hops == old(hops)[run.id := hops[run.id]] && Traced(t, run, payload, hops[run.id])
      ensures r.Ok? ==> Recorded(run, hops[run.id], t.hashing.sum(payload.bytes))
    {
      hide Lifecycle, Faithful, Stop, RowsOf;
      var output, results, calls := ExecuteHops(t.hashing, services, payload, run.maxHops, true,
                                                IdentityAttempts(payload, run.contexts));
      IdentityStops(t.hashing, payload, run.contexts, |services|);
      if output.Ok? {
        PassingRows(t, run, payload, results);
      }
      hops := hops[run.id := results];
      if output.Err? {
        var code := FailExecution(run.id, ServiceHopFailed, run.completed, run);
        return Err(code);
      }
      return output;
    }

    /** Stores the payload and inserts the pending transfer; a failed insert takes the
        object back.  Rows and objects change as in the protocol's steps of one push. */
    method PutAndInsert(t: Tools, run: Run, destination: Party, bytes: seq<byte>) returns (error: Option<Code>)
      requires Valid() && run.id in executions && run.id !in deliveries
      requires DestinationOf(run) == Some(destination) && |bytes| <= run.maxPayload
      modifies this`transfers, this`deliveries, this`objects
      ensures Valid() && PushSteps(t, run, bytes, old(View(run.completed))) == Some(View(run.completed))
      ensures error == if !PutSucceeds(t, run, bytes, old(objects.Keys)) then Some(StorageProviderError)
                       else if !InsertSucceeds(run, old(transfers.Keys)) then Some(InvalidRequest) else None
      ensures error.None? ==>
        && deliveries == old(deliveries)[run.id := run.transferId] && run.transferId !in old(transfers)
        && transfers == old(transfers)[run.transferId := TransferOf(t, run, bytes)]
        && objects == old(objects)[PathFor(t, run, bytes) := bytes]
      ensures error.Some? ==> deliveries == old(deliveries) && transfers == old(transfers)
    {
      hide PushSteps;
      PushStepsResult(t, run, bytes, View(run.completed));
      var sha := t.hashing.sum(bytes);
      var path := TransferPath(run.transferId, sha);
      if path in objects || run.put != Protocol.Written {
        if path !in objects && run.put == Protocol.FailedButWritten {
          objects := objects[path := bytes];
        }
        return Some(StorageProviderError);
      }
      ghost var before := objects;
      objects := objects[path := bytes];
      if !run.transferOk || run.transferId in transfers || run.ttl == 0 {
        if run.deleteOk {
          objects := objects - {path};
          assert objects == before;
        }
        return Some(InvalidRequest);
      }
      transfers := transfers[run.transferId := Transfer(Some(destination.id), Pending, path, |bytes|, sha, None,
                                                        run.completed + run.ttl, None)];
      deliveries := deliveries[run.id := run.transferId];
      return None;
    }

    /** The delivery of a push; where it fails, so does the execution. */
    method CreateTransfer(t: Tools, run: Run, destination: Party, output: Payload) returns (r: Result<Payload, Code>)
      requires Tracks(run) && executions[run.id].state == Processing && run.id !in deliveries
      requires DestinationOf(run) == Some(destination) && |output.bytes| <= run.maxPayload
      modifies this
      ensures Advanced(old(executions), run, Processing, r) && hops == old(hops)
      ensures PushSteps(t, run, output.bytes, old(View(run.completed))) == Some(View(run.completed))
      ensures r == if !PutSucceeds(t, run, output.bytes, old(objects.Keys)) then Err(StorageProviderError)
                   else if !InsertSucceeds(run, old(transfers.Keys)) then Err(InvalidRequest) else Ok(output)
      ensures r.Ok? ==>
        && deliveries == old(deliveries)[run.id := run.transferId] && run.transferId !in old(transfers)
        && transfers == old(transfers)[run.transferId := TransferOf(t, run, output.bytes)]
        && objects == old(objects)[PathFor(t, run, output.bytes) := output.bytes]
      ensures r.Err? ==> deliveries == old(deliveries) && transfers == old(transfers)
    {
      hide Lifecycle, PushSteps, PutSucceeds, InsertSucceeds, TransferOf, DestinationOf, PathFor;
      var error := PutAndInsert(t, run, destination, output.bytes);
      if error.Some? {
        var code := FailExecution(run.id, error.value, run.completed, run);
        return Err(code);
      }
      return Ok(output);
    }

    /** Inserts the execution row, already authorizing. */
    method InsertExecution(run: Run) returns (ok: bool)
      requires Valid()
      modifies this`executions, this`versions
      ensures ok <==> run.insertOk && run.id !in old(executions)
      ensures ok ==> Tracks(run) && executions == old(executions)[run.id := Inserted(run.mode)]
      ensures !ok ==> executions == old(executions) && versions == []
    {
      versions := [];
      ok := run.insertOk && run.id !in executions;
      if ok {
        executions := executions[run.id := Inserted(run.mode)];
        versions := [Inserted(run.mode)];
      }
    }

    /** From the authorized row to the payload that is to be delivered. */
    method Produce(t: Tools, run: Run, services: seq<Service>) returns (r: Result<Payload, Code>)
      requires Sound(run) && Tracks(run) && executions[run.id].state == Authorizing
      requires Refusal(run).None? && services == Services(run)
      modifies this`executions, this`versions, this`hops
      ensures Advanced(old(executions), run, Processing, r) && r == Product(t, run)
      ensures HopsFollow(t, run, old(hops), hops)
      ensures r.Ok? ==> run.id in hops && Recorded(run, hops[run.id], t.hashing.sum(r.value.bytes))
    {
      hide Lifecycle, Queried, HopsPass, Decision, PolicyInput, Services, Traced;
      var decision := Authorize(PolicyInput(run));
      if decision.Err? {
        var code := FailExecution(run.id, decision.error, run.completed, run);
        return Err(code);
      }
      TransitionExecution(run.id, BeginRead(run.now), run);
      r := ReadScope(t, run);
      if r.Ok? {
        r := Traverse(t, run, services, r.value);
      }
    }

    method FinishDelivery(t: Tools, run: Run, output: Payload)
      requires Tracks(run) && executions[run.id].state == Processing
      modifies this`executions, this`versions
      ensures Advanced(old(executions), run, Delivered, Ok(output))
              && executions[run.id].result == Some(Meta(t, output))
    {
      hide Lifecycle;
      TransitionExecution(run.id, Deliver(Meta(t, output), run.now, run.completed), run);
    }

    /** Everything after the row is inserted. */
    method RunInserted(t: Tools, run: Run, services: seq<Service>, destination: Party)
      returns (r: Result<ResultMeta, Code>)
      requires Sound(run) && Tracks(run) && executions[run.id].state == Authorizing && run.id !in deliveries
      requires Refusal(run).None? && services == Services(run) && DestinationOf(run) == Some(destination)
      modifies this
      ensures Advanced(old(executions), run, Delivered, if r.Ok? then Ok(EMPTY) else Err(r.error))
      ensures r.Ok? ==> executions[run.id].result == Some(r.value)
      ensures r == Delivery(t, run, old(Exists()))
      ensures HopsFollow(t, run, old(hops), hops)
      ensures r.Ok? ==> run.id in hops && Recorded(run, hops[run.id], r.value.sha)
      ensures if r.Ok? && run.mode == Push then Sent(t, run, old(transfers), old(deliveries), r.value)
              else transfers == old(transfers) && deliveries == old(deliveries)
      ensures if Pushes(t, run)
              then PushSteps(t, run, Product(t, run).value.bytes, old(View(run.completed))) == Some(View(run.completed))
              else objects == old(objects)
    {
      hide Lifecycle, Product, PushSteps, Services, Refusal, DestinationOf, PutSucceeds, InsertSucceeds, Recorded,
           Decision, HopsFollow;
      ProductFits(t, run);
      var output := Produce(t, run, services);
      if output.Ok? && run.mode == Push {
        output := CreateTransfer(t, run, destination, output.value);
      }
      if output.Err? {
        return Err(output.error);
      }
      SentIsStored(t, run, output.value, old(objects));
      hide Stored, TransferOf, PathFor;
      FinishDelivery(t, run, output.value);
      return Ok(Meta(t, output.value));
    }

    /** The one new transfer of a delivered push: pending, for the destination, with the
        result's checksum and size over a stored object. */
    ghost predicate Sent(t: Tools, run: Run, before: Rows, delivered: map<RecordId, RecordId>, result: ResultMeta)
      reads this
    {
      && run.transferId !in before && run.transferId in transfers
      && transfers == before[run.transferId := transfers[run.transferId]]
      && deliveries == delivered[run.id := run.transferId]
      && Stored(t, run, transfers[run.transferId], objects, result)
    }

    /** What a run leaves when it ends in `r`: its row, its hops, its transfer and its object,
        and nothing else. */
    twostate predicate Executed(t: Tools, run: Run, new r: Result<ResultMeta, Code>)
      requires Sound(run)
      reads this
    {
      var starts := Starts(run, old(executions.Keys));
      && r == Outcome(t, run, old(Exists()))
      && (starts ==>
            && Tracks(run) && executions.Keys == old(executions.Keys) + {run.id}
            && (r.Ok? ==> executions[run.id].state == Delivered && executions[run.id].result == Some(r.value))
            && (r.Err? ==> executions[run.id].state == Failed && executions[run.id].error == Some(r.error))
            && HopsFollow(t, run, old(hops), hops))
      && (forall id | id in old(executions) :: id in executions && executions[id] == old(executions[id]))
      && (!starts ==> r.Err? && executions == old(executions) && hops == old(hops))
      && (r.Ok? ==> run.id in hops && Recorded(run, hops[run.id], r.value.sha))
      && (if r.Ok? && run.mode == Push then Sent(t, run, old(transfers), old(deliveries), r.value)
          else transfers == old(transfers) && deliveries == old(deliveries))
      && (if starts && Pushes(t, run)
          then PushSteps(t, run, Product(t, run).value.bytes, old(View(run.completed))) == Some(View(run.completed))
          else objects == old(objects))
    }

    /** One push or pull over a loaded configuration.  Row updates are taken to succeed. */
    method ExecuteRoute(t: Tools, run: Run) returns (r: Result<ResultMeta, Code>)
      requires Sound(run) && Valid()
      modifies this
      ensures Valid()
      ensures Executed(t, run, r)
    {
      hide Lifecycle, Refusal, Stored, Services, DestinationOf, Recorded, HopsFollow, ServicesReady, HopIds,
           Decision, PolicyInput, Product, Queried, HopsPass, ScopeLoads, Sent, PushSteps, Pushes;
      var resolved := ResolveRoute(run);
      if resolved.Err? {
        return Err(resolved.error);
      }
      if run.id in executions {
        return Err(NameAlreadyExists);
      }
      var inserted := InsertExecution(run);
      if !inserted {
        return Err(InvalidRequest);
      }
      r := RunInserted(t, run, resolved.value.0, resolved.value.1);
    }
  }

  /** The rows a traversal records, whether it completes or not. */
  ghost predicate Traced(t: Tools, run: Run, payload: Payload, rows: seq<HopResult>)
    requires Sound(run) && ServicesReady(run)
  {
    if 0 < |Services(run)| <= run.maxHops
    then RowsOf(t.hashing, Services(run), payload, IdentityAttempts(payload, run.contexts), rows)
    else rows == []
  }

  /** An execution that gets as far as its route records that traversal; no other hop row changes. */
  ghost predicate HopsFollow(t: Tools, run: Run, before: map<RecordId, seq<HopResult>>,
                             after: map<RecordId, seq<HopResult>>)
    requires Sound(run) && Refusal(run).None?
  {
    if Decision(PolicyInput(run)).Ok? && Queried(t, run).Ok? then
      && run.id in after && after == before[run.id := after[run.id]]
      && Traced(t, run, Queried(t, run).value, after[run.id])
    else after == before
  }

  /** Recorded hops are completed with the payload's checksum, except that the one at which
      the context ended fails with no output, and is the last. */
  lemma TracedRows(t: Tools, run: Run, payload: Payload, rows: seq<HopResult>, i: nat)
    requires Sound(run) && ServicesReady(run) && Traced(t, run, payload, rows) && i < |rows|
    ensures i < |Services(run)|
    ensures var s, sum := Services(run)[i], t.hashing.sum(payload.bytes);
      rows[i] == if run.contexts[i].Lasts? then HopResult(i, s.id, s.canonical, true, sum, sum, None)
                 else HopResult(i, s.id, s.canonical, false, sum, t.hashing.sum([]), Some(ServiceHopFailed))
    ensures !run.contexts[i].Lasts? ==> i == |rows| - 1
  {
    hide RowsOf, Services;
    IdentityRows(t.hashing, Services(run), payload, run.contexts, rows, i);
  }

  function Inserted(mode: Mode): Row {
    Row(mode, Authorizing, None, None, None, None)
  }

  predicate Starts(run: Run, ids: set<RecordId>) {
    Refusal(run).None? && run.insertOk && run.id !in ids
  }

  /** One completed hop row per Service occurrence, with the payload's checksum on both sides. */
  predicate Recorded(run: Run, rows: seq<HopResult>, sha: string) {
    && |rows| == |Services(run)|
    && forall i | 0 <= i < |rows| ::
         rows[i] == HopResult(i, Services(run)[i].id, Services(run)[i].canonical, true, sha, sha, None)
  }

  lemma PassingRows(t: Tools, run: Run, payload: Payload, rows: seq<HopResult>)
    requires Sound(run) && ServicesReady(run)
    requires Services(run) == [] ==> rows == []
    requires Services(run) != [] ==>
      && RowsOf(t.hashing, Services(run), payload, IdentityAttempts(payload, run.contexts), rows)
      && Stop(t.hashing, payload, IdentityAttempts(payload, run.contexts), |Services(run)|) == |Services(run)|
    ensures Recorded(run, rows, t.hashing.sum(payload.bytes))
  {
  }

  /** The transfer carries the delivered result to the destination, and its object is stored. */
  predicate Stored(t: Tools, run: Run, x: Transfer, objects: map<Path, seq<byte>>, result: ResultMeta) {
    && x.sha == result.sha && x.size == result.byteSize && x.status == Pending
    && DestinationOf(run).Some? && x.destination == Some(DestinationOf(run).value.id)
    && x.expiresAt == run.completed + run.ttl
    && x.path in objects && t.hashing.sum(objects[x.path]) == x.sha && |objects[x.path]| == x.size
  }

  lemma SentIsStored(t: Tools, run: Run, output: Payload, before: map<Path, seq<byte>>)
    requires DestinationOf(run).Some?
    ensures Stored(t, run, TransferOf(t, run, output.bytes), before[PathFor(t, run, output.bytes) := output.bytes],
                   Meta(t, output))
  {
  }

  function Product(t: Tools, run: Run): Result<Payload, Code>
    requires Sound(run) && Refusal(run).None?
  {
    var decision := Decision(PolicyInput(run));
    if decision.Err? then Err(decision.error)
    else
      var payload := Queried(t, run);
      if payload.Err? then payload
      else if HopsPass(t, run, payload.value) then payload
      else Err(ServiceHopFailed)
  }

  /** The run comes to the delivery of a push. */
  predicate Pushes(t: Tools, run: Run)
    requires Sound(run) && Refusal(run).None?
  {
    run.mode == Push && Product(t, run).Ok?
  }

  lemma ProductFits(t: Tools, run: Run)
    requires Sound(run) && Refusal(run).None?
    ensures Product(t, run).Ok? ==> |Product(t, run).value.bytes| <= run.maxPayload
  {
    hide Decision, PolicyInput, HopsPass, ScopeLoads, Refusal;
  }

  /** What the caller is told, given what exists before. */
  function Outcome(t: Tools, run: Run, seen: Seen): Result<ResultMeta, Code>
    requires Sound(run)
  {
    if Refusal(run).Some? then Err(Refusal(run).value)
    else if run.id in seen.executions then Err(NameAlreadyExists)
    else if !run.insertOk then Err(InvalidRequest)
    else Delivery(t, run, seen)
  }

  function Delivery(t: Tools, run: Run, seen: Seen): Result<ResultMeta, Code>
    requires Sound(run) && Refusal(run).None?
  {
    var payload := Product(t, run);
    if payload.Err? then Err(payload.error)
    else if run.mode == Push && !PutSucceeds(t, run, payload.value.bytes, seen.paths) then Err(StorageProviderError)
    else if run.mode == Push && !InsertSucceeds(run, seen.transfers) then Err(InvalidRequest)
    else Ok(Meta(t, payload.value))
  }

  function TransferOf(t: Tools, run: Run, bytes: seq<byte>): Transfer {
    var destination := if DestinationOf(run).Some? then DestinationOf(run).value.id else "";
    Transfer(Some(destination), Pending, PathFor(t, run, bytes), |bytes|, t.hashing.sum(bytes), None,
             run.completed + run.ttl, None)
  }

  function Contents(assets: seq<ScopedAsset>, fetches: seq<Fetch>): (r: seq<Loaded>)
    requires |fetches| == |assets| && forall i | 0 <= i < |fetches| :: fetches[i].Stream?
    ensures |r| == |assets| && forall i | 0 <= i < |r| :: r[i] == Loaded(assets[i].id, fetches[i].content)
  {
    seq(|assets|, i requires 0 <= i < |assets| => Loaded(assets[i].id, fetches[i].content))
  }

  predicate ScopeLoads(t: Tools, run: Run)
    requires Sound(run)
  {
    && Total(run.fetches, |run.fetches|) <= run.maxPayload
    && forall i | 0 <= i < |run.assets| :: Loadable(t.hashing.sum, run.assets[i], run.op, run.fetches[i])
  }

  /** The payload of the query on the loaded scope, within the size limit. */
  function Bounded(t: Tools, loaded: seq<Loaded>, maxPayload: nat): (r: Result<Payload, Code>)
    ensures r.Ok? ==> |r.value.bytes| <= maxPayload
  {
    if loaded == [] then Err(QueryInvalid)
    else if t.query(loaded).Err? then t.query(loaded)
    else if |t.query(loaded).value.bytes| > maxPayload then Err(PayloadTooLarge)
    else t.query(loaded)
  }

  method RunQuery(t: Tools, loaded: seq<Loaded>, maxPayload: nat) returns (r: Result<Payload, Code>)
    ensures r == Bounded(t, loaded, maxPayload)
  {
    if |loaded| == 0 {
      return Err(QueryInvalid);
    }
    r := t.query(loaded);
    if r.Ok? && |r.value.bytes| > maxPayload {
      r := Err(PayloadTooLarge);
    }
  }

  function Queried(t: Tools, run: Run): Result<Payload, Code>
    requires Sound(run)
  {
    if ScopeLoads(t, run) then Bounded(t, Contents(run.assets, run.fetches), run.maxPayload) else Err(AssetUnavailable)
  }

  predicate HopsPass(t: Tools, run: Run, payload: Payload)
    requires Sound(run)
  {
    || Services(run) == []
    || (|Services(run)| <= run.maxHops && t.hashing.seal(payload.envelope).Some?
        && forall i | 0 <= i < |run.contexts| :: run.contexts[i].Lasts?)
  }
}
