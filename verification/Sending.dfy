/** Sending over a query path: an idempotent push (sendQueryPath of
    internal/httpapi/handlers_execution.go). */
module Sending {
  import opened Prelude
  import opened Domain
  import ConfigStore
  import Deliveries
  import Execution
  import opened IdempotencyRecords

  /** One request: who sends it under which key, the hash of its body, the times of its
      statements and whether its completion is stored. */
  datatype Request = Request(
    user: RecordId, brain: RecordId, key: string, row: RecordId, hash: string, expiresAt: nat, now: nat, later: nat,
    completionStored: bool)

  /** The path can be sent over by the owner of the Brain. */
  predicate Sendable(loaded: Option<ConfigStore.Config>, q: Request) {
    loaded.Some? && loaded.value.brain == q.brain && loaded.value.state == Enabled
  }

  /** Keys are scoped by the path they are used on. */
  function KeyOf(q: Request, path: RecordId): Key {
    Key(q.user, "send:" + path, q.key)
  }

  /** A key is shared only by sends of one user over one path under one client key. */
  lemma PathsTellApart(q: Request, p: Request, path: RecordId, other: RecordId)
    requires KeyOf(q, path) == KeyOf(p, other)
    ensures path == other && q.user == p.user && q.key == p.key
  {
    assert KeyOf(q, path).scope[5..] == path && KeyOf(p, other).scope[5..] == other;
  }

  /** A claim takes nothing from another key. */
  lemma OtherKeyStaysFree(rs: Records, k: Key, id: RecordId, hash: string, stamp: nat, at: nat,
                          response: Option<Response>, other: Key, row: RecordId, expiresAt: nat, now: nat)
    requires k != other && row != id && Claimable(rs, other, row, expiresAt, now)
    ensures Claimable(Served(rs, k, id, hash, stamp, at, response), other, row, expiresAt, now)
  {
  }

  /** The run a send starts: a push by the Brain over the loaded configuration. */
  predicate Sends(run: Execution.Run, loaded: Option<ConfigStore.Config>) {
    && Execution.Sound(run) && run.mode == Push && run.initiator == run.source
    && (loaded.Some? ==> run.config == loaded.value)
  }

  /** A delivered push goes to the fixed Brain of the route. */
  lemma SentToTerminal(t: Execution.Tools, run: Execution.Run, seen: Execution.Seen)
    requires Execution.Sound(run) && run.mode == Push && Execution.Outcome(t, run, seen).Ok?
    ensures run.config.route.Some? && run.config.route.value.terminal.Fixed?
    ensures Execution.DestinationOf(run).Some?
            && Execution.DestinationOf(run).value.id == run.config.route.value.terminal.brain
  {
    hide Execution.Outcome, Deliveries.Answered, Execution.Sound;
    Deliveries.DeliveredWhen(t, run, seen);
    var payload :| Deliveries.Delivers(t, run, seen, payload);
    Deliveries.PushedTransfer(t, run, seen, payload);
  }

  class Sender {
    const api: Execution.Api
    const records: Store

    constructor (api: Execution.Api, records: Store)
      ensures this.api == api && this.records == records
    {
      this.api := api;
      this.records := records;
    }

    ghost predicate Valid()
      reads this, api, records
    {
      api.Valid() && records.Valid()
    }

    /** Claims the key, runs the route and stores the response; a failed run leaves the
        claim without a response. */
    method SendQueryPath(t: Execution.Tools, loaded: Option<ConfigStore.Config>, run: Execution.Run, q: Request,
                         render: Execution.ResultMeta -> Response)
      returns (r: Result<Response, Code>, ran: bool)
      requires Valid() && Sends(run, loaded) && q.now <= q.later
      modifies api, records
      ensures Valid()
      ensures loaded.None? || loaded.value.brain != q.brain <==> r == Err(PathNotFound) && !ran && !Sendable(loaded, q)
      ensures loaded.Some? && loaded.value.brain == q.brain && loaded.value.state != Enabled ==> r == Err(PathDisabled)
      ensures ran <==>
        && loaded.Some? && loaded.value.brain == q.brain && loaded.value.state == Enabled
        && Claimable(old(records.records), KeyOf(q, loaded.value.id), q.row, q.expiresAt, q.now)
      ensures ran ==>
        var outcome := Execution.Outcome(t, run, old(api.Exists()));
        && api.Executed(t, run, outcome)
        && r == (if outcome.Ok? then Ok(render(outcome.value)) else Err(outcome.error))
        && records.records == Served(old(records.records), KeyOf(q, loaded.value.id), q.row, q.hash, q.expiresAt, q.now,
                                     if r.Ok? && q.completionStored then Some(r.value) else None)
      ensures ran && r.Ok? ==>
        && loaded.value.route.Some? && loaded.value.route.value.terminal.Fixed?
        && run.transferId in api.transfers && api.transfers[run.transferId].status.Pending?
        && api.transfers[run.transferId].destination == Some(loaded.value.route.value.terminal.brain)
      ensures !ran ==> records.records == old(records.records) && unchanged(api)
      ensures !ran && Sendable(loaded, q) ==>
        r == Turned(records.records, KeyOf(q, loaded.value.id), q.hash, q.expiresAt, q.now, q.later)
    {
      hide Execution.Delivery, Execution.Refusal, Execution.DestinationOf, Execution.Sound, Execution.Recorded,
           Execution.HopsFollow, Execution.PushSteps, Execution.Pushes, Execution.Product, Execution.Lifecycle;
      ran := false;
      if loaded.None? || loaded.value.brain != q.brain {
        return Err(PathNotFound), false;
      }
      if loaded.value.state != Enabled {
        return Err(PathDisabled), false;
      }
      var started := records.Start(KeyOf(q, loaded.value.id), q.row, q.hash, q.expiresAt, q.now, q.later);
      match started {
        case Refused(code) => return Err(code), false;
        case Replayed(response) => return Ok(response), false;
        case Fresh(record) =>
      }
      ran := true;
      var result := api.ExecuteRoute(t, run);
      if result.Err? {
        return Err(result.error), true;
      }
      SentToTerminal(t, run, old(api.Exists()));
      var response := render(result.value);
      if q.completionStored {
        var found := records.Complete(started.record.id, response);
      }
      return Ok(response), true;
    }

    /** Sent again before the claim expires, a request that succeeded runs nothing and
        returns the first response; a different body is refused. */
    method SendAgain(t: Execution.Tools, loaded: Option<ConfigStore.Config>, run: Execution.Run, q: Request,
                     reloaded: Option<ConfigStore.Config>, again: Execution.Run, p: Request,
                     render: Execution.ResultMeta -> Response)
      returns (first: Result<Response, Code>, second: Result<Response, Code>, ran: bool, reran: bool)
      requires Valid() && Sends(run, loaded) && Sends(again, reloaded)
      requires Sendable(loaded, q) && Sendable(reloaded, p) && KeyOf(q, loaded.value.id) == KeyOf(p, reloaded.value.id)
      requires q.now <= q.later <= p.now <= p.later && p.later < q.expiresAt && p.now < p.expiresAt
      modifies api, records
      ensures ran ==> !reran
      ensures ran && first.Ok? && q.completionStored && p.hash == q.hash ==> second == first
      ensures ran && p.hash != q.hash ==> second == Err(IdempotencyKeyReused)
      ensures ran && (first.Err? || !q.completionStored) ==> second == Err(IdempotencyKeyReused)
      ensures ran ==> api.Executed(t, run, Execution.Outcome(t, run, old(api.Exists())))
    {
      hide Execution.Outcome, Execution.Sound, Served, Turned, Claimable;
      first, ran := SendQueryPath(t, loaded, run, q, render);
      ServedAnswers(old(records.records), KeyOf(q, loaded.value.id), q.row, q.hash, q.expiresAt, q.now,
                    if first.Ok? && q.completionStored then Some(first.value) else None,
                    p.row, p.hash, p.expiresAt, p.now, p.later);
      second, reran := SendQueryPath(t, reloaded, again, p, render);
    }

    /** Sends over two paths run both, even under one client key, when both keys are free. */
    method SendOverBoth(t: Execution.Tools, loaded: Option<ConfigStore.Config>, run: Execution.Run, q: Request,
                        other: Option<ConfigStore.Config>, next: Execution.Run, p: Request,
                        render: Execution.ResultMeta -> Response)
      returns (first: Result<Response, Code>, second: Result<Response, Code>, ran: bool, reran: bool)
      requires Valid() && Sends(run, loaded) && Sends(next, other)
      requires Sendable(loaded, q) && Sendable(other, p) && loaded.value.id != other.value.id
      requires q.now <= q.later <= p.now <= p.later && q.row != p.row
      requires Claimable(records.records, KeyOf(q, loaded.value.id), q.row, q.expiresAt, q.now)
      requires Claimable(records.records, KeyOf(p, other.value.id), p.row, p.expiresAt, p.now)
      modifies api, records
      ensures Valid() && ran && reran
      ensures first == (var outcome := Execution.Outcome(t, run, old(api.Exists()));
                        if outcome.Ok? then Ok(render(outcome.value)) else Err(outcome.error))
      ensures Execution.Starts(run, old(api.executions.Keys)) ==> run.id in api.executions
      ensures Execution.Starts(next, old(api.executions.Keys)) && next.id != run.id ==> next.id in api.executions
    {
      hide Execution.Outcome, Execution.Sound, Execution.Refusal, Served, Turned, Claimable;
      if KeyOf(q, loaded.value.id) == KeyOf(p, other.value.id) {
        PathsTellApart(q, p, loaded.value.id, other.value.id);
      }
      first, ran := SendQueryPath(t, loaded, run, q, render);
      OtherKeyStaysFree(old(records.records), KeyOf(q, loaded.value.id), q.row, q.hash, q.expiresAt, q.now,
                        if first.Ok? && q.completionStored then Some(first.value) else None,
                        KeyOf(p, other.value.id), p.row, p.expiresAt, p.now);
      second, reran := SendQueryPath(t, other, next, p, render);
    }
  }
}
