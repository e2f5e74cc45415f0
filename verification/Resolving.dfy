/** Accepting and rejecting under an idempotency key (acceptTransfer and rejectTransfer of
    internal/httpapi/handlers_transfers.go). */
module Resolving {
  import opened Prelude
  import opened Domain
  import opened TransferRows
  import opened TransferProtocol
  import opened TransferHandlers
  import opened IdempotencyRecords
  import Sending

  /** What is asked for a transfer; an accept brings a fresh asset id. */
  datatype Decision = Accept(asset: RecordId, objectKey: string) | Reject

  /** One request: who decides what about which transfer, its key and body hash, the times
      of its statements, what fails around it, and whether its completion is stored. */
  datatype Request = Request(
    user: RecordId, transfer: RecordId, decision: Decision, key: string, row: RecordId, hash: string, expiresAt: nat,
    now: nat, later: nat, conditions: Conditions, deleteFails: bool, completionStored: bool)

  /** The response to a resolved transfer, with the asset of an accept. */
  type Rendering = (RecordId, Status, Option<Asset>) -> Response

  function Scope(q: Request): string {
    (if q.decision.Accept? then "accept:" else "reject:") + q.transfer
  }

  /** Keys are scoped by the decision and its transfer. */
  function KeyOf(q: Request): Key {
    Key(q.user, Scope(q), q.key)
  }

  lemma ScopesTellApart(q: Request, p: Request)
    requires KeyOf(q) == KeyOf(p)
    ensures q.transfer == p.transfer && q.user == p.user && (q.decision.Accept? <==> p.decision.Accept?)
  {
    assert Scope(q)[0] == (if q.decision.Accept? then 'a' else 'r');
    assert Scope(p)[0] == (if p.decision.Accept? then 'a' else 'r');
    assert Scope(q)[7..] == q.transfer && Scope(p)[7..] == p.transfer;
  }

  /** No send shares its key with an accept or a reject. */
  lemma SendsTellApart(q: Request, send: Sending.Request, path: RecordId)
    ensures KeyOf(q) != Sending.KeyOf(send, path)
  {
    assert Sending.KeyOf(send, path).scope[0] == 's';
    assert Scope(q)[0] in {'a', 'r'};
  }

  /** The records after a request that claimed its key and was answered `r`. */
  function Kept(before: Records, q: Request, r: Result<Response, Code>): Records {
    Served(before, KeyOf(q), q.row, q.hash, q.expiresAt, q.now,
           if r.Ok? && q.completionStored then Some(r.value) else None)
  }

  /** The protocol's steps of the decision up to the commit, and the deletion after it. */
  function Marked(c: Config, s: State, q: Request): Option<State> {
    match q.decision
    case Accept(asset, key) => Committed(c, s, q.transfer, asset, key, q.conditions.marking)
    case Reject => Declined(c, s, q.transfer, q.conditions.marking)
  }

  function Cleaned(c: Config, s: State, q: Request): Option<State> {
    Then(c, Marked(c, s, q), Resolve(ResolvedDelete(HANDLER)))
  }

  /** The decision goes through, run alone. */
  predicate Goes(c: Config, s: State, owned: bool, q: Request) {
    && owned && Marked(c, s, q).Some? && !q.conditions.commitFails
    && (q.decision.Accept? ==>
          !q.conditions.getFails && !q.conditions.readFails && !q.conditions.putFails)
  }

  /** One complete run of the steps, answered with its outcome. */
  predicate Settles(c: Config, s: State, q: Request, render: Rendering, after: State, r: Result<Response, Code>) {
    && (if q.deleteFails then Marked(c, s, q).Some? && after == Done(Marked(c, s, q).value, HANDLER)
        else Cleaned(c, s, q) == Some(after))
    && match q.decision
       case Accept(asset, _) =>
         asset !in s.assets && asset in after.assets && r == Ok(render(q.transfer, Accepted, Some(after.assets[asset])))
       case Reject => r == Ok(render(q.transfer, Rejected, None))
  }

  predicate IsResolved(rows: Rows, id: RecordId) {
    id in rows && rows[id].status != Pending
  }

  /** Which failure is reported: those every decision has, and those of an accept alone. */
  predicate CodeFits(c: Config, s: State, owned: bool, q: Request, code: Code) {
    var id := q.transfer;
    && (code == NodeNotFound <==> id !in s.transfers)
    && (code == NotAuthorized <==> id in s.transfers && !owned)
    && (code == TransferAlreadyResolved <==> owned && IsResolved(s.transfers, id))
    && match q.decision
       case Reject => code in {NodeNotFound, NotAuthorized, TransferAlreadyResolved, InvalidRequest}
       case Accept(asset, key) =>
         && (code == TransferExpired <==> owned && id in s.transfers && Overdue(s.transfers[id], s.now))
         && (code == NameAlreadyExists <==> owned && Open(s, id) && !Unclaimed(s, id, key))
         && (code in {StorageProviderError, PayloadTooLarge, AssetUnavailable} ==> owned && Unclaimed(s, id, key))
         && (owned && Unclaimed(s, id, key) ==>
               && (code == StorageProviderError <==>
                     || q.conditions.getFails || s.transfers[id].path !in s.objects
                     || (q.conditions.putFails && !q.conditions.readFails && Readable(c, s, id, key)))
               && (code == PayloadTooLarge <==>
                     && !q.conditions.getFails && s.transfers[id].path in s.objects
                     && (q.conditions.readFails || !Fits(c, s, id)))
               && (code == AssetUnavailable <==>
                     && !q.conditions.getFails && !q.conditions.readFails
                     && Fits(c, s, id) && !Readable(c, s, id, key)))
  }

  /** The rows stay, and at most the copied object is left. */
  predicate Fails(c: Config, s: State, owned: bool, q: Request, after: State, r: Result<Response, Code>) {
    && r.Err? && after.transfers == s.transfers && after.assets == s.assets
    && CodeFits(c, s, owned, q, r.error)
    && (r.error in {NodeNotFound, NotAuthorized, TransferAlreadyResolved, TransferExpired} ==> after == s)
    && (after.objects != s.objects ==>
          && q.decision.Accept? && owned
          && var copied := Copied(c, s, q.transfer, q.decision.asset, q.decision.objectKey);
             copied.Some? && after.objects == copied.value.objects)
  }

  predicate Decides(c: Config, s: State, owned: bool, q: Request, render: Rendering, after: State,
                    r: Result<Response, Code>)
  {
    if Goes(c, s, owned, q) then Settles(c, s, q, render, after, r) else Fails(c, s, owned, q, after, r)
  }

  /** Only a pending row is decided, and then it is pending no more. */
  lemma DecidedOnce(c: Config, s: State, q: Request)
    requires Quiet(s) && s.now <= q.conditions.marking && Marked(c, s, q).Some?
    ensures IsPending(s.transfers, q.transfer)
    ensures IsResolved(Marked(c, s, q).value.transfers, q.transfer)
    ensures Marked(c, s, q).value.transfers[q.transfer].destination == s.transfers[q.transfer].destination
    ensures Cleaned(c, s, q).Some? && Cleaned(c, s, q).value.transfers == Marked(c, s, q).value.transfers
  {
    hide Copied, Committed, Finished, Declined, KeyTaken, PathTaken, CanPush, CanManage, DoPush, DoManage;
    match q.decision {
      case Accept(asset, key) =>
        CommittedWhen(c, s, q.transfer, asset, key, q.conditions.marking);
      case Reject => DeclinedWhen(c, s, q.transfer, q.conditions.marking);
    }
  }

  lemma SettledIsResolved(c: Config, s: State, q: Request, render: Rendering, after: State, r: Result<Response, Code>)
    requires Quiet(s) && s.now <= q.conditions.marking && Settles(c, s, q, render, after, r)
    ensures q.transfer in s.transfers && q.transfer in after.transfers && IsResolved(after.transfers, q.transfer)
    ensures after.transfers[q.transfer].destination == s.transfers[q.transfer].destination
  {
    assert Marked(c, s, q).Some?;
    DecidedOnce(c, s, q);
    hide Marked, Cleaned;
  }

  lemma FirstSettles(c: Config, s: State, owned: bool, q: Request, render: Rendering, after: State,
                     r: Result<Response, Code>)
    requires Quiet(s) && s.now <= q.conditions.marking && Decides(c, s, owned, q, render, after, r) && r.Ok?
    ensures owned && Settles(c, s, q, render, after, r)
    ensures q.transfer in s.transfers && q.transfer in after.transfers && IsResolved(after.transfers, q.transfer)
    ensures after.transfers[q.transfer].destination == s.transfers[q.transfer].destination
  {
    hide Settles, Marked, IsResolved;
    SettledIsResolved(c, s, q, render, after, r);
  }

  /** A resolved transfer refuses every decision and nothing changes. */
  lemma ResolvedRefuses(c: Config, s: State, owned: bool, q: Request, render: Rendering, after: State,
                        r: Result<Response, Code>)
    requires Quiet(s) && s.now <= q.conditions.marking && IsResolved(s.transfers, q.transfer)
    requires Decides(c, s, owned, q, render, after, r)
    ensures after == s && r == Err(if owned then TransferAlreadyResolved else NotAuthorized)
  {
    if Marked(c, s, q).Some? {
      DecidedOnce(c, s, q);
    }
    hide Marked, Cleaned;
  }

  class Resolver {
    const desk: Desk
    const records: Store

    constructor (desk: Desk, records: Store)
      ensures this.desk == desk && this.records == records
    {
      this.desk := desk;
      this.records := records;
    }

    ghost predicate Valid()
      reads this, desk, desk.table, records
    {
      desk.Valid() && records.Valid()
    }

    /** Stores the response of a decision that went through, under its claim. */
    method Complete(q: Request, response: Response, ghost before: Records)
      requires records.Valid() && records.records == Claimed(before, KeyOf(q), q.row, q.hash, q.expiresAt, q.now)
      modifies records
      ensures records.Valid() && records.records == Kept(before, q, Ok(response))
    {
      if q.completionStored {
        var found := records.Complete(records.records[KeyOf(q)].id, response);
      }
    }

    method AcceptClaimed(q: Request, render: Rendering) returns (r: Result<Response, Code>)
      requires desk.Valid() && q.decision.Accept? && desk.now <= q.conditions.marking
      modifies desk`now, desk`assets, desk`objects, desk.table
      ensures desk.Valid() && desk.now in {old(desk.now), q.conditions.marking}
      ensures
        Decides(desk.c, old(desk.View()), old(desk.OwnsDestination(q.user, q.transfer)), q, render, desk.View(), r)
      ensures r.Ok? ==>
        && IsPending(old(desk.table.rows), q.transfer) && q.transfer in desk.table.rows
        && desk.table.rows[q.transfer].status == Accepted
        && q.decision.asset in desk.assets
        && r == Ok(render(q.transfer, Accepted, Some(desk.assets[q.decision.asset])))
    {
      hide Committed, Copied, CanStep, Apply, Readable, Fits, Unclaimed, Open, Overdue, KeyTaken, PathTaken;
      var accepted := desk.AcceptTransfer(q.user, q.transfer, q.decision.asset, q.decision.objectKey, q.conditions,
                                          q.deleteFails);
      if accepted.Err? {
        return Err(accepted.error);
      }
      return Ok(render(q.transfer, Accepted, Some(accepted.value)));
    }

    method RejectClaimed(q: Request, render: Rendering) returns (r: Result<Response, Code>)
      requires desk.Valid() && q.decision.Reject? && desk.now <= q.conditions.marking
      modifies desk`now, desk`objects, desk.table
      ensures desk.Valid() && desk.now in {old(desk.now), q.conditions.marking}
      ensures
        Decides(desk.c, old(desk.View()), old(desk.OwnsDestination(q.user, q.transfer)), q, render, desk.View(), r)
      ensures r.Ok? ==>
        && IsPending(old(desk.table.rows), q.transfer) && q.transfer in desk.table.rows
        && desk.table.rows[q.transfer].status == Rejected
        && r == Ok(render(q.transfer, Rejected, None))
    {
      hide Declined, CanStep, Apply, KeyTaken, PathTaken;
      DeclinedWhen(desk.c, desk.View(), q.transfer, q.conditions.marking);
      var rejected := desk.RejectTransfer(q.user, q.transfer, q.conditions, q.deleteFails);
      if rejected.Err? {
        return Err(rejected.error);
      }
      return Ok(render(q.transfer, Rejected, None));
    }

    method AcceptTransfer(q: Request, render: Rendering) returns (r: Result<Response, Code>, ran: bool)
      requires Valid() && q.decision.Accept? && q.now <= q.later && desk.now <= q.conditions.marking
      modifies desk`now, desk`assets, desk`objects, desk.table, records
      ensures Valid()
      ensures ran <==> Claimable(old(records.records), KeyOf(q), q.row, q.expiresAt, q.now)
      ensures !ran ==> desk.View() == old(desk.View()) && records.records == old(records.records)
      ensures !ran ==> r == Turned(records.records, KeyOf(q), q.hash, q.expiresAt, q.now, q.later)
      ensures ran ==> records.records == Kept(old(records.records), q, r)
      ensures ran ==>
        Decides(desk.c, old(desk.View()), old(desk.OwnsDestination(q.user, q.transfer)), q, render, desk.View(), r)
      ensures ran && r.Ok? ==>
        && IsPending(old(desk.table.rows), q.transfer) && q.transfer in desk.table.rows
        && desk.table.rows[q.transfer].status == Accepted
        && q.decision.asset in desk.assets
        && r == Ok(render(q.transfer, Accepted, Some(desk.assets[q.decision.asset])))
      ensures desk.now in {old(desk.now), q.conditions.marking}
    {
      hide Decides, Claimable;
      var before := records.records;
      var started := records.Start(KeyOf(q), q.row, q.hash, q.expiresAt, q.now, q.later);
      match started {
        case Refused(code) => return Err(code), false;
        case Replayed(response) => return Ok(response), false;
        case Fresh(record) =>
      }
      r := AcceptClaimed(q, render);
      if r.Ok? {
        Complete(q, r.value, before);
      }
      return r, true;
    }

    method RejectTransfer(q: Request, render: Rendering) returns (r: Result<Response, Code>, ran: bool)
      requires Valid() && q.decision.Reject? && q.now <= q.later && desk.now <= q.conditions.marking
      modifies desk`now, desk`objects, desk.table, records
      ensures Valid()
      ensures ran <==> Claimable(old(records.records), KeyOf(q), q.row, q.expiresAt, q.now)
      ensures !ran ==> desk.View() == old(desk.View()) && records.records == old(records.records)
      ensures !ran ==> r == Turned(records.records, KeyOf(q), q.hash, q.expiresAt, q.now, q.later)
      ensures ran ==> records.records == Kept(old(records.records), q, r)
      ensures ran ==>
        Decides(desk.c, old(desk.View()), old(desk.OwnsDestination(q.user, q.transfer)), q, render, desk.View(), r)
      ensures ran && r.Ok? ==>
        && IsPending(old(desk.table.rows), q.transfer) && q.transfer in desk.table.rows
        && desk.table.rows[q.transfer].status == Rejected
        && r == Ok(render(q.transfer, Rejected, None))
      ensures desk.now in {old(desk.now), q.conditions.marking}
    {
      hide Decides, Claimable;
      var before := records.records;
      var started := records.Start(KeyOf(q), q.row, q.hash, q.expiresAt, q.now, q.later);
      match started {
        case Refused(code) => return Err(code), false;
        case Replayed(response) => return Ok(response), false;
        case Fresh(record) =>
      }
      r := RejectClaimed(q, render);
      if r.Ok? {
        Complete(q, r.value, before);
      }
      return r, true;
    }

    /** The handler of the decision. */
    method Resolve(q: Request, render: Rendering) returns (r: Result<Response, Code>, ran: bool)
      requires Valid() && q.now <= q.later && desk.now <= q.conditions.marking
      modifies desk`now, desk`assets, desk`objects, desk.table, records
      ensures Valid()
      ensures ran <==> Claimable(old(records.records), KeyOf(q), q.row, q.expiresAt, q.now)
      ensures !ran ==> desk.View() == old(desk.View()) && records.records == old(records.records)
      ensures !ran ==> r == Turned(records.records, KeyOf(q), q.hash, q.expiresAt, q.now, q.later)
      ensures ran ==> records.records == Kept(old(records.records), q, r)
      ensures ran ==>
        Decides(desk.c, old(desk.View()), old(desk.OwnsDestination(q.user, q.transfer)), q, render, desk.View(), r)
      ensures desk.now in {old(desk.now), q.conditions.marking}
    {
      hide *;
      if q.decision.Accept? {
        r, ran := AcceptTransfer(q, render);
      } else {
        r, ran := RejectTransfer(q, render);
      }
    }

    /** A second decision on the transfer, under any key, changes nothing once the first went
        through.  Under the same key it runs nothing and gets the first response until the
        claim expires, and then the error that the transfer is resolved. */
    method ResolveAgain(q: Request, p: Request, render: Rendering)
      returns (first: Result<Response, Code>, second: Result<Response, Code>, ran: bool, reran: bool)
      requires Valid() && q.now <= q.later <= p.now <= p.later
      requires desk.now <= q.conditions.marking <= p.conditions.marking
      modifies desk`now, desk`assets, desk`objects, desk.table, records
      ensures Valid()
      ensures q.transfer == p.transfer && ran && first.Ok? ==>
        Settles(desk.c, old(desk.View()), q, render, desk.View(), first) && (reran ==> second.Err?)
      ensures q.transfer == p.transfer && q.user == p.user && ran && first.Ok? && reran ==>
        second == Err(TransferAlreadyResolved)
      ensures KeyOf(q) == KeyOf(p) && ran && p.now < q.expiresAt ==> !reran
      ensures KeyOf(q) == KeyOf(p) && ran && p.now < p.expiresAt && p.later < q.expiresAt ==>
        second == if first.Ok? && q.completionStored && p.hash == q.hash then first else Err(IdempotencyKeyReused)
      ensures KeyOf(q) == KeyOf(p) && ran && first.Ok? && q.expiresAt <= p.now < p.expiresAt ==>
        reran && second == Err(TransferAlreadyResolved)
    {
      hide Scope, Settles, Goes, Marked, Cleaned, IsResolved, Fails, Decides, DoPush, DoResolve, DoManage;
      if KeyOf(q) == KeyOf(p) {
        ScopesTellApart(q, p);
      }
      first, ran := Resolve(q, render);
      ghost var between, owned := desk.View(), desk.OwnsDestination(p.user, p.transfer);
      if ran && first.Ok? {
        ghost var owning := old(desk.OwnsDestination(q.user, q.transfer));
        FirstSettles(desk.c, old(desk.View()), owning, q, render, between, first);
      }
      second, reran := Resolve(p, render);
      if q.transfer == p.transfer && ran && first.Ok? && reran {
        ResolvedRefuses(desk.c, between, owned, p, render, desk.View(), second);
      }
    }
  }
}
