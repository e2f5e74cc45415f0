/** Transfer rows and the statements that change them (internal/store/transfers.go,
    the transfer table of db/schema.sql). */
module TransferRows {
  import opened Prelude
  import opened Domain

  datatype Status = Pending | Accepted | Rejected | Expired

  /** Object paths: `transfers/<id>/<sha>`, `brains/<brain>/accepted-transfers/<id>/<sha>`
      and `brains/<brain>/assets/<id>/<sha>`. */
  datatype Path =
    | TransferPath(transfer: RecordId, sha: string)
    | AcceptedPath(brain: RecordId, transfer: RecordId, sha: string)
    | UploadPath(brain: RecordId, asset: RecordId, sha: string)

  /** The Brain reference becomes absent when the Brain is deleted. */
  datatype Transfer = Transfer(
    destination: Option<RecordId>, status: Status, path: Path, size: nat, sha: string,
    acceptedAsset: Option<RecordId>, expiresAt: nat, resolvedAt: Option<nat>)

  datatype Asset = Asset(brain: RecordId, key: string, path: Path, size: nat, sha: string)

  type Rows = map<RecordId, Transfer>

  /** The resolution check of the table. */
  predicate ResolutionShape(t: Transfer) {
    match t.status
    case Pending => t.resolvedAt.None? && t.acceptedAsset.None?
    case Accepted => t.resolvedAt.Some? && t.acceptedAsset.Some?
    case _ => t.resolvedAt.Some? && t.acceptedAsset.None?
  }

  predicate IsPending(rows: Rows, id: RecordId) {
    id in rows && rows[id].status == Pending
  }

  function MarkedAccepted(t: Transfer, asset: RecordId, at: nat): Transfer {
    t.(status := Accepted, acceptedAsset := Some(asset), resolvedAt := Some(at))
  }

  function MarkedTerminal(t: Transfer, status: Status, at: nat): Transfer {
    t.(status := status, resolvedAt := Some(at))
  }

  predicate Overdue(t: Transfer, now: nat) {
    t.status == Pending && t.expiresAt <= now
  }

  function Swept(rows: Rows, now: nat): (r: Rows)
    ensures r.Keys == rows.Keys
    ensures forall id | id in rows ::
              r[id] == if Overdue(rows[id], now) then MarkedTerminal(rows[id], Expired, now) else rows[id]
  {
    map id | id in rows :: if Overdue(rows[id], now) then MarkedTerminal(rows[id], Expired, now) else rows[id]
  }

  /** A row that is no longer pending never changes its outcome. */
  predicate Keeps(before: Transfer, after: Transfer) {
    && (before.status != Pending ==>
          && after.status == before.status && after.resolvedAt == before.resolvedAt
          && after.acceptedAsset == before.acceptedAsset)
    && after.path == before.path && after.sha == before.sha && after.size == before.size
       && after.expiresAt == before.expiresAt
  }

  class Table {
    var rows: Rows

    /** Every row satisfies the table's check. */
    ghost predicate Valid()
      reads this
    {
      forall id | id in rows :: ResolutionShape(rows[id])
    }

    constructor ()
      ensures Valid() && rows == map[]
    {
      rows := map[];
    }

    method MarkTransferAccepted(id: RecordId, asset: RecordId, at: nat) returns (found: bool)
      requires Valid()
      modifies this
      ensures Valid() && found == IsPending(old(rows), id)
      ensures rows == if found then old(rows)[id := MarkedAccepted(old(rows[id]), asset, at)] else old(rows)
    {
      found := id in rows && rows[id].status == Pending;
      if found {
        rows := rows[id := rows[id].(status := Accepted, acceptedAsset := Some(asset), resolvedAt := Some(at))];
      }
    }

    method MarkTransferTerminal(id: RecordId, status: Status, at: nat) returns (found: bool)
      requires Valid() && status in {Rejected, Expired}
      modifies this
      ensures Valid() && found == IsPending(old(rows), id)
      ensures rows == if found then old(rows)[id := MarkedTerminal(old(rows[id]), status, at)] else old(rows)
    {
      found := id in rows && rows[id].status == Pending;
      if found {
        rows := rows[id := rows[id].(status := status, resolvedAt := Some(at))];
      }
    }

    method ExpirePendingTransfers(now: nat) returns (changed: set<RecordId>)
      requires Valid()
      modifies this
      ensures Valid() && rows == Swept(old(rows), now)
      ensures changed == set id | id in old(rows) && Overdue(old(rows)[id], now)
      ensures forall id :: id in changed <==>
                id in old(rows) && old(rows)[id].status == Pending && old(rows)[id].expiresAt <= now
      ensures forall id | id in rows ::
                id in old(rows)
                && rows[id] == if id in changed then old(rows)[id].(status := Expired, resolvedAt := Some(now))
                               else old(rows)[id]
      ensures forall id | id in rows :: !Overdue(rows[id], now)
    {
      changed := set id | id in rows && Overdue(rows[id], now);
      rows := Swept(rows, now);
    }
  }
}
