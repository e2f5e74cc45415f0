/** The accept and reject handlers as the program writes them, run one at a time, and
    what each does in terms of the protocol's steps (internal/httpapi/handlers_transfers.go). */
module TransferHandlers {
  import opened Prelude
  import opened Domain
  import opened TransferRows
  import opened TransferProtocol

  /** Failures outside the program's control, and the two later clock readings. */
  datatype Conditions = Conditions(
    getFails: bool, readFails: bool, putFails: bool, writtenAnyway: bool, commitFails: bool, marking: nat)

  function Locked(c: Config, s: State, id: RecordId, asset: RecordId, key: string): Option<State> {
    Then(c, Some(s), Resolve(AcceptLock(HANDLER, id, asset, key)))
  }

  function Copied(c: Config, s: State, id: RecordId, asset: RecordId, key: string): Option<State> {
    Then(c, Then(c, Locked(c, s, id, asset, key), Resolve(AcceptGet(HANDLER))), Resolve(AcceptStore(HANDLER)))
  }

  function Committed(c: Config, s: State, id: RecordId, asset: RecordId, key: string, at: nat): Option<State> {
    Then(c, Then(c, Copied(c, s, id, asset, key), Tick(at)), Resolve(AcceptCommit(HANDLER, at)))
  }

  function Finished(c: Config, s: State, id: RecordId, asset: RecordId, key: string, at: nat): Option<State> {
    Then(c, Committed(c, s, id, asset, key, at), Resolve(ResolvedDelete(HANDLER)))
  }

  predicate Quiet(s: State) {
    s.handlers == map[] && s.locks == map[]
  }

  /** The locked row can be accepted, as far as its own columns go. */
  predicate Open(s: State, id: RecordId) {
    IsPending(s.transfers, id) && s.transfers[id].expiresAt > s.now && s.transfers[id].destination.Some?
  }

  predicate Unclaimed(s: State, id: RecordId, key: string) {
    Open(s, id) && !KeyTaken(s.assets, s.transfers[id].destination.value, key)
  }

  predicate Fits(c: Config, s: State, id: RecordId) {
    id in s.transfers && s.transfers[id].path in s.objects && |s.objects[s.transfers[id].path]| <= c.maxPayload
  }

  /** What an accept needs before it copies the bytes. */
  predicate Readable(c: Config, s: State, id: RecordId, key: string) {
    Unclaimed(s, id, key) && Fits(c, s, id) && c.sum(s.objects[s.transfers[id].path]) == s.transfers[id].sha
  }

  lemma CopiedWhen(c: Config, s: State, id: RecordId, asset: RecordId, key: string)
    requires Quiet(s)
    ensures Copied(c, s, id, asset, key).Some? <==> Readable(c, s, id, key)
    ensures Readable(c, s, id, key) ==>
      Copied(c, s, id, asset, key).value ==
      State(s.now, s.transfers, s.assets, s.objects[Target(s, id) := s.objects[s.transfers[id].path]],
            map[HANDLER := AcceptPut(id, asset, key, s.now, s.objects[s.transfers[id].path])], map[id := HANDLER])
  {
    hide KeyTaken, PathTaken, CanPush, CanManage, DoPush, DoManage;
  }

  /** Undisturbed, an accept commits exactly when the bytes are readable and neither the
      asset id, the object key nor the target path is taken. */
  lemma CommittedWhen(c: Config, s: State, id: RecordId, asset: RecordId, key: string, at: nat)
    requires Quiet(s) && s.now <= at
    ensures Committed(c, s, id, asset, key, at).Some? <==>
            Readable(c, s, id, key) && asset !in s.assets && !PathTaken(s.assets, Target(s, id))
    ensures Committed(c, s, id, asset, key, at).Some? <==>
      && id in s.transfers && s.transfers[id].status == Pending && s.now < s.transfers[id].expiresAt
      && s.transfers[id].destination.Some? && asset !in s.assets
      && var row, brain := s.transfers[id], s.transfers[id].destination.value;
         && (forall a | a in s.assets ::
               && (s.assets[a].brain == brain ==> s.assets[a].key != key)
               && s.assets[a].path != AcceptedPath(brain, id, row.sha))
         && row.path in s.objects && |s.objects[row.path]| <= c.maxPayload && c.sum(s.objects[row.path]) == row.sha
    ensures Committed(c, s, id, asset, key, at).Some? ==>
      var row := s.transfers[id];
      Committed(c, s, id, asset, key, at).value ==
      State(at, s.transfers[id := MarkedAccepted(row, asset, at)],
            s.assets[asset := Asset(row.destination.value, key, Target(s, id), row.size, row.sha)],
            s.objects[Target(s, id) := s.objects[row.path]], map[HANDLER := Resolved(id)], map[])
  {
    hide CanPush, CanManage, DoPush, DoManage, Copied;
    CopiedWhen(c, s, id, asset, key);
  }

  /** The deletion that ends a complete accept touches nothing but the pending object. */
  lemma FinishedWhen(c: Config, s: State, id: RecordId, asset: RecordId, key: string, at: nat)
    requires Quiet(s) && s.now <= at && Committed(c, s, id, asset, key, at).Some?
    ensures Readable(c, s, id, key) && Finished(c, s, id, asset, key, at).Some?
    ensures var left := Done(Committed(c, s, id, asset, key, at).value, HANDLER);
            Finished(c, s, id, asset, key, at).value == left.(objects := left.objects - {s.transfers[id].path})
  {
    hide KeyTaken, PathTaken, CanPush, CanManage, DoPush, DoManage, Committed;
    CommittedWhen(c, s, id, asset, key, at);
  }

  function Declined(c: Config, s: State, id: RecordId, at: nat): Option<State> {
    Then(c, Then(c, Some(s), Tick(at)), Resolve(RejectCommit(HANDLER, id, at)))
  }

  function Withdrawn(c: Config, s: State, id: RecordId, at: nat): Option<State> {
    Then(c, Declined(c, s, id, at), Resolve(ResolvedDelete(HANDLER)))
  }

  /** Undisturbed, a reject goes through exactly for a pending row. */
  lemma DeclinedWhen(c: Config, s: State, id: RecordId, at: nat)
    requires Quiet(s) && s.now <= at
    ensures Declined(c, s, id, at).Some? <==> IsPending(s.transfers, id)
    ensures IsPending(s.transfers, id) ==>
      var marked := s.(now := at, transfers := s.transfers[id := MarkedTerminal(s.transfers[id], Rejected, at)]);
      && Done(Declined(c, s, id, at).value, HANDLER) == marked
      && Withdrawn(c, s, id, at) == Some(marked.(objects := s.objects - {s.transfers[id].path}))
  {
    hide KeyTaken, PathTaken, CanPush, CanManage, DoPush, DoManage;
  }

  class Desk {
    const c: Config
    const table: Table
    var now: nat
    var assets: map<RecordId, Asset>
    var objects: map<Path, seq<byte>>
    var sources: map<RecordId, RecordId>
    var owners: map<RecordId, RecordId>

    ghost predicate Valid()
      reads this, table
    {
      table.Valid()
    }

    constructor (c: Config, table: Table)
      requires table.Valid()
      ensures Valid() && this.c == c && this.table == table && assets == map[] && objects == map[]
    {
      this.c := c;
      this.table := table;
      assets, objects, sources, owners, now := map[], map[], map[], map[], 0;
    }

    /** The protocol's state while no other handler is running. */
    ghost function View(): State
      reads this, table
    {
      State(now, table.rows, assets, objects, map[], map[])
    }

    predicate Owns(user: RecordId, brain: Option<RecordId>)
      reads this
    {
      brain.Some? && brain.value in owners && owners[brain.value] == user
    }

    predicate OwnsSource(user: RecordId, id: RecordId)
      reads this
    {
      id in sources && Owns(user, Some(sources[id]))
    }

    predicate OwnsDestination(user: RecordId, id: RecordId)
      reads this, table
    {
      id in table.rows && Owns(user, table.rows[id].destination)
    }

    /** Unknown, invisible, or visible with the ownership of the destination. */
    method VisibleTransfer(user: RecordId, id: RecordId) returns (r: Result<(Transfer, bool), Code>)
      ensures id !in table.rows ==> r == Err(NodeNotFound)
      ensures id in table.rows ==>
        var owned := Owns(user, table.rows[id].destination);
        r == if owned || OwnsSource(user, id) then Ok((table.rows[id], owned)) else Err(NotAuthorized)
      ensures r == Err(NotAuthorized) <==>
        && id in table.rows
        && !exists b | b in owners && owners[b] == user ::
             table.rows[id].destination == Some(b) || (id in sources && sources[id] == b)
    {
      if id !in table.rows {
        return Err(NodeNotFound);
      }
      var transfer := table.rows[id];
      var sourceOwned, destinationOwned := false, false;
      if id in sources && sources[id] in owners {
        sourceOwned := owners[sources[id]] == user;
      }
      if transfer.destination.Some? && transfer.destination.value in owners {
        destinationOwned := owners[transfer.destination.value] == user;
      }
      if !sourceOwned && !destinationOwned {
        return Err(NotAuthorized);
      }
      return Ok((transfer, destinationOwned));
    }

    /** The callback of an accept: its database writes take effect at the commit or not
        at all, its object write stays.  An expired row is marked and the mark undone. */
    method AcceptInTx(id: RecordId, asset: RecordId, key: string, u: Conditions) returns (r: Result<Asset, Code>)
      requires Valid() && now <= u.marking
      modifies this`now, this`assets, this`objects, table
      ensures Valid()
      ensures r.Ok? <==>
        && old(Committed(c, View(), id, asset, key, u.marking).Some?)
        && !u.getFails && !u.readFails && !u.putFails && !u.commitFails
      ensures r.Ok? ==> View() == Done(Committed(c, old(View()), id, asset, key, u.marking).value, HANDLER)
      ensures r.Ok? ==> asset !in old(assets) && assets == old(assets)[asset := r.value] && now == u.marking
      ensures r.Ok? ==>
        && IsPending(old(table.rows), id)
        && table.rows == old(table.rows)[id := old(table.rows)[id].(status := Accepted, acceptedAsset := Some(asset),
                                                                    resolvedAt := Some(u.marking))]
      ensures r.Err? ==> r.error in {InvalidRequest, TransferAlreadyResolved, TransferExpired, NameAlreadyExists,
                                     StorageProviderError, PayloadTooLarge, AssetUnavailable}
      ensures r.Err? ==> table.rows == old(table.rows) && assets == old(assets) && now in {old(now), u.marking}
      ensures r.Err? && objects != old(objects) ==>
        && Copied(c, old(View()), id, asset, key).Some?
        && objects == Copied(c, old(View()), id, asset, key).value.objects
      ensures r == Err(TransferAlreadyResolved) <==> id in old(table.rows) && old(table.rows)[id].status != Pending
      ensures r == Err(TransferExpired) <==> id in old(table.rows) && Overdue(old(table.rows)[id], old(now))
      ensures r == Err(NameAlreadyExists) <==>
        && id in old(table.rows) && old(table.rows)[id].status == Pending && old(table.rows)[id].expiresAt > old(now)
        && exists a | a in old(assets) ::
             Some(old(assets)[a].brain) == old(table.rows)[id].destination && old(assets)[a].key == key
      ensures r == Err(StorageProviderError) <==>
        && old(Unclaimed(View(), id, key))
        && (u.getFails || old(table.rows[id].path !in objects)
            || (u.putFails && !u.readFails && old(Readable(c, View(), id, key))))
      ensures r == Err(PayloadTooLarge) <==>
        && old(Unclaimed(View(), id, key) && table.rows[id].path in objects) && !u.getFails
        && (u.readFails || !old(Fits(c, View(), id)))
      ensures r == Err(AssetUnavailable) <==>
        && old(Unclaimed(View(), id, key) && Fits(c, View(), id) && !Readable(c, View(), id, key))
        && !u.getFails && !u.readFails
    {
      hide Copied, Committed, CanStep, Apply, PathTaken;
      CopiedWhen(c, View(), id, asset, key);
      CommittedWhen(c, View(), id, asset, key, u.marking);
      if id !in table.rows {
        return Err(InvalidRequest);
      }
      var locked, saved := table.rows[id], table.rows;
      if locked.status != Pending {
        return Err(TransferAlreadyResolved);
      }
      if locked.expiresAt <= now {
        var marked := table.MarkTransferTerminal(id, Expired, now);
        table.rows := saved;
        return Err(TransferExpired);
      }
      if locked.destination.None? {
        return Err(InvalidRequest);
      }
      var brain := locked.destination.value;
      if KeyTaken(assets, brain, key) {
        return Err(NameAlreadyExists);
      }
      if u.getFails || locked.path !in objects {
        return Err(StorageProviderError);
      }
      var data := objects[locked.path];
      if u.readFails || |data| > c.maxPayload {
        return Err(PayloadTooLarge);
      }
      if c.sum(data) != locked.sha {
        return Err(AssetUnavailable);
      }
      var path := AcceptedPath(brain, id, locked.sha);
      if !u.putFails || u.writtenAnyway {
        objects := objects[path := data];
      }
      if u.putFails {
        return Err(StorageProviderError);
      }
      now := u.marking;
      if asset in assets || PathTaken(assets, path) {
        return Err(InvalidRequest);
      }
      var accepted := Asset(brain, key, path, locked.size, locked.sha);
      var before := assets;
      assets := assets[asset := accepted];
      var marked := table.MarkTransferAccepted(id, asset, u.marking);
      if u.commitFails {
        assets, table.rows := before, saved;
        return Err(InvalidRequest);
      }
      return Ok(accepted);
    }

    /** The callback of a reject, which asks only whether the row is pending. */
    method RejectInTx(id: RecordId, u: Conditions) returns (r: Result<(), Code>)
      requires Valid() && now <= u.marking
      modifies this`now, table
      ensures Valid()
      ensures r.Ok? <==> IsPending(old(table.rows), id) && !u.commitFails
      ensures r.Ok? ==>
        && table.rows == old(table.rows)[id := MarkedTerminal(old(table.rows)[id], Rejected, u.marking)]
        && now == u.marking
      ensures r.Err? ==> table.rows == old(table.rows) && r.error in {InvalidRequest, TransferAlreadyResolved}
      ensures r.Err? ==> now == if IsPending(old(table.rows), id) then u.marking else old(now)
      ensures r == Err(TransferAlreadyResolved) <==> id in old(table.rows) && old(table.rows)[id].status != Pending
    {
      if id !in table.rows {
        return Err(InvalidRequest);
      }
      var saved := table.rows;
      if table.rows[id].status != Pending {
        return Err(TransferAlreadyResolved);
      }
      now := u.marking;
      var marked := table.MarkTransferTerminal(id, Rejected, u.marking);
      if u.commitFails {
        table.rows := saved;
        return Err(InvalidRequest);
      }
      return Ok(());
    }

    /** Accepts exactly for the destination's owner when the protocol's steps go through:
        lock, read, copy, commit, and then the deletion of the pending object. */
    method AcceptTransfer(user: RecordId, id: RecordId, asset: RecordId, key: string, u: Conditions, deleteFails: bool)
      returns (r: Result<Asset, Code>)
      requires Valid() && now <= u.marking
      modifies this`now, this`assets, this`objects, table
      ensures Valid()
      ensures r.Ok? <==>
        && old(OwnsDestination(user, id)) && old(Committed(c, View(), id, asset, key, u.marking).Some?)
        && !u.getFails && !u.readFails && !u.putFails && !u.commitFails
      ensures r.Ok? ==>
        && Finished(c, old(View()), id, asset, key, u.marking).Some?
        && if deleteFails then View() == Done(Committed(c, old(View()), id, asset, key, u.marking).value, HANDLER)
           else View() == Finished(c, old(View()), id, asset, key, u.marking).value
      ensures r.Ok? ==> asset !in old(assets) && assets == old(assets)[asset := r.value] && now == u.marking
      ensures r.Ok? ==>
        && IsPending(old(table.rows), id)
        && table.rows == old(table.rows)[id := old(table.rows)[id].(status := Accepted, acceptedAsset := Some(asset),
                                                                    resolvedAt := Some(u.marking))]
      ensures r.Err? ==> table.rows == old(table.rows) && assets == old(assets) && now in {old(now), u.marking}
      ensures r.Err? && objects != old(objects) ==>
        && old(OwnsDestination(user, id)) && Copied(c, old(View()), id, asset, key).Some?
        && objects == Copied(c, old(View()), id, asset, key).value.objects
      ensures r == Err(NodeNotFound) <==> id !in old(table.rows)
      ensures r == Err(NotAuthorized) <==> id in old(table.rows) && !old(OwnsDestination(user, id))
      ensures r == Err(NotAuthorized) <==>
        && id in old(table.rows)
        && !exists b | b in old(owners) && old(owners)[b] == user :: old(table.rows)[id].destination == Some(b)
      ensures r == Err(TransferAlreadyResolved) <==>
        old(OwnsDestination(user, id)) && old(table.rows)[id].status != Pending
      ensures r == Err(TransferExpired) <==>
        old(OwnsDestination(user, id)) && Overdue(old(table.rows)[id], old(now))
      ensures r == Err(NameAlreadyExists) <==>
        && old(OwnsDestination(user, id))
        && old(table.rows)[id].status == Pending && old(table.rows)[id].expiresAt > old(now)
        && exists a | a in old(assets) ::
             Some(old(assets)[a].brain) == old(table.rows)[id].destination && old(assets)[a].key == key
      ensures r == Err(NameAlreadyExists) <==>
        old(OwnsDestination(user, id) && Open(View(), id) && !Unclaimed(View(), id, key))
      ensures r == Err(StorageProviderError) <==>
        && old(OwnsDestination(user, id) && Unclaimed(View(), id, key))
        && (u.getFails || old(table.rows[id].path !in objects)
            || (u.putFails && !u.readFails && old(Readable(c, View(), id, key))))
      ensures r == Err(PayloadTooLarge) <==>
        && old(OwnsDestination(user, id) && Unclaimed(View(), id, key) && table.rows[id].path in objects)
        && !u.getFails && (u.readFails || !old(Fits(c, View(), id)))
      ensures r == Err(AssetUnavailable) <==>
        && old(OwnsDestination(user, id) && Unclaimed(View(), id, key))
        && old(Fits(c, View(), id) && !Readable(c, View(), id, key)) && !u.getFails && !u.readFails
      ensures r.Err? && r.error in {NodeNotFound, NotAuthorized, TransferAlreadyResolved, TransferExpired} ==>
        View() == old(View())
    {
      hide Committed, Finished, PathTaken, CanStep, Apply, Copied, Fits;
      var visible := VisibleTransfer(user, id);
      if visible.Err? {
        return Err(visible.error);
      }
      if !visible.value.1 {
        return Err(NotAuthorized);
      }
      var transfer := visible.value.0;
      CommittedWhen(c, View(), id, asset, key, u.marking);
      if Committed(c, View(), id, asset, key, u.marking).Some? {
        FinishedWhen(c, View(), id, asset, key, u.marking);
      }
      if transfer.status != Pending {
        return Err(TransferAlreadyResolved);
      }
      if transfer.expiresAt <= now {
        return Err(TransferExpired);
      }
      r := AcceptInTx(id, asset, key, u);
      if r.Ok? && !deleteFails {
        objects := objects - {transfer.path};
      }
    }

    /** Rejects exactly a pending transfer for the destination's owner, expired or not. */
    method RejectTransfer(user: RecordId, id: RecordId, u: Conditions, deleteFails: bool) returns (r: Result<(), Code>)
      requires Valid() && now <= u.marking
      modifies this`now, this`objects, table
      ensures Valid()
      ensures r.Ok? <==> old(OwnsDestination(user, id)) && IsPending(old(table.rows), id) && !u.commitFails
      ensures r.Ok? ==>
        && table.rows == old(table.rows)[id := MarkedTerminal(old(table.rows)[id], Rejected, u.marking)]
        && Withdrawn(c, old(View()), id, u.marking).Some?
        && if deleteFails then View() == Done(Declined(c, old(View()), id, u.marking).value, HANDLER)
           else View() == Withdrawn(c, old(View()), id, u.marking).value
      ensures r.Err? ==> table.rows == old(table.rows) && objects == old(objects)
      ensures r.Err? ==> now == old(now) || (now == u.marking && r.error == InvalidRequest)
      ensures r == Err(NodeNotFound) <==> id !in old(table.rows)
      ensures r == Err(NotAuthorized) <==> id in old(table.rows) && !old(OwnsDestination(user, id))
      ensures r == Err(NotAuthorized) <==>
        && id in old(table.rows)
        && !exists b | b in old(owners) && old(owners)[b] == user :: old(table.rows)[id].destination == Some(b)
      ensures r == Err(TransferAlreadyResolved) <==>
        old(OwnsDestination(user, id)) && old(table.rows)[id].status != Pending
      ensures r.Err? ==> r.error in {NodeNotFound, NotAuthorized, TransferAlreadyResolved, InvalidRequest}
    {
      hide Declined, Withdrawn, Done;
      DeclinedWhen(c, View(), id, u.marking);
      var visible := VisibleTransfer(user, id);
      if visible.Err? {
        return Err(visible.error);
      }
      if !visible.value.1 {
        return Err(NotAuthorized);
      }
      r := RejectInTx(id, u);
      if r.Ok? && !deleteFails {
        objects := objects - {visible.value.0.path};
      }
    }
  }
}
