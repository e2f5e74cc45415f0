/** The protocol's invariant holds over every interleaving, and what follows for every run. */
module TransferSafety {
  import opened Prelude
  import opened Domain
  import opened TransferRows
  import opened TransferProtocol

  predicate RowsGrow(rows: Rows, after: Rows) {
    forall t | t in rows :: t in after && Keeps(rows[t], after[t])
  }

  predicate Untouched(s: State, after: State, g: HandlerId) {
    g in s.handlers && g in after.handlers && after.handlers[g] == s.handlers[g]
  }

  predicate Accepts(k: Handler) {
    k.AcceptLocked? || k.AcceptRead? || k.AcceptPut?
  }

  predicate Cleans(k: Handler) {
    k.Resolved? || k.AssetSeen? || k.Cleaning?
  }

  /** No transfer appears or becomes pending, and objects of unknown transfers stay. */
  predicate LeavesPushes(s: State, after: State) {
    && after.transfers.Keys == s.transfers.Keys
    && (forall t | t in s.transfers ::
          && after.transfers[t].path == s.transfers[t].path
          && (IsPending(after.transfers, t) ==> IsPending(s.transfers, t)))
    && (forall p: Path | p.TransferPath? && p.transfer !in s.transfers && p in s.objects ::
          p in after.objects && after.objects[p] == s.objects[p])
  }

  lemma PusherKept(c: Config, s: State, after: State, g: HandlerId)
    requires LeavesPushes(s, after) && Untouched(s, after, g) && HandlersOk(c, s) && Held(c, s.handlers[g]).Some?
    ensures HandlerOk(c, after, g)
  {
    assert HandlerOk(c, s, g);
    hide HandlersOk, Accepting, Disused, NamedBy;
  }

  /** The transfers that `g` has locked stay as they are, and so do the objects at their
      accepted paths. */
  predicate LeavesAccepts(s: State, after: State, g: HandlerId) {
    && s.now <= after.now
    && (forall t | t in s.locks && s.locks[t] == g :: t in after.locks && after.locks[t] == g)
    && (forall t | t in s.locks && s.locks[t] == g && t in s.transfers ::
          t in after.transfers && after.transfers[t] == s.transfers[t])
    && (forall p: Path | p.AcceptedPath? && p.transfer in s.locks && s.locks[p.transfer] == g
          && IsPending(s.transfers, p.transfer) && p in s.objects ::
          p in after.objects && after.objects[p] == s.objects[p])
  }

  lemma AccepterKept(c: Config, s: State, after: State, g: HandlerId)
    requires LeavesAccepts(s, after, g) && Untouched(s, after, g) && HandlersOk(c, s) && Accepts(s.handlers[g])
    ensures HandlerOk(c, after, g)
  {
    assert HandlerOk(c, s, g);
    hide HandlersOk, OwnsObject, Disused, NamedBy;
  }

  /** Resolved rows stay resolved, and no asset comes to name the accepted path of one
      that was accepted. */
  predicate LeavesCleaners(s: State, after: State) {
    && (forall t | t in s.transfers ::
          && t in after.transfers && after.transfers[t].sha == s.transfers[t].sha
          && (s.transfers[t].status != Pending ==> after.transfers[t].status != Pending)
          && (s.transfers[t].acceptedAsset.Some? ==>
                after.transfers[t].acceptedAsset == s.transfers[t].acceptedAsset))
    && (forall a | a in after.assets && NamesAccepted(s.transfers, after.assets[a].path) ::
          a in s.assets && s.assets[a].path == after.assets[a].path)
  }

  predicate NamesAccepted(rows: Rows, path: Path) {
    path.AcceptedPath? && path.transfer in rows && rows[path.transfer].acceptedAsset.Some?
  }

  lemma CleanerKept(c: Config, s: State, after: State, g: HandlerId)
    requires LeavesCleaners(s, after) && Untouched(s, after, g) && HandlersOk(c, s) && Cleans(s.handlers[g])
    ensures HandlerOk(c, after, g)
  {
    assert HandlerOk(c, s, g);
    hide HandlersOk, OwnsObject, Accepting;
  }

  /** The assets stay, with their transfers' names for them and their objects. */
  predicate LeavesAssets(s: State, after: State) {
    && after.assets == s.assets
    && (forall t | t in s.transfers && s.transfers[t].acceptedAsset.Some? ::
          && t in after.transfers && after.transfers[t].acceptedAsset == s.transfers[t].acceptedAsset
          && after.transfers[t].sha == s.transfers[t].sha)
    && (forall p: Path | p.AcceptedPath? && PathTaken(s.assets, p) && p in s.objects ::
          p in after.objects && |after.objects[p]| == |s.objects[p]|)
  }

  lemma AssetsKept(s: State, after: State)
    requires LeavesAssets(s, after) && AssetsOk(s.transfers, s.assets, s.objects)
    ensures AssetsOk(after.transfers, after.assets, after.objects)
  {
    forall a | a in after.assets ensures AssetOk(after.transfers, after.objects, a, after.assets[a]) {
      assert AssetOk(s.transfers, s.objects, a, s.assets[a]);
    }
  }

  /** A push that has put nothing yet depends on nothing. */
  lemma StarterKept(c: Config, s: State, after: State, g: HandlerId)
    requires Untouched(s, after, g) && HandlersOk(c, s)
    requires Held(c, s.handlers[g]).None? && !Accepts(s.handlers[g]) && !Cleans(s.handlers[g])
    ensures HandlerOk(c, after, g)
  {
    assert HandlerOk(c, s, g);
    hide Accepting, OwnsObject, NamedBy, Disused, HandlersOk;
  }

  // ------------------------------------------------------------ Push

  lemma PushOutcomes(c: Config, s: State, step: PushStep)
    requires CanPush(c, s, step) && RowsOk(c, s.transfers)
    ensures RowsGrow(s.transfers, DoPush(c, s, step).transfers)
  {
    hide KeyTaken, PathTaken, Pinned;
  }

  lemma PushRows(c: Config, s: State, step: PushStep)
    requires CanPush(c, s, step) && RowsOk(c, s.transfers) && AcceptedPresent(s.transfers, s.assets) && HandlersOk(c, s)
    ensures RowsOk(c, DoPush(c, s, step).transfers)
            && AcceptedPresent(DoPush(c, s, step).transfers, DoPush(c, s, step).assets)
  {
    assert !step.StartPush? ==> HandlerOk(c, s, step.h);
    hide KeyTaken, PathTaken, OwnsObject, Disused, NamedBy, HandlersOk;
  }

  lemma ObjectAdded(c: Config, rows: Rows, objects: map<Path, seq<byte>>, path: Path, bytes: seq<byte>)
    requires path !in objects && c.sum(bytes) == path.sha && ObjectsOk(c, objects) && PendingStored(rows, objects)
    ensures ObjectsOk(c, objects[path := bytes]) && PendingStored(rows, objects[path := bytes])
  {
  }

  lemma PushObjectsByPut(c: Config, s: State, step: PushStep)
    requires step.PushPut?
    requires CanPush(c, s, step)
    requires ObjectsOk(c, s.objects) && PendingStored(s.transfers, s.objects)
    ensures ObjectsOk(c, DoPush(c, s, step).objects)
            && PendingStored(DoPush(c, s, step).transfers, DoPush(c, s, step).objects)
  {
    if step.outcome != FailedClean {
      var p := s.handlers[step.h];
      ObjectAdded(c, s.transfers, s.objects, TransferPath(p.transfer, c.sum(p.bytes)), p.bytes);
    }
    hide ObjectsOk, PendingStored;
  }

  lemma PushObjectsByRows(c: Config, s: State, step: PushStep)
    requires !step.PushPut?
    requires CanPush(c, s, step) && RowsOk(c, s.transfers) && HandlersOk(c, s)
    requires ObjectsOk(c, s.objects) && PendingStored(s.transfers, s.objects)
    ensures ObjectsOk(c, DoPush(c, s, step).objects)
            && PendingStored(DoPush(c, s, step).transfers, DoPush(c, s, step).objects)
  {
    assert step.StartPush? || HandlerOk(c, s, step.h);
    hide HandlersOk, RowsOk, Accepting, Disused;
  }

  lemma PushLeavesAssets(c: Config, s: State, step: PushStep)
    requires CanPush(c, s, step)
    ensures LeavesAssets(s, DoPush(c, s, step))
  {
    hide PathTaken;
  }

  lemma HeldObject(c: Config, s: State, g: HandlerId)
    requires HandlersOk(c, s) && g in s.handlers && Held(c, s.handlers[g]).Some?
    ensures var p := Held(c, s.handlers[g]).value; p in s.objects || p.transfer in s.transfers
  {
    assert HandlerOk(c, s, g);
    hide HandlersOk, NamedBy, Disused, Accepting;
  }

  /** A new holder of a path, when the transfer of every older one is there. */
  lemma HeldAnew(c: Config, s: State, after: State, h: HandlerId)
    requires HeldOnce(c, s) && after.transfers == s.transfers && h in after.handlers
    requires after.handlers == s.handlers[h := after.handlers[h]]
    requires forall g | g in s.handlers && g != h && Held(c, s.handlers[g]).Some? &&
                        Held(c, s.handlers[g]) == Held(c, after.handlers[h]) ::
               Held(c, s.handlers[g]).value.transfer in s.transfers
    ensures HeldOnce(c, after)
  {
    hide Held;
  }

  lemma HeldLess(c: Config, s: State, after: State, h: HandlerId)
    requires HeldOnce(c, s) && after.transfers == s.transfers && after.handlers == s.handlers - {h}
    ensures HeldOnce(c, after)
  {
    hide Held;
  }

  lemma PushHeldByPut(c: Config, s: State, step: PushStep)
    requires step.PushPut?
    requires CanPush(c, s, step) && HandlersOk(c, s) && HeldOnce(c, s)
    ensures HeldOnce(c, DoPush(c, s, step))
  {
    hide HeldOnce, HandlersOk, HandlerOk;
    if step.outcome == Written {
      forall g | g in s.handlers && g != step.h && Held(c, s.handlers[g]).Some? &&
                 Held(c, s.handlers[g]) == Held(c, DoPush(c, s, step).handlers[step.h])
        ensures Held(c, s.handlers[g]).value.transfer in s.transfers {
        HeldObject(c, s, g);
      }
      HeldAnew(c, s, DoPush(c, s, step), step.h);
    } else {
      HeldLess(c, s, DoPush(c, s, step), step.h);
    }
  }

  lemma PushHeldByRows(c: Config, s: State, step: PushStep)
    requires !step.PushPut?
    requires CanPush(c, s, step) && HeldOnce(c, s)
    ensures HeldOnce(c, DoPush(c, s, step))
  {
  }

  lemma PushPushersByInsert(c: Config, s: State, step: PushStep, g: HandlerId)
    requires step.PushInsert?
    requires CanPush(c, s, step) && RowsOk(c, s.transfers) && HandlersOk(c, s) && HeldOnce(c, s)
    requires Untouched(s, DoPush(c, s, step), g) && Held(c, s.handlers[g]).Some?
    ensures HandlerOk(c, DoPush(c, s, step), g)
  {
    assert HandlerOk(c, s, g) && (!step.StartPush? ==> HandlerOk(c, s, step.h));
    hide KeyTaken, PathTaken, Pinned, Accepting, Disused, NamedBy, HandlersOk;
  }

  lemma PushPushersByObjects(c: Config, s: State, step: PushStep, g: HandlerId)
    requires !step.PushInsert?
    requires CanPush(c, s, step) && RowsOk(c, s.transfers) && HandlersOk(c, s) && HeldOnce(c, s)
    requires Untouched(s, DoPush(c, s, step), g) && Held(c, s.handlers[g]).Some?
    ensures HandlerOk(c, DoPush(c, s, step), g)
  {
    assert HandlerOk(c, s, g) && (!step.StartPush? ==> HandlerOk(c, s, step.h));
    hide KeyTaken, PathTaken, Pinned, Accepting, Disused, NamedBy, HandlersOk;
  }

  lemma PushLeavesAccepts(c: Config, s: State, step: PushStep)
    requires CanPush(c, s, step) && RowsOk(c, s.transfers)
    ensures forall g :: LeavesAccepts(s, DoPush(c, s, step), g)
  {
    hide KeyTaken, PathTaken;
  }

  lemma PushAccepters(c: Config, s: State, step: PushStep, g: HandlerId)
    requires CanPush(c, s, step) && RowsOk(c, s.transfers) && HandlersOk(c, s)
    requires Untouched(s, DoPush(c, s, step), g) && Accepts(s.handlers[g])
    ensures HandlerOk(c, DoPush(c, s, step), g)
  {
    hide *;
    PushLeavesAccepts(c, s, step);
    AccepterKept(c, s, DoPush(c, s, step), g);
  }

  lemma PushLeavesCleaners(c: Config, s: State, step: PushStep)
    requires CanPush(c, s, step)
    ensures LeavesCleaners(s, DoPush(c, s, step))
  {
  }

  lemma PushCleaners(c: Config, s: State, step: PushStep, g: HandlerId)
    requires CanPush(c, s, step) && HandlersOk(c, s)
    requires Untouched(s, DoPush(c, s, step), g) && Cleans(s.handlers[g])
    ensures HandlerOk(c, DoPush(c, s, step), g)
  {
    hide *;
    PushLeavesCleaners(c, s, step);
    CleanerKept(c, s, DoPush(c, s, step), g);
  }

  lemma PutIsOwned(s: State, after: State, t: RecordId, path: Path, bytes: seq<byte>)
    requires path !in s.objects && PendingStored(s.transfers, s.objects)
    requires after.transfers == s.transfers && after.objects == s.objects[path := bytes]
    ensures OwnsObject(after, t, path)
  {
  }

  lemma PushActorByPut(c: Config, s: State, step: PushStep, g: HandlerId)
    requires step.PushPut?
    requires CanPush(c, s, step) && HandlersOk(c, s) && PendingStored(s.transfers, s.objects)
    requires !Untouched(s, DoPush(c, s, step), g) && g in DoPush(c, s, step).handlers
    ensures HandlerOk(c, DoPush(c, s, step), g)
  {
    assert g == step.h && HandlerOk(c, s, g);
    var p := s.handlers[g];
    PutIsOwned(s, DoPush(c, s, step), p.transfer, TransferPath(p.transfer, c.sum(p.bytes)), p.bytes);
    hide HandlersOk, PendingStored, OwnsObject, Disused, NamedBy, Accepting;
  }

  lemma PushActorByRows(c: Config, s: State, step: PushStep, g: HandlerId)
    requires !step.PushPut?
    requires CanPush(c, s, step) && HandlersOk(c, s) && PendingStored(s.transfers, s.objects)
    requires !Untouched(s, DoPush(c, s, step), g) && g in DoPush(c, s, step).handlers
    ensures HandlerOk(c, DoPush(c, s, step), g)
  {
    assert step.StartPush? || HandlerOk(c, s, step.h);
    hide KeyTaken, PathTaken, Pinned, Disused, NamedBy, AssetsOk, AcceptedPresent, HeldOnce, Accepting, HandlersOk, Inv;
  }

  lemma PushWritesNoAsset(c: Config, s: State, step: PushStep)
    requires CanPush(c, s, step)
    ensures DoPush(c, s, step).assets == s.assets
  {
  }

  lemma PushKeeps(c: Config, s: State, step: PushStep)
    requires CanPush(c, s, step) && Inv(c, s)
    ensures Inv(c, DoPush(c, s, step))
  {
    hide DoPush, CanPush, HandlerOk, RowsOk, ObjectsOk, PendingStored, HeldOnce, AssetsOk, AcceptedPresent, Held,
         Accepts, Cleans, AssetsDiffer;
    PushWritesNoAsset(c, s, step);
    PushRows(c, s, step);
    if step.PushPut? {
      PushObjectsByPut(c, s, step);
      PushHeldByPut(c, s, step);
    } else {
      PushObjectsByRows(c, s, step);
      PushHeldByRows(c, s, step);
    }
    PushLeavesAssets(c, s, step);
    AssetsKept(s, DoPush(c, s, step));
    forall g | g in DoPush(c, s, step).handlers ensures HandlerOk(c, DoPush(c, s, step), g) {
      if !Untouched(s, DoPush(c, s, step), g) {
        if step.PushPut? {
          PushActorByPut(c, s, step, g);
        } else {
          PushActorByRows(c, s, step, g);
        }
      } else if Held(c, s.handlers[g]).Some? {
        if step.PushInsert? {
          PushPushersByInsert(c, s, step, g);
        } else {
          PushPushersByObjects(c, s, step, g);
        }
      } else if Accepts(s.handlers[g]) {
        PushAccepters(c, s, step, g);
      } else if Cleans(s.handlers[g]) {
        PushCleaners(c, s, step, g);
      } else {
        StarterKept(c, s, DoPush(c, s, step), g);
      }
    }
    hide DoPush, CanPush, HandlerOk;
  }

  // ------------------------------------------------------------ Resolve

  lemma ResolveOutcomes(c: Config, s: State, step: ResolveStep)
    requires CanResolve(c, s, step) && RowsOk(c, s.transfers)
    ensures RowsGrow(s.transfers, DoResolve(c, s, step).transfers)
  {
    hide KeyTaken, PathTaken, Pinned;
  }

  lemma ResolveRowsByCommit(c: Config, s: State, step: ResolveStep)
    requires step.AcceptCommit?
    requires CanResolve(c, s, step) && RowsOk(c, s.transfers) && AcceptedPresent(s.transfers, s.assets)
    ensures RowsOk(c, DoResolve(c, s, step).transfers)
            && AcceptedPresent(DoResolve(c, s, step).transfers, DoResolve(c, s, step).assets)
  {
    hide KeyTaken, PathTaken;
  }

  lemma ResolveRowsByOthers(c: Config, s: State, step: ResolveStep)
    requires !step.AcceptCommit?
    requires CanResolve(c, s, step) && RowsOk(c, s.transfers) && AcceptedPresent(s.transfers, s.assets)
    ensures RowsOk(c, DoResolve(c, s, step).transfers)
            && AcceptedPresent(DoResolve(c, s, step).transfers, DoResolve(c, s, step).assets)
  {
    hide KeyTaken, PathTaken;
  }

  lemma ResolveObjectsByCopy(c: Config, s: State, step: ResolveStep)
    requires step.AcceptStore?
    requires CanResolve(c, s, step) && RowsOk(c, s.transfers) && HandlersOk(c, s)
    requires ObjectsOk(c, s.objects) && PendingStored(s.transfers, s.objects)
    ensures ObjectsOk(c, DoResolve(c, s, step).objects)
            && PendingStored(DoResolve(c, s, step).transfers, DoResolve(c, s, step).objects)
  {
    assert HandlerOk(c, s, step.h);
    hide HandlersOk, Accepting, ResolutionShape;
  }

  lemma ResolveObjectsByOthers(c: Config, s: State, step: ResolveStep)
    requires !step.AcceptStore?
    requires CanResolve(c, s, step) && RowsOk(c, s.transfers) && HandlersOk(c, s)
    requires ObjectsOk(c, s.objects) && PendingStored(s.transfers, s.objects)
    ensures ObjectsOk(c, DoResolve(c, s, step).objects)
            && PendingStored(DoResolve(c, s, step).transfers, DoResolve(c, s, step).objects)
  {
    assert step.ResolvedDelete? ==> HandlerOk(c, s, step.h);
    hide KeyTaken, PathTaken, HandlersOk, Accepting, ResolutionShape;
  }

  lemma ResolveAssetsByCommit(c: Config, s: State, step: ResolveStep)
    requires step.AcceptCommit?
    requires CanResolve(c, s, step) && Inv(c, s)
    ensures AssetsOk(DoResolve(c, s, step).transfers, DoResolve(c, s, step).assets, DoResolve(c, s, step).objects)
  {
    assert HandlerOk(c, s, step.h);
    hide KeyTaken, PathTaken, HeldOnce, HandlersOk, ObjectsOk, PendingStored, OwnsObject, Disused, AcceptedPresent;
  }

  /** No asset names an accepted path of a pending transfer. */
  lemma NamedIsResolved(s: State, p: Path)
    requires AssetsOk(s.transfers, s.assets, s.objects) && ShapesHold(s.transfers)
    requires p.AcceptedPath? && PathTaken(s.assets, p)
    ensures !IsPending(s.transfers, p.transfer)
  {
    var a :| a in s.assets && s.assets[a].path == p;
    assert AssetOk(s.transfers, s.objects, a, s.assets[a]);
  }

  /** An accept copies to the path of a pending transfer. */
  lemma CopyLeavesAssets(c: Config, s: State, step: ResolveStep)
    requires step.AcceptStore?
    requires CanResolve(c, s, step) && Inv(c, s)
    ensures LeavesAssets(s, DoResolve(c, s, step))
  {
    assert HandlerOk(c, s, step.h);
    if PathTaken(s.assets, Target(s, s.handlers[step.h].transfer)) {
      NamedIsResolved(s, Target(s, s.handlers[step.h].transfer));
    }
    hide PathTaken, HandlersOk, Inv, RowsOk, AssetsOk;
  }

  lemma OthersLeaveAssets(c: Config, s: State, step: ResolveStep)
    requires !step.AcceptCommit? && !step.AcceptStore?
    requires CanResolve(c, s, step) && RowsOk(c, s.transfers)
    ensures LeavesAssets(s, DoResolve(c, s, step))
  {
    hide KeyTaken, PathTaken;
  }

  lemma ResolveHeld(c: Config, s: State, step: ResolveStep)
    requires CanResolve(c, s, step) && HandlersOk(c, s) && HeldOnce(c, s)
    ensures HeldOnce(c, DoResolve(c, s, step))
  {
    hide KeyTaken, PathTaken, Pinned;
  }

  lemma ResolveLeavesPushes(c: Config, s: State, step: ResolveStep)
    requires CanResolve(c, s, step) && RowsOk(c, s.transfers)
    ensures LeavesPushes(s, DoResolve(c, s, step))
  {
    hide KeyTaken, PathTaken, ResolutionShape;
  }

  lemma ResolvePushers(c: Config, s: State, step: ResolveStep, g: HandlerId)
    requires CanResolve(c, s, step) && RowsOk(c, s.transfers) && HandlersOk(c, s) && HeldOnce(c, s)
    requires Untouched(s, DoResolve(c, s, step), g) && Held(c, s.handlers[g]).Some?
    ensures HandlerOk(c, DoResolve(c, s, step), g)
  {
    hide *;
    ResolveLeavesPushes(c, s, step);
    PusherKept(c, s, DoResolve(c, s, step), g);
  }

  lemma CopyLeavesAccepts(c: Config, s: State, step: ResolveStep, g: HandlerId)
    requires step.AcceptLock? || step.AcceptGet? || step.AcceptStore?
    requires CanResolve(c, s, step) && RowsOk(c, s.transfers) && HandlersOk(c, s)
    requires Untouched(s, DoResolve(c, s, step), g) && Accepts(s.handlers[g])
    ensures LeavesAccepts(s, DoResolve(c, s, step), g)
  {
    assert HandlerOk(c, s, g) && (step.AcceptStore? ==> HandlerOk(c, s, step.h));
    hide KeyTaken, PathTaken, HandlersOk, OwnsObject, Disused, NamedBy;
  }

  lemma EndLeavesAccepts(c: Config, s: State, step: ResolveStep, g: HandlerId)
    requires !step.AcceptLock? && !step.AcceptGet? && !step.AcceptStore?
    requires CanResolve(c, s, step) && RowsOk(c, s.transfers) && HandlersOk(c, s)
    requires Untouched(s, DoResolve(c, s, step), g) && Accepts(s.handlers[g])
    ensures LeavesAccepts(s, DoResolve(c, s, step), g)
  {
    assert HandlerOk(c, s, g) && (step.AcceptCommit? ==> HandlerOk(c, s, step.h));
    hide KeyTaken, PathTaken, HandlersOk, OwnsObject, Disused, NamedBy;
  }

  lemma ResolveAccepters(c: Config, s: State, step: ResolveStep, g: HandlerId)
    requires CanResolve(c, s, step) && RowsOk(c, s.transfers) && HandlersOk(c, s)
    requires Untouched(s, DoResolve(c, s, step), g) && Accepts(s.handlers[g])
    ensures HandlerOk(c, DoResolve(c, s, step), g)
  {
    hide *;
    if step.AcceptLock? || step.AcceptGet? || step.AcceptStore? {
      CopyLeavesAccepts(c, s, step, g);
    } else {
      EndLeavesAccepts(c, s, step, g);
    }
    AccepterKept(c, s, DoResolve(c, s, step), g);
  }

  lemma CommitLeavesCleaners(c: Config, s: State, step: ResolveStep)
    requires step.AcceptCommit?
    requires CanResolve(c, s, step) && RowsOk(c, s.transfers)
    ensures LeavesCleaners(s, DoResolve(c, s, step))
  {
    hide KeyTaken, PathTaken;
  }

  lemma OthersLeaveCleaners(c: Config, s: State, step: ResolveStep)
    requires !step.AcceptCommit?
    requires CanResolve(c, s, step) && RowsOk(c, s.transfers)
    ensures LeavesCleaners(s, DoResolve(c, s, step))
  {
    hide KeyTaken, PathTaken;
  }

  lemma ResolveCleaners(c: Config, s: State, step: ResolveStep, g: HandlerId)
    requires CanResolve(c, s, step) && RowsOk(c, s.transfers) && HandlersOk(c, s)
    requires Untouched(s, DoResolve(c, s, step), g) && Cleans(s.handlers[g])
    ensures HandlerOk(c, DoResolve(c, s, step), g)
  {
    hide *;
    if step.AcceptCommit? {
      CommitLeavesCleaners(c, s, step);
    } else {
      OthersLeaveCleaners(c, s, step);
    }
    CleanerKept(c, s, DoResolve(c, s, step), g);
  }

  lemma ResolveActorByCopy(c: Config, s: State, step: ResolveStep, g: HandlerId)
    requires step.AcceptLock? || step.AcceptGet? || step.AcceptStore?
    requires CanResolve(c, s, step) && RowsOk(c, s.transfers) && PendingStored(s.transfers, s.objects)
    requires HandlersOk(c, s)
    requires !Untouched(s, DoResolve(c, s, step), g) && g in DoResolve(c, s, step).handlers
    ensures HandlerOk(c, DoResolve(c, s, step), g)
  {
    assert !step.AcceptLock? ==> HandlerOk(c, s, step.h);
    hide KeyTaken, PathTaken, Disused, NamedBy, OwnsObject, HandlersOk;
  }

  lemma ResolveActorByEnd(c: Config, s: State, step: ResolveStep, g: HandlerId)
    requires !step.AcceptLock? && !step.AcceptGet? && !step.AcceptStore?
    requires CanResolve(c, s, step)
    requires !Untouched(s, DoResolve(c, s, step), g) && g in DoResolve(c, s, step).handlers
    ensures HandlerOk(c, DoResolve(c, s, step), g)
  {
    hide KeyTaken, PathTaken;
  }

  /** An accept inserts an asset only where both the key and the path are free. */
  lemma ResolveAssetsDiffer(c: Config, s: State, step: ResolveStep)
    requires CanResolve(c, s, step) && AssetsDiffer(s.assets)
    ensures AssetsDiffer(DoResolve(c, s, step).assets)
  {
    if step.AcceptCommit? {
      var a, id := s.handlers[step.h], s.handlers[step.h].transfer;
      assert forall x | x in s.assets ::
        && s.assets[x].path != Target(s, id)
        && (s.assets[x].brain == s.transfers[id].destination.value ==> s.assets[x].key != a.key);
    }
    hide KeyTaken, PathTaken;
  }

  lemma ResolveKeeps(c: Config, s: State, step: ResolveStep)
    requires CanResolve(c, s, step) && Inv(c, s)
    ensures Inv(c, DoResolve(c, s, step))
  {
    hide DoResolve, CanResolve, HandlerOk, RowsOk, ObjectsOk, PendingStored, HeldOnce, AssetsOk, AcceptedPresent, Held,
         Accepts, Cleans, AssetsDiffer;
    ResolveAssetsDiffer(c, s, step);
    if step.AcceptStore? {
      ResolveObjectsByCopy(c, s, step);
    } else {
      ResolveObjectsByOthers(c, s, step);
    }
    if step.AcceptCommit? {
      ResolveRowsByCommit(c, s, step);
      ResolveAssetsByCommit(c, s, step);
    } else {
      ResolveRowsByOthers(c, s, step);
      if step.AcceptStore? {
        CopyLeavesAssets(c, s, step);
      } else {
        OthersLeaveAssets(c, s, step);
      }
      AssetsKept(s, DoResolve(c, s, step));
    }
    ResolveHeld(c, s, step);
    forall g | g in DoResolve(c, s, step).handlers ensures HandlerOk(c, DoResolve(c, s, step), g) {
      if !Untouched(s, DoResolve(c, s, step), g) {
        if step.AcceptLock? || step.AcceptGet? || step.AcceptStore? {
          ResolveActorByCopy(c, s, step, g);
        } else {
          ResolveActorByEnd(c, s, step, g);
        }
      } else if Held(c, s.handlers[g]).Some? {
        ResolvePushers(c, s, step, g);
      } else if Accepts(s.handlers[g]) {
        ResolveAccepters(c, s, step, g);
      } else if Cleans(s.handlers[g]) {
        ResolveCleaners(c, s, step, g);
      } else {
        StarterKept(c, s, DoResolve(c, s, step), g);
      }
    }
    hide DoResolve, CanResolve, HandlerOk;
  }

  // ------------------------------------------------------------ Manage

  /** The check on the transfer table refuses exactly the deletes of assets that an
      accepted transfer names. */
  lemma DeletesThatKeepTheShape(rows: Rows, gone: set<RecordId>)
    requires ShapesHold(rows)
    ensures ShapesHold(Nulled(rows, gone)) <==> forall a | a in gone :: !Pinned(rows, a)
    ensures ShapesHold(Nulled(rows, gone)) ==> Nulled(rows, gone) == rows
  {
    if ShapesHold(Nulled(rows, gone)) {
      forall t | t in rows ensures Nulled(rows, gone)[t] == rows[t] {
        assert ResolutionShape(rows[t]) && ResolutionShape(Nulled(rows, gone)[t]);
      }
      forall a | a in gone ensures !Pinned(rows, a) {
      }
    }
  }

  /** Which asset writes and deletes the tables allow, by the rows alone. */
  lemma AssetStepsAllowed(c: Config, s: State, a: RecordId, row: Asset, b: RecordId)
    requires RowsOk(c, s.transfers)
    ensures CanManage(c, s, WriteAsset(a, row)) <==>
      && row.path.UploadPath? && (a in s.assets ==> s.assets[a].brain == row.brain)
      && forall x | x in s.assets && x != a ::
           s.assets[x].path != row.path && !(s.assets[x].brain == row.brain && s.assets[x].key == row.key)
    ensures CanManage(c, s, RemoveBrain(b)) <==>
      && (forall t | t in s.transfers && s.transfers[t].status == Accepted && s.transfers[t].acceptedAsset.Some? ::
            var x := s.transfers[t].acceptedAsset.value; x !in s.assets || s.assets[x].brain != b)
      && (forall t | t in s.locks && t in s.transfers :: s.transfers[t].destination != Some(b))
  {
    assert ShapesHold(s.transfers);
    DeletesThatKeepTheShape(s.transfers, OwnedBy(s.assets, b));
    forall t | t in s.transfers && s.transfers[t].acceptedAsset.Some? ensures s.transfers[t].status == Accepted {
      assert ResolutionShape(s.transfers[t]);
    }
    hide ShapesHold, Nulled, RowsOk, KeyTaken, PathTaken;
  }

  /** Setting references to null touches only those to deleted assets. */
  lemma AssetDropAllowed(c: Config, s: State, h: HandlerId)
    requires RowsOk(c, s.transfers) && h in s.handlers && s.handlers[h].AssetSeen?
    ensures CanManage(c, s, DropAsset(h)) <==>
      s.handlers[h].asset in s.assets ==>
        forall t | t in s.transfers :: s.transfers[t].acceptedAsset != Some(s.handlers[h].asset)
  {
    assert ShapesHold(s.transfers);
    DeletesThatKeepTheShape(s.transfers, s.assets.Keys * {s.handlers[h].asset});
    hide ShapesHold, Nulled, RowsOk, KeyTaken, PathTaken;
  }

  /** What an overwrite goes on to delete is the path it left, never the one the asset has now. */
  lemma OverwriteCleansTheOldPath(c: Config, s: State, h: HandlerId, row: Asset)
    requires CanManage(c, s, OverwriteAsset(h, row))
    ensures var after, seen := DoManage(c, s, OverwriteAsset(h, row)), s.handlers[h];
      && after.assets == s.assets[seen.asset := row] && row.brain == s.assets[seen.asset].brain
      && (h in after.handlers <==> row.path != seen.path)
      && (h in after.handlers ==>
            after.handlers[h] == Cleaning(seen.path) && seen.path != after.assets[seen.asset].path)
  {
    hide RowFree, KeyTaken, PathTaken;
  }

  function Gone(s: State, step: AssetStep): set<RecordId>
    requires step.DropAsset? ==> step.h in s.handlers && s.handlers[step.h].AssetSeen?
  {
    match step
    case DropAsset(h) => s.assets.Keys * {s.handlers[h].asset}
    case RemoveBrain(b) => OwnedBy(s.assets, b)
    case _ => {}
  }

  lemma ManageDeletesUnpinned(c: Config, s: State, step: AssetStep)
    requires CanManage(c, s, step) && RowsOk(c, s.transfers)
    ensures Nulled(s.transfers, Gone(s, step)) == s.transfers
    ensures forall a | a in Gone(s, step) :: !Pinned(s.transfers, a)
  {
    hide KeyTaken, PathTaken;
    DeletesThatKeepTheShape(s.transfers, Gone(s, step));
  }

  lemma ManageOutcomes(c: Config, s: State, step: AssetStep)
    requires CanManage(c, s, step) && RowsOk(c, s.transfers)
    ensures RowsGrow(s.transfers, DoManage(c, s, step).transfers)
  {
    ManageDeletesUnpinned(c, s, step);
    hide Nulled, ShapesHold, KeyTaken, PathTaken, Pinned;
  }

  lemma ManageRowsByDrop(c: Config, s: State, step: AssetStep)
    requires step.DropAsset?
    requires CanManage(c, s, step) && RowsOk(c, s.transfers) && AcceptedPresent(s.transfers, s.assets)
    ensures RowsOk(c, DoManage(c, s, step).transfers)
            && AcceptedPresent(DoManage(c, s, step).transfers, DoManage(c, s, step).assets)
  {
    ManageDeletesUnpinned(c, s, step);
    hide CanManage, Nulled, ShapesHold, KeyTaken, PathTaken;
  }

  lemma RowsWithoutBrain(c: Config, rows: Rows, b: RecordId)
    requires RowsOk(c, rows)
    ensures RowsOk(c, WithoutBrain(rows, b))
    ensures forall t | t in rows :: WithoutBrain(rows, b)[t].acceptedAsset == rows[t].acceptedAsset
  {
  }

  lemma ManageRowsByRemoval(c: Config, s: State, step: AssetStep)
    requires step.RemoveBrain?
    requires CanManage(c, s, step) && RowsOk(c, s.transfers) && AcceptedPresent(s.transfers, s.assets)
    ensures RowsOk(c, DoManage(c, s, step).transfers)
            && AcceptedPresent(DoManage(c, s, step).transfers, DoManage(c, s, step).assets)
  {
    ManageDeletesUnpinned(c, s, step);
    RowsWithoutBrain(c, s.transfers, step.brain);
    hide CanManage, Nulled, ShapesHold, WithoutBrain, RowsOk;
  }

  lemma ManageRowsByOthers(c: Config, s: State, step: AssetStep)
    requires !step.DropAsset? && !step.RemoveBrain?
    requires CanManage(c, s, step) && RowsOk(c, s.transfers) && AcceptedPresent(s.transfers, s.assets)
    ensures RowsOk(c, DoManage(c, s, step).transfers)
            && AcceptedPresent(DoManage(c, s, step).transfers, DoManage(c, s, step).assets)
  {
    hide RowsOk, Nulled, ShapesHold, KeyTaken, PathTaken;
  }

  lemma ManageObjects(c: Config, s: State, step: AssetStep)
    requires CanManage(c, s, step) && RowsOk(c, s.transfers) && HandlersOk(c, s)
    requires ObjectsOk(c, s.objects) && PendingStored(s.transfers, s.objects)
    ensures ObjectsOk(c, DoManage(c, s, step).objects)
            && PendingStored(DoManage(c, s, step).transfers, DoManage(c, s, step).objects)
  {
    ManageDeletesUnpinned(c, s, step);
    assert step.CleanPath? ==> HandlerOk(c, s, step.h);
    hide Nulled, ShapesHold, KeyTaken, PathTaken, Pinned, NamedBy, HandlersOk;
  }

  lemma ManageAssetsByDelete(c: Config, s: State, step: AssetStep)
    requires step.DropAsset? || step.RemoveBrain?
    requires CanManage(c, s, step) && Inv(c, s)
    ensures AssetsOk(DoManage(c, s, step).transfers, DoManage(c, s, step).assets, DoManage(c, s, step).objects)
  {
    ManageDeletesUnpinned(c, s, step);
    hide Nulled, ShapesHold, KeyTaken, Pinned, HeldOnce;
  }

  lemma ManageAssetsByWrite(c: Config, s: State, step: AssetStep)
    requires step.OverwriteAsset? || step.WriteAsset?
    requires CanManage(c, s, step) && AssetsOk(s.transfers, s.assets, s.objects)
    ensures AssetsOk(DoManage(c, s, step).transfers, DoManage(c, s, step).assets, DoManage(c, s, step).objects)
  {
    hide KeyTaken, PathTaken, Pinned;
  }

  lemma ManageLeavesAssets(c: Config, s: State, step: AssetStep)
    requires step.SeeAsset? || step.CleanPath? || step.UploadPut? || step.UploadDelete?
    requires CanManage(c, s, step) && HandlersOk(c, s)
    ensures LeavesAssets(s, DoManage(c, s, step))
  {
    assert step.CleanPath? ==> HandlerOk(c, s, step.h);
    hide KeyTaken, PathTaken, Pinned, HandlersOk, Accepting, OwnsObject, NamedBy;
  }

  lemma ManageAssets(c: Config, s: State, step: AssetStep)
    requires CanManage(c, s, step) && Inv(c, s)
    ensures AssetsOk(DoManage(c, s, step).transfers, DoManage(c, s, step).assets, DoManage(c, s, step).objects)
  {
    hide DoManage, CanManage, AssetsOk, LeavesAssets, RowsOk, ObjectsOk, PendingStored, HandlersOk, HeldOnce;
    if step.DropAsset? || step.RemoveBrain? {
      ManageAssetsByDelete(c, s, step);
    } else if step.OverwriteAsset? || step.WriteAsset? {
      ManageAssetsByWrite(c, s, step);
    } else {
      ManageLeavesAssets(c, s, step);
      AssetsKept(s, DoManage(c, s, step));
    }
  }

  lemma ManageHeld(c: Config, s: State, step: AssetStep)
    requires CanManage(c, s, step) && HandlersOk(c, s) && HeldOnce(c, s)
    ensures HeldOnce(c, DoManage(c, s, step))
  {
    hide KeyTaken, PathTaken, Pinned;
  }

  predicate SameTransfers(s: State, after: State) {
    && after.transfers.Keys == s.transfers.Keys
    && (forall t | t in s.transfers ::
          && after.transfers[t].status == s.transfers[t].status
          && after.transfers[t].path == s.transfers[t].path
          && after.transfers[t].sha == s.transfers[t].sha)
    && (forall p: Path | p.TransferPath? && p in s.objects ::
          p in after.objects && after.objects[p] == s.objects[p])
  }

  lemma SameTransfersLeavePushes(s: State, after: State)
    requires SameTransfers(s, after)
    ensures LeavesPushes(s, after)
  {
  }

  /** Nothing here touches transfer rows or the objects of pushes. */
  lemma ManageLeavesTransfers(c: Config, s: State, step: AssetStep)
    requires CanManage(c, s, step) && HandlersOk(c, s)
    ensures SameTransfers(s, DoManage(c, s, step))
  {
    assert step.CleanPath? ==> HandlerOk(c, s, step.h);
    hide KeyTaken, PathTaken, Pinned, Nulled, ShapesHold, HandlersOk, Accepting, OwnsObject;
  }

  lemma ManagePushers(c: Config, s: State, step: AssetStep, g: HandlerId)
    requires CanManage(c, s, step) && RowsOk(c, s.transfers) && HandlersOk(c, s) && HeldOnce(c, s)
    requires Untouched(s, DoManage(c, s, step), g) && Held(c, s.handlers[g]).Some?
    ensures HandlerOk(c, DoManage(c, s, step), g)
  {
    hide *;
    ManageLeavesTransfers(c, s, step);
    SameTransfersLeavePushes(s, DoManage(c, s, step));
    PusherKept(c, s, DoManage(c, s, step), g);
  }

  lemma ManageLeavesAccepts(c: Config, s: State, step: AssetStep)
    requires CanManage(c, s, step) && RowsOk(c, s.transfers) && HandlersOk(c, s)
    ensures forall g :: LeavesAccepts(s, DoManage(c, s, step), g)
  {
    ManageDeletesUnpinned(c, s, step);
    assert step.CleanPath? ==> HandlerOk(c, s, step.h);
    hide KeyTaken, PathTaken, Pinned, Nulled, ShapesHold, HandlersOk, Accepting, OwnsObject, NamedBy;
  }

  lemma ManageAccepters(c: Config, s: State, step: AssetStep, g: HandlerId)
    requires CanManage(c, s, step) && RowsOk(c, s.transfers) && HandlersOk(c, s)
    requires Untouched(s, DoManage(c, s, step), g) && Accepts(s.handlers[g])
    ensures HandlerOk(c, DoManage(c, s, step), g)
  {
    hide *;
    ManageLeavesAccepts(c, s, step);
    AccepterKept(c, s, DoManage(c, s, step), g);
  }

  /** No asset row comes to name an accepted path, and no transfer drops its asset. */
  lemma ManageNamesNothing(c: Config, s: State, step: AssetStep)
    requires CanManage(c, s, step) && RowsOk(c, s.transfers)
    ensures var after := DoManage(c, s, step);
            && (forall a | a in after.assets && after.assets[a].path.AcceptedPath? ::
                  a in s.assets && after.assets[a].path == s.assets[a].path)
            && (forall t | t in s.transfers ::
                  t in after.transfers && after.transfers[t].acceptedAsset == s.transfers[t].acceptedAsset)
  {
    ManageDeletesUnpinned(c, s, step);
    hide KeyTaken, PathTaken, Pinned, Nulled, ShapesHold;
  }

  lemma ManageLeavesCleaners(c: Config, s: State, step: AssetStep)
    requires CanManage(c, s, step) && RowsOk(c, s.transfers) && HandlersOk(c, s)
    ensures LeavesCleaners(s, DoManage(c, s, step))
  {
    ManageLeavesTransfers(c, s, step);
    ManageNamesNothing(c, s, step);
    hide CanManage, DoManage, HandlersOk, RowsOk;
  }

  lemma ManageCleaners(c: Config, s: State, step: AssetStep, g: HandlerId)
    requires CanManage(c, s, step) && RowsOk(c, s.transfers) && HandlersOk(c, s)
    requires Untouched(s, DoManage(c, s, step), g) && Cleans(s.handlers[g])
    ensures HandlerOk(c, DoManage(c, s, step), g)
  {
    hide *;
    ManageLeavesCleaners(c, s, step);
    CleanerKept(c, s, DoManage(c, s, step), g);
  }

  /** An accepted path that was read off an asset is named by that asset alone. */
  lemma SeenAloneNames(s: State, asset: RecordId, path: Path)
    requires AssetsOk(s.transfers, s.assets, s.objects) && NamedBy(s.transfers, asset, path) && path.AcceptedPath?
    ensures forall a | a in s.assets && s.assets[a].path == path :: a == asset
  {
    forall a | a in s.assets && s.assets[a].path == path ensures a == asset {
      assert AssetOk(s.transfers, s.objects, a, s.assets[a]);
    }
  }

  lemma ManageActorByDrop(c: Config, s: State, step: AssetStep, g: HandlerId)
    requires step.DropAsset?
    requires CanManage(c, s, step) && Inv(c, s)
    requires !Untouched(s, DoManage(c, s, step), g) && g in DoManage(c, s, step).handlers
    ensures HandlerOk(c, DoManage(c, s, step), g)
  {
    ManageDeletesUnpinned(c, s, step);
    ManageNamesNothing(c, s, step);
    assert HandlerOk(c, s, step.h) && AssetsOk(s.transfers, s.assets, s.objects);
    var seen := s.handlers[step.h];
    if seen.path.AcceptedPath? {
      SeenAloneNames(s, seen.asset, seen.path);
    }
    hide Nulled, ShapesHold, KeyTaken, Pinned, Inv, HandlersOk, AssetsOk, AssetOk;
  }

  /** The path an overwrite leaves behind is named by no asset any more. */
  lemma OverwrittenIsDisused(s: State, asset: RecordId, path: Path, row: Asset)
    requires AssetsOk(s.transfers, s.assets, s.objects) && NamedBy(s.transfers, asset, path)
    requires row.path.UploadPath?
    ensures Disused(s.(assets := s.assets[asset := row]), path)
  {
    if path.AcceptedPath? {
      SeenAloneNames(s, asset, path);
    }
    hide AssetsOk, ResolutionShape;
  }

  lemma ManageActorByOverwrite(c: Config, s: State, step: AssetStep, g: HandlerId)
    requires step.OverwriteAsset?
    requires CanManage(c, s, step) && Inv(c, s)
    requires !Untouched(s, DoManage(c, s, step), g) && g in DoManage(c, s, step).handlers
    ensures HandlerOk(c, DoManage(c, s, step), g)
  {
    assert HandlerOk(c, s, step.h) && AssetsOk(s.transfers, s.assets, s.objects);
    var seen := s.handlers[step.h];
    OverwrittenIsDisused(s, seen.asset, seen.path, step.row);
    hide Inv, HandlersOk, Pinned, ShapesHold, Nulled, KeyTaken, PathTaken, AssetsOk, NamedBy;
  }

  lemma ManageActorByOthers(c: Config, s: State, step: AssetStep, g: HandlerId)
    requires !step.DropAsset? && !step.OverwriteAsset?
    requires CanManage(c, s, step) && Inv(c, s)
    requires !Untouched(s, DoManage(c, s, step), g) && g in DoManage(c, s, step).handlers
    ensures HandlerOk(c, DoManage(c, s, step), g)
  {
    ManageDeletesUnpinned(c, s, step);
    hide Nulled, ShapesHold, KeyTaken, Pinned, HeldOnce, Held, ObjectsOk, PendingStored, AcceptedPresent, OwnsObject,
         Accepting;
  }

  lemma WrittenAssetsDiffer(assets: map<RecordId, Asset>, id: RecordId, row: Asset)
    requires AssetsDiffer(assets) && RowFree(assets, id, row)
    ensures AssetsDiffer(assets[id := row])
  {
  }

  lemma FewerAssetsDiffer(assets: map<RecordId, Asset>, after: map<RecordId, Asset>)
    requires AssetsDiffer(assets) && forall a | a in after :: a in assets && after[a] == assets[a]
    ensures AssetsDiffer(after)
  {
  }

  lemma ManageAssetsDiffer(c: Config, s: State, step: AssetStep)
    requires CanManage(c, s, step) && AssetsDiffer(s.assets)
    ensures AssetsDiffer(DoManage(c, s, step).assets)
  {
    hide KeyTaken, PathTaken, Pinned, ShapesHold, Nulled, AssetsDiffer, RowFree;
    match step {
      case OverwriteAsset(h, row) => WrittenAssetsDiffer(s.assets, s.handlers[h].asset, row);
      case WriteAsset(a, row) => WrittenAssetsDiffer(s.assets, a, row);
      case _ => FewerAssetsDiffer(s.assets, DoManage(c, s, step).assets);
    }
  }

  lemma ManageKeeps(c: Config, s: State, step: AssetStep)
    requires CanManage(c, s, step) && Inv(c, s)
    ensures Inv(c, DoManage(c, s, step))
  {
    hide DoManage, CanManage, HandlerOk, RowsOk, ObjectsOk, PendingStored, HeldOnce, AssetsOk, AcceptedPresent, Held,
         Accepts, Cleans, AssetsDiffer;
    ManageAssetsDiffer(c, s, step);
    if step.DropAsset? {
      ManageRowsByDrop(c, s, step);
    } else if step.RemoveBrain? {
      ManageRowsByRemoval(c, s, step);
    } else {
      ManageRowsByOthers(c, s, step);
    }
    ManageObjects(c, s, step);
    ManageAssets(c, s, step);
    ManageHeld(c, s, step);
    forall g | g in DoManage(c, s, step).handlers ensures HandlerOk(c, DoManage(c, s, step), g) {
      if !Untouched(s, DoManage(c, s, step), g) {
        if step.DropAsset? {
          ManageActorByDrop(c, s, step, g);
        } else if step.OverwriteAsset? {
          ManageActorByOverwrite(c, s, step, g);
        } else {
          ManageActorByOthers(c, s, step, g);
        }
      } else if Held(c, s.handlers[g]).Some? {
        ManagePushers(c, s, step, g);
      } else if Accepts(s.handlers[g]) {
        ManageAccepters(c, s, step, g);
      } else if Cleans(s.handlers[g]) {
        ManageCleaners(c, s, step, g);
      } else {
        StarterKept(c, s, DoManage(c, s, step), g);
      }
    }
    hide DoManage, CanManage, HandlerOk;
  }

  // ------------------------------------------------------------ every step

  lemma TickKeeps(c: Config, s: State, later: nat)
    requires s.now <= later && Inv(c, s)
    ensures Inv(c, s.(now := later))
  {
    var after := s.(now := later);
    forall g | g in s.handlers ensures HandlerOk(c, after, g) {
      assert HandlerOk(c, s, g);
    }
    hide Held, RowsOk, ObjectsOk, PendingStored, AssetsOk, AcceptedPresent;
  }

  lemma StopKeeps(c: Config, s: State, h: HandlerId)
    requires h in s.handlers && Inv(c, s)
    ensures Inv(c, Apply(c, s, Stop(h)))
  {
    hide Held, RowsOk, ObjectsOk, PendingStored, AssetsOk, AcceptedPresent, KeyTaken, PathTaken;
    var after := Apply(c, s, Stop(h));
    forall g | g in after.handlers ensures HandlerOk(c, after, g) {
      assert HandlerOk(c, s, g);
    }
  }

  lemma StepKeeps(c: Config, s: State, step: Step)
    requires CanStep(c, s, step) && Inv(c, s)
    ensures Inv(c, Apply(c, s, step))
    ensures RowsGrow(s.transfers, Apply(c, s, step).transfers)
  {
    match step {
      case Push(push) => PushKeeps(c, s, push); PushOutcomes(c, s, push);
      case Resolve(resolve) => ResolveKeeps(c, s, resolve); ResolveOutcomes(c, s, resolve);
      case Manage(manage) => ManageKeeps(c, s, manage); ManageOutcomes(c, s, manage);
      case Tick(later) => TickKeeps(c, s, later);
      case Stop(h) => StopKeeps(c, s, h);
    }
  }

  /** A handler can stop anywhere: its lock is released, and nothing else changes. */
  lemma StopAnywhere(c: Config, s: State, h: HandlerId)
    requires h in s.handlers
    ensures CanStep(c, s, Stop(h))
    ensures var after := Apply(c, s, Stop(h));
      && after.transfers == s.transfers && after.assets == s.assets && after.objects == s.objects && after.now == s.now
      && after.handlers == s.handlers - {h}
      && (forall t :: t in after.locks <==> t in s.locks && s.locks[t] != h)
      && (forall t | t in after.locks :: after.locks[t] == s.locks[t])
  {
    hide CanPush, CanResolve, CanManage, DoPush, DoResolve, DoManage;
  }

  // ------------------------------------------------------------ every run

  /** Nothing has been pushed or uploaded yet. */
  predicate Initial(s: State) {
    s.transfers == map[] && s.assets == map[] && s.objects == map[] && s.handlers == map[] && s.locks == map[]
  }

  predicate Run(c: Config, states: seq<State>, steps: seq<Step>) {
    && |states| == |steps| + 1 && Initial(states[0])
    && forall i | 0 <= i < |steps| :: CanStep(c, states[i], steps[i]) && states[i + 1] == Apply(c, states[i], steps[i])
  }

  lemma RowsOfInv(c: Config, s: State)
    requires Inv(c, s)
    ensures RowsOk(c, s.transfers)
  {
  }

  lemma StepOf(c: Config, states: seq<State>, steps: seq<Step>, i: nat)
    requires Run(c, states, steps) && i + 1 < |states|
    ensures |states| == |steps| + 1 && CanStep(c, states[i], steps[i]) && states[i + 1] == Apply(c, states[i], steps[i])
  {
    hide CanStep, Apply;
  }

  lemma RunBegins(c: Config, states: seq<State>, steps: seq<Step>)
    requires Run(c, states, steps)
    ensures Initial(states[0])
  {
    hide CanStep, Apply;
  }

  lemma SafeInitially(c: Config, s: State)
    requires Initial(s)
    ensures Inv(c, s)
  {
    hide HandlerOk, AssetOk, Held, ResolutionShape;
  }

  lemma {:induction false} SafeAt(c: Config, states: seq<State>, steps: seq<Step>, i: nat)
    requires Run(c, states, steps) && i < |states|
    ensures Inv(c, states[i])
  {
    hide *;
    if i == 0 {
      RunBegins(c, states, steps);
      SafeInitially(c, states[0]);
    } else {
      SafeAt(c, states, steps, i - 1);
      StepOf(c, states, steps, i - 1);
      StepKeeps(c, states[i - 1], steps[i - 1]);
    }
  }

  lemma KeepsItself(row: Transfer)
    ensures Keeps(row, row)
  {
  }

  lemma KeptTwice(before: Rows, between: Rows, after: Rows, t: RecordId)
    requires t in before && t in between && Keeps(before[t], between[t]) && RowsGrow(between, after)
    ensures t in after && Keeps(before[t], after[t])
  {
  }

  /** A transfer that has left pending keeps its status, resolution time and accepted
      asset for the rest of the run, and its path, checksum, size and expiry never change. */
  lemma {:induction false} OutcomeIsFinal(c: Config, states: seq<State>, steps: seq<Step>, i: nat, j: nat, t: RecordId)
    requires Run(c, states, steps) && i <= j < |states| && t in states[i].transfers
    ensures t in states[j].transfers && Keeps(states[i].transfers[t], states[j].transfers[t])
  {
    hide *;
    if i == j {
      KeepsItself(states[i].transfers[t]);
    } else {
      OutcomeIsFinal(c, states, steps, i, j - 1, t);
      StepOf(c, states, steps, j - 1);
      SafeAt(c, states, steps, j - 1);
      StepKeeps(c, states[j - 1], steps[j - 1]);
      KeptTwice(states[i].transfers, states[j - 1].transfers, states[j].transfers, t);
    }
  }

  predicate Leaves(states: seq<State>, i: nat, t: RecordId)
    requires i + 1 < |states|
  {
    IsPending(states[i].transfers, t) && !IsPending(states[i + 1].transfers, t)
  }

  /** The step in which a transfer leaves pending is the only one. */
  lemma LeavesPendingOnce(c: Config, states: seq<State>, steps: seq<Step>, i: nat, j: nat, t: RecordId)
    requires Run(c, states, steps) && i < j < |steps|
    ensures Leaves(states, i, t) ==> !Leaves(states, j, t)
  {
    if Leaves(states, i, t) {
      OutcomeIsFinal(c, states, steps, i, i + 1, t);
      OutcomeIsFinal(c, states, steps, i + 1, j, t);
    }
  }

  predicate CommitsAccept(s: State, step: Step, t: RecordId) {
    && step.Resolve? && step.resolve.AcceptCommit? && step.resolve.h in s.handlers
    && s.handlers[step.resolve.h].AcceptPut? && s.handlers[step.resolve.h].transfer == t
  }

  /** How many of the first `n` steps created an asset from the transfer. */
  function AssetsCreated(states: seq<State>, steps: seq<Step>, n: nat, t: RecordId): nat
    requires |states| == |steps| + 1 && n <= |steps|
  {
    if n == 0 then 0
    else AssetsCreated(states, steps, n - 1, t) + if CommitsAccept(states[n - 1], steps[n - 1], t) then 1 else 0
  }

  predicate IsAccepted(rows: Rows, t: RecordId) {
    t in rows && rows[t].status == Accepted
  }

  lemma CommitAccepts(c: Config, s: State, step: ResolveStep, t: RecordId)
    requires CanResolve(c, s, step) && RowsOk(c, s.transfers)
    ensures CommitsAccept(s, Resolve(step), t) ==>
              !IsAccepted(s.transfers, t) && IsAccepted(DoResolve(c, s, step).transfers, t)
    ensures !CommitsAccept(s, Resolve(step), t) ==>
              (IsAccepted(s.transfers, t) <==> IsAccepted(DoResolve(c, s, step).transfers, t))
  {
    hide KeyTaken, PathTaken;
  }

  lemma PushAcceptsNothing(c: Config, s: State, step: PushStep, t: RecordId)
    requires CanPush(c, s, step)
    ensures IsAccepted(s.transfers, t) <==> IsAccepted(DoPush(c, s, step).transfers, t)
  {
  }

  lemma ManageAcceptsNothing(c: Config, s: State, step: AssetStep, t: RecordId)
    requires CanManage(c, s, step)
    ensures IsAccepted(s.transfers, t) <==> IsAccepted(DoManage(c, s, step).transfers, t)
  {
    hide KeyTaken, PathTaken, Pinned;
  }

  lemma AcceptedByCommit(c: Config, s: State, step: Step, t: RecordId)
    requires CanStep(c, s, step) && RowsOk(c, s.transfers)
    ensures CommitsAccept(s, step, t) ==> !IsAccepted(s.transfers, t) && IsAccepted(Apply(c, s, step).transfers, t)
    ensures !CommitsAccept(s, step, t) ==> (IsAccepted(s.transfers, t) <==> IsAccepted(Apply(c, s, step).transfers, t))
  {
    hide IsAccepted, CanPush, CanResolve, CanManage, DoPush, DoResolve, DoManage;
    match step {
      case Resolve(resolve) => CommitAccepts(c, s, resolve, t);
      case Push(push) => PushAcceptsNothing(c, s, push, t);
      case Manage(manage) => ManageAcceptsNothing(c, s, manage, t);
      case _ =>
    }
  }

  /** One asset is created from an accepted transfer, none from any other. */
  lemma {:induction false} OneAssetPerAccept(c: Config, states: seq<State>, steps: seq<Step>, n: nat, t: RecordId)
    requires Run(c, states, steps) && n <= |steps|
    ensures AssetsCreated(states, steps, n, t) == if IsAccepted(states[n].transfers, t) then 1 else 0
  {
    hide CanStep, Apply, Inv, CommitsAccept;
    if n > 0 {
      OneAssetPerAccept(c, states, steps, n - 1, t);
      SafeAt(c, states, steps, n - 1);
      RowsOfInv(c, states[n - 1]);
      AcceptedByCommit(c, states[n - 1], steps[n - 1], t);
    }
  }

  predicate RunsAccept(s: State, h: HandlerId, t: RecordId) {
    h in s.handlers && Accepts(s.handlers[h]) && s.handlers[h].transfer == t
  }

  predicate LocksFor(s: State, step: Step, h: HandlerId, t: RecordId, locked: Handler) {
    && step.Resolve? && step.resolve.AcceptLock? && step.resolve.h == h && step.resolve.transfer == t
    && locked == AcceptLocked(t, step.resolve.asset, step.resolve.key, s.now)
  }

  predicate SameAccept(a: Handler, b: Handler) {
    Accepts(a) && Accepts(b) && a.transfer == b.transfer && a.asset == b.asset && a.checkedAt == b.checkedAt
  }

  lemma AcceptBeginsByResolve(c: Config, s: State, step: ResolveStep, h: HandlerId, t: RecordId)
    requires CanResolve(c, s, step) && RunsAccept(DoResolve(c, s, step), h, t)
    ensures LocksFor(s, Resolve(step), h, t, DoResolve(c, s, step).handlers[h])
            || (RunsAccept(s, h, t) && SameAccept(s.handlers[h], DoResolve(c, s, step).handlers[h]))
  {
    hide KeyTaken, PathTaken;
  }

  lemma PushBeginsNoAccept(c: Config, s: State, step: PushStep, h: HandlerId, t: RecordId)
    requires CanPush(c, s, step) && RunsAccept(DoPush(c, s, step), h, t)
    ensures RunsAccept(s, h, t) && DoPush(c, s, step).handlers[h] == s.handlers[h]
  {
  }

  lemma ManageBeginsNoAccept(c: Config, s: State, step: AssetStep, h: HandlerId, t: RecordId)
    requires CanManage(c, s, step) && RunsAccept(DoManage(c, s, step), h, t)
    ensures RunsAccept(s, h, t) && DoManage(c, s, step).handlers[h] == s.handlers[h]
  {
    hide KeyTaken, PathTaken, Pinned;
  }

  lemma AcceptBegins(c: Config, s: State, step: Step, h: HandlerId, t: RecordId)
    requires CanStep(c, s, step) && RunsAccept(Apply(c, s, step), h, t)
    ensures LocksFor(s, step, h, t, Apply(c, s, step).handlers[h])
            || (RunsAccept(s, h, t) && SameAccept(s.handlers[h], Apply(c, s, step).handlers[h]))
  {
    match step {
      case Resolve(resolve) => AcceptBeginsByResolve(c, s, resolve, h, t);
      case Push(push) => PushBeginsNoAccept(c, s, push, h, t);
      case Manage(manage) => ManageBeginsNoAccept(c, s, manage, h, t);
      case _ =>
    }
    hide LocksFor, CanPush, CanResolve, CanManage, DoPush, DoResolve, DoManage;
  }

  /** The step that took the row lock for a running accept. */
  lemma {:induction false} LockedBy(c: Config, states: seq<State>, steps: seq<Step>, j: nat, h: HandlerId, t: RecordId)
    returns (i: nat)
    requires Run(c, states, steps) && j < |states| && RunsAccept(states[j], h, t)
    ensures i < j <= |steps| && steps[i].Resolve? && steps[i].resolve.AcceptLock?
    ensures steps[i].resolve.h == h && steps[i].resolve.transfer == t
    ensures states[j].handlers[h].checkedAt == states[i].now && states[j].handlers[h].asset == steps[i].resolve.asset
    ensures forall k | i < k <= j :: RunsAccept(states[k], h, t)
  {
    assert j > 0;
    StepOf(c, states, steps, j - 1);
    AcceptBegins(c, states[j - 1], steps[j - 1], h, t);
    hide Run, CanStep, Apply;
    if LocksFor(states[j - 1], steps[j - 1], h, t, states[j].handlers[h]) {
      i := j - 1;
    } else {
      i := LockedBy(c, states, steps, j - 1, h, t);
    }
  }

  /** Every accept that commits checked the expiry after it took the row lock, and the
      transfer was pending from that check to the commit. */
  lemma {:induction false} AcceptWasChecked(c: Config, states: seq<State>, steps: seq<Step>, j: nat, t: RecordId)
    returns (i: nat)
    requires Run(c, states, steps) && j < |steps| && CommitsAccept(states[j], steps[j], t)
    ensures i < j && steps[i].Resolve? && steps[i].resolve.AcceptLock?
    ensures steps[i].resolve.h == steps[j].resolve.h && steps[i].resolve.transfer == t
    ensures states[i].now <= steps[j].resolve.at
    ensures IsPending(states[j].transfers, t) && states[i].now < states[j].transfers[t].expiresAt
    ensures forall k | i < k <= j :: IsPending(states[k].transfers, t)
  {
    hide Apply;
    var h := steps[j].resolve.h;
    assert CanStep(c, states[j], steps[j]);
    i := LockedBy(c, states, steps, j, h, t);
    forall k | i < k <= j ensures IsPending(states[k].transfers, t)
      && TransferProtocol.Accepting(states[k], h, t, states[k].handlers[h].checkedAt) {
      SafeAt(c, states, steps, k);
      assert RunsAccept(states[k], h, t);
      assert HandlerOk(c, states[k], h);
    }
  }

  lemma CommitRecordsItsReading(c: Config, s: State, step: Step, t: RecordId)
    requires CanStep(c, s, step) && CommitsAccept(s, step, t)
    ensures t in s.transfers && t in Apply(c, s, step).transfers
    ensures Apply(c, s, step).transfers[t] == s.transfers[t].(
              status := Accepted, acceptedAsset := Some(s.handlers[step.resolve.h].asset),
              resolvedAt := Some(step.resolve.at))
  {
    hide KeyTaken, PathTaken, CanPush, CanManage, DoPush, DoManage;
  }

  /** Behind every accepted row is the commit that accepted it, with the clock reading
      that became the resolution time. */
  lemma {:induction false} CommitBehind(c: Config, states: seq<State>, steps: seq<Step>, n: nat, t: RecordId)
    returns (j: nat)
    requires Run(c, states, steps) && n < |states| && IsAccepted(states[n].transfers, t)
    ensures j < n && CommitsAccept(states[j], steps[j], t)
    ensures t in states[j].transfers && states[n].transfers[t].expiresAt == states[j].transfers[t].expiresAt
    ensures states[n].transfers[t].resolvedAt == Some(steps[j].resolve.at)
  {
    assert n > 0;
    StepOf(c, states, steps, n - 1);
    SafeAt(c, states, steps, n - 1);
    hide CanStep, Apply, Inv, CommitsAccept, Run;
    RowsOfInv(c, states[n - 1]);
    AcceptedByCommit(c, states[n - 1], steps[n - 1], t);
    if CommitsAccept(states[n - 1], steps[n - 1], t) {
      j := n - 1;
      CommitRecordsItsReading(c, states[j], steps[j], t);
    } else {
      StepKeeps(c, states[n - 1], steps[n - 1]);
      j := CommitBehind(c, states, steps, n - 1, t);
    }
  }

  /** The step that gives a row its outcome: a commit accepts, a reject rejects, and only a
      sweep past the expiry expires; each records its clock reading. */
  predicate Resolves(s: State, step: Step, t: RecordId, row: Transfer) {
    && step.Resolve? && IsPending(s.transfers, t)
    && match row.status
       case Accepted => CommitsAccept(s, step, t) && row.resolvedAt == Some(step.resolve.at)
       case Rejected =>
         step.resolve.RejectCommit? && step.resolve.transfer == t && row.resolvedAt == Some(step.resolve.at)
       case Expired =>
         && step.resolve.Sweep? && Overdue(s.transfers[t], step.resolve.at)
         && row.resolvedAt == Some(step.resolve.at)
       case Pending => false
  }

  predicate IsResolved(rows: Rows, t: RecordId) {
    t in rows && rows[t].status != Pending
  }

  lemma ResolveResolves(c: Config, s: State, step: ResolveStep, t: RecordId)
    requires CanResolve(c, s, step)
    requires !IsResolved(s.transfers, t) && IsResolved(DoResolve(c, s, step).transfers, t)
    ensures Resolves(s, Resolve(step), t, DoResolve(c, s, step).transfers[t])
  {
    hide KeyTaken, PathTaken;
  }

  lemma PushResolvesNothing(c: Config, s: State, step: PushStep, t: RecordId)
    requires CanPush(c, s, step) && IsResolved(DoPush(c, s, step).transfers, t)
    ensures IsResolved(s.transfers, t)
  {
  }

  lemma ManageResolvesNothing(c: Config, s: State, step: AssetStep, t: RecordId)
    requires CanManage(c, s, step) && IsResolved(DoManage(c, s, step).transfers, t)
    ensures IsResolved(s.transfers, t)
  {
    hide KeyTaken, PathTaken, ShapesHold;
  }

  lemma StepResolves(c: Config, s: State, step: Step, t: RecordId)
    requires CanStep(c, s, step)
    requires !IsResolved(s.transfers, t) && IsResolved(Apply(c, s, step).transfers, t)
    ensures Resolves(s, step, t, Apply(c, s, step).transfers[t])
  {
    hide IsResolved, Resolves, CanPush, CanResolve, CanManage, DoPush, DoResolve, DoManage;
    match step {
      case Push(push) => PushResolvesNothing(c, s, push, t);
      case Resolve(resolve) => ResolveResolves(c, s, resolve, t);
      case Manage(manage) => ManageResolvesNothing(c, s, manage, t);
      case _ =>
    }
  }

  lemma NoneResolvedInitially(c: Config, states: seq<State>, steps: seq<Step>, t: RecordId)
    requires Run(c, states, steps)
    ensures |states| > 0 && !IsResolved(states[0].transfers, t)
  {
    hide CanStep, Apply;
  }

  lemma GrownRow(rows: Rows, after: Rows, t: RecordId)
    requires t in rows && RowsGrow(rows, after)
    ensures t in after && Keeps(rows[t], after[t])
  {
  }

  /** Behind every resolved row is the one step that resolved it. */
  lemma {:induction false} ResolvedBy(c: Config, states: seq<State>, steps: seq<Step>, n: nat, t: RecordId)
    returns (j: nat)
    requires Run(c, states, steps) && n < |states| && IsResolved(states[n].transfers, t)
    ensures j < n && Resolves(states[j], steps[j], t, states[n].transfers[t])
  {
    hide CanStep, Apply, Inv, Resolves, Run, RowsGrow, Keeps;
    NoneResolvedInitially(c, states, steps, t);
    StepOf(c, states, steps, n - 1);
    SafeAt(c, states, steps, n - 1);
    if IsResolved(states[n - 1].transfers, t) {
      StepKeeps(c, states[n - 1], steps[n - 1]);
      GrownRow(states[n - 1].transfers, states[n].transfers, t);
      j := ResolvedBy(c, states, steps, n - 1, t);
      SameOutcome(states[j], steps[j], t, states[n - 1].transfers[t], states[n].transfers[t]);
    } else {
      j := n - 1;
      StepResolves(c, states[j], steps[j], t);
    }
  }

  lemma SameOutcome(s: State, step: Step, t: RecordId, before: Transfer, after: Transfer)
    requires Resolves(s, step, t, before) && before.status != Pending && Keeps(before, after)
    ensures Resolves(s, step, t, after)
  {
  }

  /** When an accepted transfer was resolved late: `i` locked the row and checked the
      expiry, `j` marked it with a second clock reading.  The check was before the
      expiry; the resolution is exactly if the second reading was. */
  lemma AcceptedOnTimeWhen(c: Config, states: seq<State>, steps: seq<Step>, n: nat, t: RecordId)
    returns (i: nat, j: nat)
    requires Run(c, states, steps) && n < |states| && IsAccepted(states[n].transfers, t)
    ensures i < j < n && CommitsAccept(states[j], steps[j], t)
    ensures steps[i].Resolve? && steps[i].resolve.AcceptLock? && steps[i].resolve.transfer == t
    ensures steps[i].resolve.h == steps[j].resolve.h
    ensures var row := states[n].transfers[t];
            && states[i].now < row.expiresAt && states[i].now <= steps[j].resolve.at
            && row.resolvedAt.Some?
            && (row.resolvedAt.value < row.expiresAt <==> steps[j].resolve.at < row.expiresAt)
  {
    hide CommitsAccept;
    j := CommitBehind(c, states, steps, n, t);
    i := AcceptWasChecked(c, states, steps, j, t);
  }

  /** The commit of an accept: the new asset belongs to the destination Brain and carries
      the transfer's checksum and size, and its bytes are already stored. */
  lemma CommitCreatesAsset(c: Config, s: State, h: HandlerId, at: nat)
    requires Inv(c, s) && CanResolve(c, s, AcceptCommit(h, at))
    ensures var a, after := s.handlers[h], DoResolve(c, s, AcceptCommit(h, at));
            var row := s.transfers[a.transfer];
            && a.asset !in s.assets && after.assets.Keys == s.assets.Keys + {a.asset}
            && (forall x | x in s.assets :: after.assets[x] == s.assets[x])
            && row.destination == Some(after.assets[a.asset].brain)
            && after.assets[a.asset].sha == row.sha && after.assets[a.asset].size == row.size
            && after.assets[a.asset].path in s.objects
            && c.sum(s.objects[after.assets[a.asset].path]) == row.sha
            && |s.objects[after.assets[a.asset].path]| == row.size && after.objects == s.objects
    ensures var a, after := s.handlers[h], DoResolve(c, s, AcceptCommit(h, at));
            && after.transfers.Keys == s.transfers.Keys
            && (forall t | t in s.transfers && t != a.transfer :: after.transfers[t] == s.transfers[t])
            && after.transfers[a.transfer].status == Accepted
            && after.transfers[a.transfer].acceptedAsset == Some(a.asset)
            && s.transfers[a.transfer].status == Pending && a.checkedAt < s.transfers[a.transfer].expiresAt
  {
    assert HandlerOk(c, s, h);
    hide KeyTaken, PathTaken, HeldOnce, AssetsOk, PendingStored, AcceptedPresent;
  }

  /** Once an accept holds the row, its read finds the object, within the limit and with
      the recorded checksum: the missing-object, size and checksum errors cannot happen. */
  lemma AcceptAlwaysReads(c: Config, s: State, h: HandlerId)
    requires Inv(c, s) && h in s.handlers && s.handlers[h].AcceptLocked?
    ensures CanResolve(c, s, AcceptGet(h))
  {
    assert HandlerOk(c, s, h);
  }

  /** In every reachable state two assets of one Brain have different keys, and no two
      assets share a path. */
  lemma KeysStayUnique(c: Config, states: seq<State>, steps: seq<Step>, i: nat, a: RecordId, b: RecordId)
    requires Run(c, states, steps) && i < |states| && a in states[i].assets && b in states[i].assets && a != b
    ensures states[i].assets[a].path != states[i].assets[b].path
    ensures states[i].assets[a].brain == states[i].assets[b].brain ==>
              states[i].assets[a].key != states[i].assets[b].key
  {
    SafeAt(c, states, steps, i);
    hide Run, RowsOk, ObjectsOk, PendingStored, HandlersOk, HeldOnce, AssetsOk, AcceptedPresent;
  }

  lemma ResolveLeavesAssetRows(c: Config, s: State, step: ResolveStep, a: RecordId)
    requires CanResolve(c, s, step) && a in s.assets
    ensures a in DoResolve(c, s, step).assets && DoResolve(c, s, step).assets[a] == s.assets[a]
  {
    hide KeyTaken, PathTaken;
  }

  lemma ManageLeavesBrains(c: Config, s: State, step: AssetStep, a: RecordId)
    requires CanManage(c, s, step) && a in s.assets && a in DoManage(c, s, step).assets
    ensures DoManage(c, s, step).assets[a].brain == s.assets[a].brain
  {
    hide RowFree, ShapesHold, Nulled;
  }

  lemma AssetStaysInBrain(c: Config, s: State, step: Step, a: RecordId)
    requires CanStep(c, s, step) && a in s.assets && a in Apply(c, s, step).assets
    ensures Apply(c, s, step).assets[a].brain == s.assets[a].brain
  {
    match step {
      case Push(push) => PushWritesNoAsset(c, s, push);
      case Resolve(resolve) => ResolveLeavesAssetRows(c, s, resolve, a);
      case Manage(manage) => ManageLeavesBrains(c, s, manage, a);
      case _ =>
    }
    hide CanPush, CanResolve, CanManage, DoPush, DoResolve, DoManage;
  }

  /** As long as an asset exists it belongs to the same Brain. */
  lemma {:induction false} AssetsStayInTheirBrain(c: Config, states: seq<State>, steps: seq<Step>, i: nat, j: nat,
                                                  a: RecordId)
    requires Run(c, states, steps) && i <= j < |states| && forall k | i <= k <= j :: a in states[k].assets
    ensures states[j].assets[a].brain == states[i].assets[a].brain
    decreases j - i
  {
    hide CanStep, Apply;
    if i < j {
      AssetsStayInTheirBrain(c, states, steps, i, j - 1, a);
      StepOf(c, states, steps, j - 1);
      AssetStaysInBrain(c, states[j - 1], steps[j - 1], a);
    }
  }

  lemma PendingObjectExists(c: Config, states: seq<State>, steps: seq<Step>, i: nat, t: RecordId)
    requires Run(c, states, steps) && i < |states| && IsPending(states[i].transfers, t)
    ensures var row, objects := states[i].transfers[t], states[i].objects;
            row.path in objects && c.sum(objects[row.path]) == row.sha && |objects[row.path]| == row.size
  {
    SafeAt(c, states, steps, i);
  }

  lemma AcceptedObjectExists(c: Config, states: seq<State>, steps: seq<Step>, i: nat, a: RecordId)
    requires Run(c, states, steps) && i < |states| && a in states[i].assets && states[i].assets[a].path.AcceptedPath?
    ensures var asset, s := states[i].assets[a], states[i];
            && IsAccepted(s.transfers, asset.path.transfer) && s.transfers[asset.path.transfer].acceptedAsset == Some(a)
            && asset.brain == asset.path.brain && asset.sha == s.transfers[asset.path.transfer].sha
            && asset.path in s.objects && c.sum(s.objects[asset.path]) == asset.sha
            && |s.objects[asset.path]| == asset.size
  {
    SafeAt(c, states, steps, i);
    assert AssetOk(states[i].transfers, states[i].objects, a, states[i].assets[a]);
  }

  /** With a hash that does not collide, the destination holds the pushed bytes for as
      long as its asset is not overwritten. */
  lemma PushedIsAccepted(c: Config, states: seq<State>, steps: seq<Step>, i: nat, j: nat, a: RecordId)
    requires Run(c, states, steps) && i < |steps| && i < j < |states|
    requires steps[i].Push? && steps[i].push.PushInsert? && steps[i].push.ok
    requires a in states[j].assets && states[j].assets[a].path.AcceptedPath?
    requires steps[i].push.h in states[i].handlers && states[i].handlers[steps[i].push.h].PushStored?
    requires states[j].assets[a].path.transfer == states[i].handlers[steps[i].push.h].transfer
    requires forall x, y :: c.sum(x) == c.sum(y) ==> x == y
    ensures states[j].assets[a].path in states[j].objects
    ensures states[j].objects[states[j].assets[a].path] == states[i].handlers[steps[i].push.h].bytes
  {
    var p := states[i].handlers[steps[i].push.h];
    assert CanStep(c, states[i], steps[i]) && states[i + 1] == Apply(c, states[i], steps[i]);
    assert states[i + 1].transfers[p.transfer] == PushRow(c, p);
    OutcomeIsFinal(c, states, steps, i + 1, j, p.transfer);
    AcceptedObjectExists(c, states, steps, j, a);
  }

  /** A run goes on with any step that can be taken. */
  lemma Extend(c: Config, states: seq<State>, steps: seq<Step>, step: Step) returns (all: seq<State>, taken: seq<Step>)
    requires Run(c, states, steps) && |states| == |steps| + 1 && CanStep(c, states[|steps|], step)
    ensures Run(c, all, taken) && |all| == |taken| + 1 && |taken| == |steps| + 1
    ensures all[|taken|] == Apply(c, states[|steps|], step)
  {
    hide CanStep, Apply;
    all, taken := states + [Apply(c, states[|steps|], step)], steps + [step];
    forall i | 0 <= i < |taken| ensures CanStep(c, all[i], taken[i]) && all[i + 1] == Apply(c, all[i], taken[i]) {
      if i < |steps| {
        assert all[i] == states[i] && taken[i] == steps[i];
      }
    }
  }

  lemma OnePendingTransfer(c: Config) returns (states: seq<State>, steps: seq<Step>)
    requires c == Config(bytes => "sum", 10)
    ensures Run(c, states, steps) && |states| == |steps| + 1
    ensures states[|steps|] == State(
              0, map["t" := Transfer(Some("b"), Pending, TransferPath("t", "sum"), 0, "sum", None, 5, None)], map[],
              map[TransferPath("t", "sum") := []], map[], map[])
  {
    states, steps := [State(0, map[], map[], map[], map[], map[])], [];
    assert Run(c, states, steps);
    hide Run;
    states, steps := Extend(c, states, steps, Step.Push(StartPush(1, "t", [], "b", 5)));
    states, steps := Extend(c, states, steps, Step.Push(PushPut(1, Written)));
    states, steps := Extend(c, states, steps, Step.Push(PushInsert(1, true)));
  }

  lemma OneCopiedTransfer(c: Config) returns (states: seq<State>, steps: seq<Step>)
    requires c == Config(bytes => "sum", 10)
    ensures Run(c, states, steps) && |states| == |steps| + 1
    ensures var row := Transfer(Some("b"), Pending, TransferPath("t", "sum"), 0, "sum", None, 5, None);
            states[|steps|] == State(
              0, map["t" := row], map[], map[row.path := [], AcceptedPath("b", "t", "sum") := []],
              map[2 := AcceptPut("t", "a", "k", 0, [])], map["t" := 2])
  {
    hide Run;
    states, steps := OnePendingTransfer(c);
    states, steps := Extend(c, states, steps, Resolve(AcceptLock(2, "t", "a", "k")));
    states, steps := Extend(c, states, steps, Resolve(AcceptGet(2)));
    states, steps := Extend(c, states, steps, Resolve(AcceptStore(2)));
  }

  /** An accept can be recorded after the expiry it checked: the clock is read again. */
  lemma LateResolution() returns (c: Config, states: seq<State>, steps: seq<Step>)
    ensures Run(c, states, steps) && |states| == |steps| + 1 && "t" in states[|steps|].transfers
    ensures var row := states[|steps|].transfers["t"];
            row.status == Accepted && row.resolvedAt.Some? && row.expiresAt < row.resolvedAt.value
  {
    hide Run;
    c := Config(bytes => "sum", 10);
    states, steps := OneCopiedTransfer(c);
    states, steps := Extend(c, states, steps, Tick(9));
    states, steps := Extend(c, states, steps, Resolve(AcceptCommit(2, 9)));
  }
}
