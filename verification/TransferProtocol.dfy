/** Any number of concurrent push, accept, reject, upload and delete handlers and
    expiry sweeps over the rows and the object store
    (internal/httpapi/handlers_transfers.go, handlers_execution.go, handlers_assets.go). */
module TransferProtocol {
  import opened Prelude
  import opened Domain
  import opened TransferRows

  type HandlerId = nat

  /** Where a running handler stands, with the values it holds. */
  datatype Handler =
    | PushReady(transfer: RecordId, bytes: seq<byte>, destination: RecordId, expiresAt: nat)
    | PushStored(transfer: RecordId, bytes: seq<byte>, destination: RecordId, expiresAt: nat)
    | PushCleanup(transfer: RecordId, sha: string)
    | AcceptLocked(transfer: RecordId, asset: RecordId, key: string, checkedAt: nat)
    | AcceptRead(transfer: RecordId, asset: RecordId, key: string, checkedAt: nat, data: seq<byte>)
    | AcceptPut(transfer: RecordId, asset: RecordId, key: string, checkedAt: nat, data: seq<byte>)
    | Resolved(transfer: RecordId)
    | AssetSeen(asset: RecordId, path: Path)
    | Cleaning(path: Path)

  datatype State = State(
    now: nat, transfers: Rows, assets: map<RecordId, Asset>, objects: map<Path, seq<byte>>,
    handlers: map<HandlerId, Handler>, locks: map<RecordId, HandlerId>)

  datatype Config = Config(sum: seq<byte> -> string, maxPayload: nat)

  datatype PutOutcome = Written | FailedButWritten | FailedClean

  datatype PushStep =
    | StartPush(h: HandlerId, transfer: RecordId, bytes: seq<byte>, destination: RecordId, expiresAt: nat)
    | PushPut(h: HandlerId, outcome: PutOutcome)
    | PushInsert(h: HandlerId, ok: bool)
    | PushDelete(h: HandlerId)

  datatype ResolveStep =
    | AcceptLock(h: HandlerId, transfer: RecordId, asset: RecordId, key: string)
    | AcceptGet(h: HandlerId)
    | AcceptStore(h: HandlerId)
    | AcceptCommit(h: HandlerId, at: nat)
    | RejectCommit(h: HandlerId, transfer: RecordId, at: nat)
    | ResolvedDelete(h: HandlerId)
    | Sweep(at: nat)

  datatype AssetStep =
    | SeeAsset(h: HandlerId, asset: RecordId)
    | DropAsset(h: HandlerId)
    | OverwriteAsset(h: HandlerId, row: Asset)
    | CleanPath(h: HandlerId)
    | UploadPut(path: Path, bytes: seq<byte>)
    | UploadDelete(path: Path)
    | WriteAsset(asset: RecordId, row: Asset)
    | RemoveBrain(brain: RecordId)

  /** One atomic step of the system; `Stop` ends a handler between two of its steps
      and rolls back the transaction it had open. */
  datatype Step =
    | Tick(later: nat) | Stop(h: HandlerId)
    | Push(push: PushStep) | Resolve(resolve: ResolveStep) | Manage(manage: AssetStep)

  predicate KeyTaken(assets: map<RecordId, Asset>, brain: RecordId, key: string) {
    exists a | a in assets :: assets[a].brain == brain && assets[a].key == key
  }

  predicate PathTaken(assets: map<RecordId, Asset>, path: Path) {
    exists a | a in assets :: assets[a].path == path
  }

  /** The unique constraints of the asset table let the row in. */
  predicate RowFree(assets: map<RecordId, Asset>, id: RecordId, row: Asset) {
    forall a | a in assets && a != id ::
      assets[a].path != row.path && (assets[a].brain == row.brain ==> assets[a].key != row.key)
  }

  predicate Pinned(rows: Rows, asset: RecordId) {
    exists t | t in rows :: rows[t].acceptedAsset == Some(asset)
  }

  /** Deleting assets sets every reference to them to null. */
  function Nulled(rows: Rows, gone: set<RecordId>): (r: Rows)
    ensures r.Keys == rows.Keys
    ensures forall t | t in rows :: r[t].status == rows[t].status && r[t].path == rows[t].path
  {
    map t | t in rows ::
      if rows[t].acceptedAsset.Some? && rows[t].acceptedAsset.value in gone then rows[t].(acceptedAsset := None)
        else rows[t]
  }

  /** The table's check, which a statement must leave satisfied. */
  predicate ShapesHold(rows: Rows) {
    forall t | t in rows :: ResolutionShape(rows[t])
  }

  function OwnedBy(assets: map<RecordId, Asset>, brain: RecordId): set<RecordId> {
    set a | a in assets && assets[a].brain == brain
  }

  function Target(s: State, t: RecordId): Path
    requires t in s.transfers && s.transfers[t].destination.Some?
  {
    AcceptedPath(s.transfers[t].destination.value, t, s.transfers[t].sha)
  }

  /** A push: the payload object first, then the row, then the clean-up of a failed insert. */
  predicate CanPush(c: Config, s: State, step: PushStep) {
    match step
    case StartPush(h, t, bytes, dest, expiresAt) => h !in s.handlers && |bytes| <= c.maxPayload
    case PushPut(h, outcome) =>
      && h in s.handlers && s.handlers[h].PushReady?
      && (TransferPath(s.handlers[h].transfer, c.sum(s.handlers[h].bytes)) in s.objects ==> outcome == FailedClean)
    case PushInsert(h, ok) =>
      && h in s.handlers && s.handlers[h].PushStored?
      && (ok ==> s.handlers[h].transfer !in s.transfers && s.handlers[h].expiresAt > s.now)
    case PushDelete(h) => h in s.handlers && s.handlers[h].PushCleanup?
  }

  /** Accept, reject and the sweep. Holding the row lock, an accept checks, reads and
      copies; its rows change at the commit. */
  predicate CanResolve(c: Config, s: State, step: ResolveStep) {
    match step
    case AcceptLock(h, t, asset, key) =>
      && h !in s.handlers && t in s.transfers && t !in s.locks
      && s.transfers[t].status == Pending && s.transfers[t].expiresAt > s.now
      && s.transfers[t].destination.Some? && !KeyTaken(s.assets, s.transfers[t].destination.value, key)
    case AcceptGet(h) =>
      && h in s.handlers && s.handlers[h].AcceptLocked? && s.handlers[h].transfer in s.transfers
      && var row := s.transfers[s.handlers[h].transfer];
         row.path in s.objects && |s.objects[row.path]| <= c.maxPayload && c.sum(s.objects[row.path]) == row.sha
    case AcceptStore(h) =>
      && h in s.handlers && s.handlers[h].AcceptRead?
      && s.handlers[h].transfer in s.transfers && s.transfers[s.handlers[h].transfer].destination.Some?
    case AcceptCommit(h, at) =>
      && h in s.handlers && s.handlers[h].AcceptPut? && IsPending(s.transfers, s.handlers[h].transfer)
      && s.transfers[s.handlers[h].transfer].destination.Some?
      && s.handlers[h].checkedAt <= at <= s.now
      && s.handlers[h].asset !in s.assets
      && !KeyTaken(s.assets, s.transfers[s.handlers[h].transfer].destination.value, s.handlers[h].key)
      && !PathTaken(s.assets, Target(s, s.handlers[h].transfer))
    case RejectCommit(h, t, at) => h !in s.handlers && IsPending(s.transfers, t) && t !in s.locks && at <= s.now
    case ResolvedDelete(h) => h in s.handlers && s.handlers[h].Resolved? && s.handlers[h].transfer in s.transfers
    case Sweep(at) => at <= s.now && forall t | t in s.locks && t in s.transfers :: !Overdue(s.transfers[t], at)
  }

  /** Uploads, overwrites and deletes of assets, and the deletion of a Brain. */
  predicate CanManage(c: Config, s: State, step: AssetStep) {
    match step
    case SeeAsset(h, a) => h !in s.handlers && a in s.assets
    case DropAsset(h) =>
      && h in s.handlers && s.handlers[h].AssetSeen?
      && ShapesHold(Nulled(s.transfers, s.assets.Keys * {s.handlers[h].asset}))
    case OverwriteAsset(h, row) =>
      && h in s.handlers && s.handlers[h].AssetSeen? && s.handlers[h].asset in s.assets
      && row.path.UploadPath? && row.brain == s.assets[s.handlers[h].asset].brain
      && RowFree(s.assets, s.handlers[h].asset, row)
    case CleanPath(h) => h in s.handlers && s.handlers[h].Cleaning?
    case UploadPut(path, bytes) => path.UploadPath? && c.sum(bytes) == path.sha
    case UploadDelete(path) => path.UploadPath?
    case WriteAsset(a, row) =>
      row.path.UploadPath? && (a in s.assets ==> row.brain == s.assets[a].brain) && RowFree(s.assets, a, row)
    case RemoveBrain(b) =>
      && ShapesHold(Nulled(s.transfers, OwnedBy(s.assets, b)))
      && (forall t | t in s.locks && t in s.transfers :: s.transfers[t].destination != Some(b))
  }

  predicate CanStep(c: Config, s: State, step: Step) {
    match step
    case Tick(later) => s.now <= later
    case Stop(h) => h in s.handlers
    case Push(push) => CanPush(c, s, push)
    case Resolve(resolve) => CanResolve(c, s, resolve)
    case Manage(manage) => CanManage(c, s, manage)
  }

  function Advance(s: State, h: HandlerId, handler: Handler): State {
    s.(handlers := s.handlers[h := handler])
  }

  function Done(s: State, h: HandlerId): State {
    s.(handlers := s.handlers - {h})
  }

  function PushRow(c: Config, p: Handler): Transfer
    requires p.PushStored?
  {
    Transfer(Some(p.destination), Pending, TransferPath(p.transfer, c.sum(p.bytes)), |p.bytes|, c.sum(p.bytes),
             None, p.expiresAt, None)
  }

  function AcceptedAsset(s: State, a: Handler): Asset
    requires a.AcceptPut? && a.transfer in s.transfers && s.transfers[a.transfer].destination.Some?
  {
    var row := s.transfers[a.transfer];
    Asset(row.destination.value, a.key, Target(s, a.transfer), row.size, row.sha)
  }

  function WithoutBrain(rows: Rows, b: RecordId): (r: Rows)
    ensures r.Keys == rows.Keys
    ensures forall t | t in rows ::
              r[t] == if rows[t].destination == Some(b) then rows[t].(destination := None) else rows[t]
  {
    map t | t in rows :: if rows[t].destination == Some(b) then rows[t].(destination := None) else rows[t]
  }

  function DoPush(c: Config, s: State, step: PushStep): State
    requires CanPush(c, s, step)
  {
    match step
    case StartPush(h, t, bytes, dest, expiresAt) => Advance(s, h, PushReady(t, bytes, dest, expiresAt))
    case PushPut(h, outcome) =>
      var p := s.handlers[h];
      var stored := s.(objects := s.objects[TransferPath(p.transfer, c.sum(p.bytes)) := p.bytes]);
      if outcome == Written then Advance(stored, h, PushStored(p.transfer, p.bytes, p.destination, p.expiresAt))
      else if outcome == FailedButWritten then Done(stored, h)
      else Done(s, h)
    case PushInsert(h, ok) =>
      var p := s.handlers[h];
      if ok then Done(s.(transfers := s.transfers[p.transfer := PushRow(c, p)]), h)
      else Advance(s, h, PushCleanup(p.transfer, c.sum(p.bytes)))
    case PushDelete(h) =>
      Done(s.(objects := s.objects - {TransferPath(s.handlers[h].transfer, s.handlers[h].sha)}), h)
  }

  function DoResolve(c: Config, s: State, step: ResolveStep): State
    requires CanResolve(c, s, step)
  {
    match step
    case AcceptLock(h, t, asset, key) =>
      Advance(s.(locks := s.locks[t := h]), h, AcceptLocked(t, asset, key, s.now))
    case AcceptGet(h) =>
      var a := s.handlers[h];
      Advance(s, h, AcceptRead(a.transfer, a.asset, a.key, a.checkedAt, s.objects[s.transfers[a.transfer].path]))
    case AcceptStore(h) =>
      var a := s.handlers[h];
      Advance(s.(objects := s.objects[Target(s, a.transfer) := a.data]), h,
              AcceptPut(a.transfer, a.asset, a.key, a.checkedAt, a.data))
    case AcceptCommit(h, at) =>
      var a := s.handlers[h];
      Advance(s.(assets := s.assets[a.asset := AcceptedAsset(s, a)],
                 transfers := s.transfers[a.transfer := MarkedAccepted(s.transfers[a.transfer], a.asset, at)],
                 locks := s.locks - {a.transfer}), h, Resolved(a.transfer))
    case RejectCommit(h, t, at) =>
      Advance(s.(transfers := s.transfers[t := MarkedTerminal(s.transfers[t], Rejected, at)]), h, Resolved(t))
    case ResolvedDelete(h) =>
      Done(s.(objects := s.objects - {s.transfers[s.handlers[h].transfer].path}), h)
    case Sweep(at) => s.(transfers := Swept(s.transfers, at))
  }

  function DoManage(c: Config, s: State, step: AssetStep): State
    requires CanManage(c, s, step)
  {
    match step
    case SeeAsset(h, a) => Advance(s, h, AssetSeen(a, s.assets[a].path))
    case DropAsset(h) =>
      var seen := s.handlers[h];
      Advance(s.(transfers := Nulled(s.transfers, s.assets.Keys * {seen.asset}), assets := s.assets - {seen.asset}),
              h, Cleaning(seen.path))
    case OverwriteAsset(h, row) =>
      var seen := s.handlers[h];
      var written := s.(assets := s.assets[seen.asset := row]);
      if row.path == seen.path then Done(written, h) else Advance(written, h, Cleaning(seen.path))
    case CleanPath(h) => Done(s.(objects := s.objects - {s.handlers[h].path}), h)
    case UploadPut(path, bytes) => s.(objects := s.objects[path := bytes])
    case UploadDelete(path) => s.(objects := s.objects - {path})
    case WriteAsset(a, row) => s.(assets := s.assets[a := row])
    case RemoveBrain(b) =>
      s.(transfers := WithoutBrain(Nulled(s.transfers, OwnedBy(s.assets, b)), b),
         assets := map a | a in s.assets && s.assets[a].brain != b :: s.assets[a])
  }

  function Apply(c: Config, s: State, step: Step): State
    requires CanStep(c, s, step)
  {
    match step
    case Tick(later) => s.(now := later)
    case Stop(h) => Done(s.(locks := map t | t in s.locks && s.locks[t] != h :: s.locks[t]), h)
    case Push(push) => DoPush(c, s, push)
    case Resolve(resolve) => DoResolve(c, s, resolve)
    case Manage(manage) => DoManage(c, s, manage)
  }

  /** The handler of a request that is served alone. */
  const HANDLER: HandlerId := 0

  /** One step after another, as long as each can be taken. */
  function Then(c: Config, s: Option<State>, step: Step): Option<State> {
    if s.Some? && CanStep(c, s.value, step) then Some(Apply(c, s.value, step)) else None
  }

  // ------------------------------------------------------------ the invariant

  predicate RowsOk(c: Config, rows: Rows) {
    forall t | t in rows ::
      ResolutionShape(rows[t]) && rows[t].path == TransferPath(t, rows[t].sha) && rows[t].size <= c.maxPayload
  }

  /** Every object lies under the checksum of its bytes. */
  predicate ObjectsOk(c: Config, objects: map<Path, seq<byte>>) {
    forall p | p in objects :: c.sum(objects[p]) == p.sha
  }

  /** Every pending transfer has its object, of the recorded size. */
  predicate PendingStored(rows: Rows, objects: map<Path, seq<byte>>) {
    forall t | t in rows && rows[t].status == Pending ::
      rows[t].path in objects && |objects[rows[t].path]| == rows[t].size
  }

  /** A push that owns an object no row refers to yet. */
  predicate OwnsObject(s: State, t: RecordId, path: Path) {
    && (t !in s.transfers ==> path in s.objects)
    && (IsPending(s.transfers, t) ==> s.transfers[t].path != path)
  }

  predicate Accepting(s: State, h: HandlerId, t: RecordId, checkedAt: nat) {
    && t in s.locks && s.locks[t] == h && IsPending(s.transfers, t)
    && checkedAt < s.transfers[t].expiresAt && checkedAt <= s.now
    && s.transfers[t].destination.Some?
  }

  predicate HandlerOk(c: Config, s: State, h: HandlerId)
    requires h in s.handlers
  {
    match s.handlers[h]
    case PushReady(t, bytes, _, _) => |bytes| <= c.maxPayload
    case PushStored(t, bytes, _, _) =>
      && |bytes| <= c.maxPayload && OwnsObject(s, t, TransferPath(t, c.sum(bytes)))
      && (t !in s.transfers ==> s.objects[TransferPath(t, c.sum(bytes))] == bytes)
    case PushCleanup(t, sha) => OwnsObject(s, t, TransferPath(t, sha))
    case AcceptLocked(t, _, _, checkedAt) => Accepting(s, h, t, checkedAt)
    case AcceptRead(t, _, _, checkedAt, data) =>
      Accepting(s, h, t, checkedAt) && c.sum(data) == s.transfers[t].sha && |data| == s.transfers[t].size
    case AcceptPut(t, _, _, checkedAt, data) =>
      && Accepting(s, h, t, checkedAt) && c.sum(data) == s.transfers[t].sha && |data| == s.transfers[t].size
      && Target(s, t) in s.objects && s.objects[Target(s, t)] == data
    case Resolved(t) => t in s.transfers && s.transfers[t].status != Pending
    case AssetSeen(asset, path) => NamedBy(s.transfers, asset, path)
    case Cleaning(path) => Disused(s, path)
  }

  /** A path an asset row can name: an accepted one belongs to the asset its transfer names. */
  predicate NamedBy(rows: Rows, asset: RecordId, path: Path) {
    && !path.TransferPath?
    && (path.AcceptedPath? ==>
          && path.transfer in rows && rows[path.transfer].acceptedAsset == Some(asset)
          && rows[path.transfer].sha == path.sha)
  }

  /** A path that no asset row names any more. */
  predicate Disused(s: State, path: Path) {
    && !path.TransferPath?
    && (path.AcceptedPath? ==>
          && path.transfer in s.transfers && s.transfers[path.transfer].acceptedAsset.Some?
          && !PathTaken(s.assets, path))
  }

  predicate HandlersOk(c: Config, s: State) {
    forall h | h in s.handlers :: HandlerOk(c, s, h)
  }

  /** The object a push put and still answers for. */
  function Held(c: Config, p: Handler): Option<Path> {
    match p
    case PushStored(t, bytes, _, _) => Some(TransferPath(t, c.sum(bytes)))
    case PushCleanup(t, sha) => Some(TransferPath(t, sha))
    case _ => None
  }

  /** Two pushes hold the same object only once its transfer id is taken. */
  predicate HeldOnce(c: Config, s: State) {
    forall h, g | h in s.handlers && g in s.handlers && h != g &&
      Held(c, s.handlers[h]).Some? && Held(c, s.handlers[h]) == Held(c, s.handlers[g]) ::
      Held(c, s.handlers[h]).value.transfer in s.transfers
  }

  /** An asset at an accepted path belongs to the path's Brain and its object is stored. */
  predicate AssetOk(rows: Rows, objects: map<Path, seq<byte>>, id: RecordId, asset: Asset) {
    && NamedBy(rows, id, asset.path)
    && (asset.path.AcceptedPath? ==>
          && asset.path in objects && |objects[asset.path]| == asset.size
          && asset.sha == asset.path.sha && asset.brain == asset.path.brain)
  }

  predicate AssetsOk(rows: Rows, assets: map<RecordId, Asset>, objects: map<Path, seq<byte>>) {
    forall a | a in assets :: AssetOk(rows, objects, a, assets[a])
  }

  predicate AcceptedPresent(rows: Rows, assets: map<RecordId, Asset>) {
    forall t | t in rows && rows[t].acceptedAsset.Some? :: rows[t].acceptedAsset.value in assets
  }

  /** No two assets have the same path, and no two of one Brain the same key. */
  predicate AssetsDiffer(assets: map<RecordId, Asset>) {
    forall a, b | a in assets && b in assets && a != b ::
      assets[a].path != assets[b].path && (assets[a].brain == assets[b].brain ==> assets[a].key != assets[b].key)
  }

  predicate Inv(c: Config, s: State) {
    && RowsOk(c, s.transfers) && ObjectsOk(c, s.objects) && PendingStored(s.transfers, s.objects)
    && HandlersOk(c, s) && HeldOnce(c, s)
    && AssetsOk(s.transfers, s.assets, s.objects) && AcceptedPresent(s.transfers, s.assets)
    && AssetsDiffer(s.assets)
  }
}
