# SecureBrain verification model

SecureBrain lets the owner of a Brain publish query paths over its assets. A policy decides who may
run a path, the result passes through a finite list of Services, and a pushed result waits as a
transfer until the destination accepts or rejects it. This project models those parts in Dafny and
proves what they promise, over every input, every reachable state of the tables and every
interleaving of handlers. `dafny verify dfyconfig.toml` checks everything.

| file | what it models |
|---|---|
| Prelude, Domain | shared values, names, states and parsers |
| TextSearch, CsvQuery, CsvMeaning, CsvLaws, CsvWalks | the bounded query engine, its declarative form, what its rows and matches mean, and the laws of filtering and paging over one and over several files |
| Policy | save-time validation and run-time authorization |
| ConfigStore, ConfigRequests, ConfigHandlers | the query-path tables with their triggers, the request handlers that write them |
| ConfigRuns, ConfigLaws, ConfigRoundTrip | runs of saves, edits and deletes; their invariant and what follows from it |
| Hops, Execution, Deliveries | the Service traversal over an arbitrary executor, asset loading, the execution lifecycle, and when an execution is delivered |
| Agreement | the saved policy meets the running execution, and save-time validation meets the query engine |
| PathLaws | query paths by their segments, and what the tables take |
| Transfers, TransferHandlers | transfer rows, and the accept and reject handlers as the program writes them |
| TransferProtocol, TransferSafety | any number of concurrent pushes, accepts, rejects, sweeps, uploads and deletes over rows and object store |
| Idempotency, Sending, Resolving | idempotency records, their claim protocol, and the idempotent push, accept and reject |
| BoundedReader, Preview | the length-bounded download body, UTF-8-safe truncation and CSV previews |

The protocols are state machines: each SQL statement or transaction callback is one step, each object
`Put`, `Get` and `Delete` is its own step, a handler can stop between any two of its steps, and the
theorems quantify over runs given as a sequence of states and a sequence of steps. Code that changes
fields is a class whose methods state the whole new state; `TransferHandlers.Desk`,
`Execution.Api`, `ConfigHandlers` and `ConfigStore.Store` are tied to the steps of the state machines by their
postconditions. Hashes, JSON, rune folding, number parsing and the CSV reader are parameters; a
collision-free hash is assumed only where byte equality is claimed.

## Findings

The code differs from what one would expect in these places; each is kept as it is in the model.

- Accepting an expired transfer marks the row and then returns an error, which rolls the mark back:
  the row stays pending until a sweep (`TransferHandlers.Desk.AcceptInTx`), and in every run a row that is
  expired was expired by a sweep (`TransferSafety.ResolvedBy`).
- An accept checks the expiry once, after taking the row lock, and reads the clock again when it marks
  the row: an accepted transfer can be resolved after its expiry (`TransferSafety.LateResolution`). Every
  accepted transfer passed the check, and it was resolved in time exactly when the second reading was
  (`TransferSafety.AcceptedOnTimeWhen`). A reject never checks the expiry.
- An asset that an accepted transfer names cannot be deleted, nor can its Brain: the reference would be
  set to null, and the shape check of the table refuses exactly the deletes that do this
  (`TransferSafety.DeletesThatKeepTheShape`).
- An idempotency record that expired is taken over under its old row id, and completion looks only at
  that id: a run that completes late stores its response as the answer of the run that took over
  (`IdempotencyRuns.LateCompletion`). `IdempotencyRuns.ReplayIsTheClaimants` gives the exact condition.
- Loading a configuration takes six statements outside a transaction. A replace between them yields old
  grants with a new route, and a push that both configurations deliver is refused as
  PRINCIPAL_NOT_AUTHORIZED (`ConfigLaws.TornLoadRefused`). A push over a fixed, short enough route is
  refused so exactly when the header read was private and the grants read do not cover the hops and the
  destination read, and then the version has moved (`ConfigLaws.TornPushRefusedWhen`). If the version
  read first still holds at the last statement, the load is safe (`ConfigLaws.TornLoadIsSafe`).
- The size error of the bounded reader is not sticky, whatever the bound
  (`BoundedReader.SizeErrorThenEof`): it is reported once for each byte beyond the bound
  (`BoundedReader.ReadOn`).
- Walking CSV offsets reaches only `(MaxCSVOffset / limit + 1) * limit` rows
  (`CsvPaging.WalkCollectsEverything`).
- The CSV offset applies to every file and the limit to all together, so stepping the offset loses rows
  of later files: it collects everything exactly when all rows fit on one page or only one file has any
  (`CsvWalks.WalkLosesNothing`, with a lost row in `CsvWalks.RowIsLost`).
- A repeated accept or reject gets the first response only until its idempotency record expires; after
  that it is told that the transfer is already resolved (`Resolving.Resolver.ResolveAgain`).
- A search context contains its match only if the needle fits into it (`FoldSearch.ContextFindsAgain`).

## Model

| member | source | states |
|---|---|---|
| TransferSafety.StepKeeps | internal/httpapi/handlers_transfers.go:122-284 | every step of every handler keeps the whole invariant of rows, objects, locks and running handlers, and no resolved row changes its outcome |
| TransferSafety.SafeAt | db/schema.sql:205-232 | the invariant, with the table's shape check, holds in every state of every run |
| TransferSafety.OutcomeIsFinal | internal/store/transfers.go:117-151 | once a transfer has left pending, its status, resolution time and accepted asset never change; path, checksum, size and expiry never change at all |
| TransferSafety.LeavesPendingOnce | internal/store/transfers.go:117-176 | a transfer leaves pending in at most one step of a run |
| TransferSafety.OneAssetPerAccept | internal/httpapi/handlers_transfers.go:192-220 | the number of steps that create an asset from a transfer is 1 if it is accepted and 0 otherwise |
| TransferSafety.AcceptWasChecked | internal/httpapi/handlers_transfers.go:170-182 | behind every committed accept is the step that locked the row and checked the clock before `expires_at`, and the row was pending from there to the commit |
| TransferSafety.CommitCreatesAsset | internal/httpapi/handlers_transfers.go:200-218 | at the commit the new asset belongs to the destination Brain and carries the transfer's checksum and size, its object is already stored with that hash and size, and no other row changes |
| TransferSafety.AcceptAlwaysReads | internal/httpapi/handlers_transfers.go:187-199 | after the lock the read always finds the object, within the payload limit and with the recorded checksum: those error branches are dead |
| TransferSafety.PendingObjectExists | internal/httpapi/handlers_execution.go:289-303 | in every reachable state, whichever handlers stopped where, each pending transfer's object exists with its recorded hash and size |
| TransferSafety.AcceptedObjectExists | internal/httpapi/handlers_assets.go:255-282 | in every reachable state an asset at an accepted-transfers path has its object, of its checksum and size, in its own Brain, against concurrent overwrites and deletes |
| TransferSafety.KeysStayUnique | db/schema.sql:69-79 | in every reachable state two assets of one Brain have different keys and no two assets share a path, whatever accepts, uploads and overwrites ran |
| TransferSafety.AssetStepsAllowed | db/schema.sql:65-79 | an upload is possible exactly to an upload path that no other asset has, in the Brain the asset already has if any, under a key that no other asset of that Brain has; a Brain can go exactly when no accepted transfer names one of its assets and no locked row is addressed to it |
| TransferSafety.AssetDropAllowed | internal/httpapi/handlers_assets.go:255-282 | the delete of an asset that still exists goes through exactly when no transfer names it |
| TransferSafety.OverwriteCleansTheOldPath | internal/httpapi/handlers_assets.go:51-209 | an overwrite keeps the asset in its Brain and then deletes the path it left, never the one the asset has now |
| TransferSafety.AssetsStayInTheirBrain | db/schema.sql:65-79 | over a whole run an asset belongs to the same Brain for as long as it exists |
| TransferSafety.StopAnywhere | internal/httpapi/handlers_transfers.go:122-284 | a handler can stop between any two of its steps: its row lock is released and no row or object changes |
| TransferSafety.PushedIsAccepted | internal/httpapi/handlers_execution.go:289-303 | with a collision-free hash the accepted asset holds exactly the bytes that were pushed |
| TransferSafety.AcceptedOnTimeWhen | internal/httpapi/handlers_transfers.go:179-217 | behind every accepted row are a lock step that checked the clock before expiry and a commit whose second clock reading became the resolution time: resolution is before expiry exactly if that reading is |
| TransferSafety.CommitBehind | internal/httpapi/handlers_transfers.go:217-218 | every accepted row was made by a commit, at the clock reading of that commit |
| TransferSafety.ResolvedBy | internal/store/transfers.go:117-176 | behind every resolved row is the one step that resolved it, at its clock reading: a commit for an accepted row, a reject for a rejected one, and for an expired row always a sweep past its expiry |
| TransferSafety.LateResolution | internal/httpapi/handlers_transfers.go:179-217 | a reachable run in which the second reading comes after expiry |
| TransferSafety.DeletesThatKeepTheShape | db/schema.sql:219-231 | setting references to deleted assets to null keeps the shape check of every row exactly when no accepted transfer names one of them, and then changes nothing |
| TransferHandlers.CommittedWhen | internal/httpapi/handlers_transfers.go:170-219 | run alone, the accept steps go through exactly when the row is pending and unexpired, its Brain has no asset under the key, the object is there within the limit and with the checksum, and neither asset id nor target path is taken; and what they then leave behind |
| TransferHandlers.DeclinedWhen | internal/httpapi/handlers_transfers.go:260-275 | run alone, a reject's steps go through exactly for a pending row, expired or not, and what they leave behind |
| TransferHandlers.Desk.AcceptInTx | internal/httpapi/handlers_transfers.go:170-219 | succeeds exactly when the protocol's lock, read, copy and commit can be taken and nothing outside fails, with exactly their effect; failure leaves rows and assets alone and at most the copied object; the expired mark is undone; each domain error exactly when it is returned |
| TransferHandlers.Desk.AcceptTransfer | internal/httpapi/handlers_transfers.go:122-233 | succeeds exactly for the destination's owner when the protocol's steps can be taken and nothing outside fails; success is one complete protocol run including the clean-up and returns the asset it inserted; each domain error exactly when it is returned; a refused accept leaves everything as it was, a failed one the rows, the assets and at most the copied object |
| TransferHandlers.Desk.RejectTransfer | internal/httpapi/handlers_transfers.go:235-284 | succeeds exactly for the destination's owner and a pending row whose commit goes through; success is one complete protocol run including the clean-up; each domain error exactly when it is returned; otherwise neither row nor object changes |
| TransferHandlers.Desk.RejectInTx | internal/httpapi/handlers_transfers.go:260-270 | rejects exactly a pending row, expired or not, unless the commit fails; nothing else changes |
| TransferHandlers.Desk.VisibleTransfer | internal/httpapi/handlers_transfers.go:100-120 | unknown, invisible or visible to the owners of source and destination, with the destination's ownership |
| TransferRows.Table.MarkTransferAccepted | internal/store/transfers.go:117-128 | marks exactly a pending row and keeps the shape check |
| TransferRows.Table.MarkTransferTerminal | internal/store/transfers.go:138-151 | marks exactly a pending row and keeps the shape check |
| TransferRows.Table.ExpirePendingTransfers | internal/store/transfers.go:153-176 | expires exactly the overdue pending rows, returns them, and leaves none overdue |
| IdempotencyRuns.ClaimsAreExclusive | internal/store/transfers.go:200-222 | two claims of one key never overlap: the later one starts when the earlier has expired |
| IdempotencyRuns.OthersWait | internal/httpapi/handlers_execution.go:439-469 | until a claim expires nobody else passes it, every other caller finds the record, and a different body is refused |
| IdempotencyRuns.ExpiryGrows | internal/store/transfers.go:200-222 | over a run a key keeps its row id and its expiry never moves back |
| IdempotencyRuns.AnsweredBy | internal/store/transfers.go:224-236 | a stored response was written by a completion after the last claim of the key, so a claim nobody completed is never replayed |
| IdempotencyRuns.ReplayIsTheClaimants | internal/store/transfers.go:178-236 | a replay returns the response of one completion for the same body; it is the claimant's own exactly when the completing run still carries the record's expiry stamp, and always when it completes before its claim expires |
| IdempotencyRuns.LateCompletion | internal/store/transfers.go:205-228 | a run in which a late completion is replayed to the request that took the key over |
| IdempotencyRuns.RequestsCanEnd | internal/httpapi/handlers_execution.go:102-148 | a request can end at any time, with or without storing its response |
| IdempotencyRecords.Store.Create | internal/store/transfers.go:200-222 | inserts or takes over exactly a free or expired key, keeping the row id and clearing the response |
| IdempotencyRecords.Store.Get | internal/store/transfers.go:178-190 | the record of the key exactly while it has not expired |
| IdempotencyRecords.Store.Complete | internal/store/transfers.go:224-236 | stores the response in exactly the row of that id, if it has none yet |
| IdempotencyRecords.Store.Start | internal/httpapi/handlers_execution.go:439-469 | a claim, or the conflict or replay that the live record calls for, or the refusal of the insert |
| IdempotencyRecords.TurnedWhen | internal/httpapi/handlers_execution.go:439-469 | what a request that cannot claim is told, by the times and the record alone |
| Sending.Sender.SendQueryPath | internal/httpapi/handlers_execution.go:102-148 | refuses unknown, foreign and disabled paths; runs the route exactly when the key is claimed, with all that a run leaves in executions, hops, transfers and objects; a success leaves its pending transfer to the fixed Brain of the loaded path, and only a success stores its response; a request that does not claim gets the answer of the record and changes nothing |
| Sending.Sender.SendAgain | internal/httpapi/handlers_execution.go:102-148 | sent again before the claim expires, a request runs nothing, so that the tables stay as the one run left them: it gets the first response if that was stored, and a conflict otherwise |
| Sending.Sender.SendOverBoth | internal/httpapi/handlers_execution.go:130-130 | sends over two paths both run, also under one client key, when both keys are free |
| Sending.PathsTellApart | internal/httpapi/handlers_execution.go:130-130 | sends share a key only for the same user, path and client key |
| Sending.SentToTerminal | internal/httpapi/handlers_execution.go:281-303 | a delivered push goes to the fixed Brain of the loaded route |
| Resolving.Resolver.AcceptTransfer | internal/httpapi/handlers_transfers.go:122-233 | under a claimed key the accept is one complete protocol run, or fails with each domain error exactly when it applies, and only a success is stored, with its asset; without the claim the record answers and nothing changes |
| Resolving.Resolver.RejectTransfer | internal/httpapi/handlers_transfers.go:235-284 | the same for a reject, whose response carries no asset |
| Resolving.DecidedOnce | internal/httpapi/handlers_transfers.go:170-219 | a decision can only be taken on a pending row, leaves it resolved, and its clean-up always follows |
| Resolving.ResolvedRefuses | internal/httpapi/handlers_transfers.go:160-177 | a resolved transfer refuses every accept and reject with its own code, and nothing changes |
| Resolving.ScopesTellApart | internal/httpapi/handlers_transfers.go:142-142 | two requests share a key only if they ask for the same decision on the same transfer |
| Resolving.SendsTellApart | internal/httpapi/handlers_execution.go:130-130 | no send shares its key with an accept or a reject |
| Resolving.Resolver.ResolveAgain | internal/httpapi/handlers_transfers.go:122-284 | a second accept or reject of a transfer, under any key, moves nothing once the first went through; under the same key it runs nothing before the claim expires and gets the stored response with the same asset, and after the claim expired it gets TRANSFER_ALREADY_RESOLVED |
| ConfigLaws.EnabledPathsStayRunnable | db/schema.sql:350-432 | in every reachable state an enabled path has a route, at least one asset, all of its scope, existing hop Services and destination, and if private still grants its Services and its destination |
| ConfigLaws.PushIsAuthorized | internal/routes/policy.go:287-334 | in every reachable state a push by the source over an enabled path is never refused as PRINCIPAL_NOT_AUTHORIZED; it is accepted exactly with a fixed terminal within the hop limit |
| ConfigLaws.PullDecision | internal/routes/policy.go:287-334 | the exact decision on a pull by any Brain over an enabled path of a reachable state, in terms of the stored grants |
| ConfigLaws.PushDecision | internal/routes/policy.go:259-334 | for any configuration that keeps its promises, the exact decision on a push by its source |
| ConfigLaws.OneReplaceWins | internal/store/query_paths.go:70-107 | of any number of replaces of one version of a path at most one succeeds |
| ConfigLaws.PathHistory | internal/store/query_paths.go:70-107 | while a path exists its version only grows, and while the version stands still only grants and unneeded assets disappear |
| ConfigLaws.EnabledPathsEndByDelete | db/schema.sql:375-403 | over a run an enabled path disappears only by a delete of that path at its version, never with its Brain |
| ConfigLaws.RowsStayValid | db/schema.sql:86-109 | in every reachable state the paths of a Brain have different names, and every row has a version of at least 1, a known visibility and state, and a Brain |
| ConfigLaws.UploadsStayUploads | internal/httpapi/handlers_transfers.go:213-218 | an uploaded asset never becomes one that an accepted transfer names |
| ConfigLaws.TornLoadIsSafe | internal/store/query_paths.go:156-282 | a load spread over any states of a run is the last state's configuration with at most more grants, if the path is enabled and its version did not move |
| ConfigLaws.TornPushIsAuthorized | internal/httpapi/handlers_execution.go:204-207 | the push that follows such a load is not refused as PRINCIPAL_NOT_AUTHORIZED |
| ConfigLaws.PushRefusedWhen | internal/routes/policy.go:287-334 | whatever configuration was loaded, a push over a fixed route within the limit is PRINCIPAL_NOT_AUTHORIZED exactly when the path is private and its grants do not cover hops and destination; otherwise it is let through to that destination |
| ConfigLaws.TornPushRefusedWhen | internal/store/query_paths.go:156-282 | the same exact condition for a load whose six statements met any states of a run, and that the version must have moved |
| ConfigLaws.TornLoadRefused | internal/store/query_paths.go:156-282 | a reachable run in which a replace cuts a load in two and a push is refused that the configuration before and the one after both deliver |
| Agreement.ExecutionAsksThePolicy | internal/httpapi/handlers_execution.go:165-204 | the policy input an execution assembles from the Services, Brains and grants it looks up is the one the loaded configuration stands for |
| Agreement.PushExecutionIsAuthorized | internal/httpapi/handlers_execution.go:150-320 | no execution of a push by the source over an enabled path ends in PRINCIPAL_NOT_AUTHORIZED if its configuration was loaded in a reachable state, or piece by piece while the version stood still |
| EngineAgreement.EnabledOperationsRun | internal/routes/policy.go:109-124 | every operation of a valid, enabled path has an asset in scope that the query engine uses for it, whatever it contains, and every asset of the scope can be loaded for it |
| EngineAgreement.IncompatibleIsSkipped | internal/routes/policy.go:227-241 | an operation is reported as incompatible only if the engine would skip every scoped asset for it |
| EngineAgreement.IncompatibleWhenSkipped | internal/routes/policy.go:227-241 | over ready assets it is reported exactly then |
| ConfigRuns.ValidIsSafe | internal/routes/policy.go:161-193 | a configuration that validates against any truthfully read state gives a command that keeps the store's invariant whenever it is saved |
| ConfigRuns.StepKeeps | db/schema.sql:350-432 | every create, replace, delete and cascade keeps the invariant of the tables |
| ConfigRuns.AssetDropKeepsRows | db/schema.sql:350-373 | an asset delete that the trigger lets through leaves every enabled path runnable |
| ConfigRuns.BrainDropKeepsRows | db/schema.sql:375-403 | a Brain delete that the trigger and the references let through, with its cascade, leaves every enabled path runnable |
| ConfigRuns.ServiceDropKeepsRows | db/schema.sql:405-432 | a Service delete that the trigger and the references let through leaves every enabled path runnable |
| ConfigRoundTrip.ValidFits | internal/store/query_paths.go:109-154 | a valid command saved on the state it was validated against can fail for one reason only: its path is taken |
| ConfigRoundTrip.EmptyPatchSavesEqual | internal/httpapi/handlers_query_paths.go:138-194 | an empty patch on the current version stores an equal configuration as the next version whenever what is stored is still valid, in whatever order grants are listed |
| ConfigRoundTrip.LoadedBodyReadsBack | internal/httpapi/handlers_query_paths.go:350-389 | the body a patch starts from describes the stored row completely |
| ConfigStore.LoadAfterSave | internal/store/query_paths.go:109-154 | loading returns the saved assets and repeated hops in order and the grants as the same sets |
| ConfigStore.Store.CreateQueryPath | internal/store/query_paths.go:47-66 | saves everything as version 1 exactly when every row can be inserted, or changes nothing |
| ConfigStore.Store.ReplaceQueryPath | internal/store/query_paths.go:70-107 | saves everything as the next version exactly when the version matches and every row can be inserted, or changes nothing |
| ConfigStore.Store.InsertQueryPathRelations | internal/store/query_paths.go:109-154 | the indexed inserts succeed exactly when all references exist and no row repeats, and then hold the command's relations in order |
| ConfigStore.Store.LoadQueryPathConfig | internal/store/query_paths.go:156-282 | the stored row with the assets that still exist, in position order |
| ConfigStore.Store.DeleteQueryPath | internal/store/query_paths.go:328-340 | deletes exactly the path of that Brain at that version |
| ConfigStore.Store.DeleteAsset | db/schema.sql:350-373 | refused exactly while an enabled path has the asset in scope or an accepted transfer names it; otherwise the asset leaves every scope position it had, and nothing else changes |
| ConfigStore.Store.DeleteBrain | db/schema.sql:375-403 | refused exactly while the Brain has an enabled path, a route targets it (disabled routes of its own aside), or one of its assets is held; otherwise exactly its paths, its assets and the grants it was given go |
| ConfigStore.Store.DeleteService | db/schema.sql:405-432 | refused exactly while a route uses the Service; otherwise its grants go |
| PathLaws.QueryPathIsSegments | internal/domain/values.go:96-111 | the parser takes exactly the paths made of segments of letters, digits, _ and -, the first beginning with a letter or digit and not reserved |
| PathLaws.SchemaPathIsSegments | db/schema.sql:98-103 | the table's check takes exactly the paths made of such segments |
| PathLaws.FitsWhen | internal/store/query_paths.go:47-154 | what the tables take as a path's rows, by the rows alone |
| PathLaws.BrainIdWhen | internal/domain/values.go:30-35 | a Brain's canonical ID is its prefix and a slug of at most 63 letters, digits and inner hyphens |
| ConfigRequests.PrepareQueryPath | internal/httpapi/handlers_query_paths.go:280-348 | the fields are empty exactly for a valid configuration, and the command resolves the body's names in the listings that were read |
| ConfigRequests.BuildContext | internal/httpapi/handlers_query_paths.go:293-309 | what the validator is given: for each name the last listed record, and the requested assets that the Brain owns |
| ConfigRequests.MergeQueryPathPatch | internal/httpapi/handlers_query_paths.go:196-221 | a given field overwrites, a missing one stays, and the empty patch changes nothing |
| ConfigRequests.MergedFieldByField | internal/httpapi/handlers_query_paths.go:196-221 | for each of the eight fields: a given value overwrites it, a missing one keeps it |
| ConfigRequests.RequestedAssetsAreSeen | internal/httpapi/handlers_query_paths.go:293-309 | a requested asset is reported as missing exactly when it is not listed or belongs to another Brain, and never as one of the wrong Brain |
| ConfigRequests.RequestFromConfig | internal/httpapi/handlers_query_paths.go:350-389 | the body of a loaded configuration, or not-found exactly when its terminal or a hop cannot be looked up |
| ConfigHandlers.CreateQueryPath | internal/httpapi/handlers_query_paths.go:82-117 | saves exactly a valid configuration that the tables can take, as one create step with a safe command; field errors exactly for an invalid one; otherwise nothing changes |
| ConfigHandlers.PatchQueryPath | internal/httpapi/handlers_query_paths.go:138-194 | saves exactly a merged configuration that is valid and that the tables can take at the named version, as one replace step with a safe command; each error exactly when it is returned; otherwise nothing changes |
| ConfigHandlers.EmptyPatchReadsBack | internal/httpapi/handlers_query_paths.go:138-194 | with complete lookups a patch starts from the description of the stored row, and an empty one ends in it |
| Validation.ValidateConfiguration | internal/routes/policy.go:59-193 | lists exactly the errors that apply, in validation order, and none exactly when the configuration is valid |
| Validation.NothingReported | internal/routes/policy.go:59-193 | no error applies exactly when the declarative validity predicate holds |
| ValidityLaws.ValidWhen | internal/routes/policy.go:59-193 | validity spelled out by the fields of configuration and context alone |
| Validation.OrderIsStable | internal/routes/policy.go:161-172 | apart from missing-Service errors, which come from a map, the error list is determined |
| Validation.CheckAssets | internal/routes/policy.go:59-193 | the asset errors: none given, repeated, unknown, or of another Brain, at their index |
| Validation.CheckOperations | internal/routes/policy.go:59-193 | the operation errors: none given, repeated, unknown, or compatible with no asset, at their index |
| Validation.CheckRoute | internal/routes/policy.go:59-193 | the route errors: too many or unknown hops, an invalid terminal, and for an enabled private path missing Service and destination grants |
| Validation.CheckAssetStates | internal/routes/policy.go:59-193 | the errors of assets an enabled path could not read |
| Validation.ValidateBrainGrants | internal/routes/policy.go:195-209 | duplicate and unknown Brains at their index; the set of named grants |
| Validation.ValidateServiceGrants | internal/routes/policy.go:211-225 | duplicate and unknown Services at their index; the set of named grants |
| Authorization.Authorize | internal/routes/policy.go:287-334 | the decision from the hop limit, the terminal and the sets of grants and hops |
| Authorization.TooLongWhen | internal/routes/policy.go:295-300 | a configured hop limit from 1 to 20 is the bound, and 20 otherwise |
| Authorization.DependsOnSets | internal/routes/policy.go:304-333 | within the hop limit order and repetition of grants and hops do not matter |
| Authorization.MoreGrants | internal/routes/policy.go:304-333 | more grants never turn success into failure and change nothing but PRINCIPAL_NOT_AUTHORIZED |
| Authorization.AcceptedIsRunnable | internal/routes/policy.go:259-334 | an accepted, enabled configuration lets run exactly the source's push to its fixed terminal and the permitted pulls, and returns that destination |
| Hops.ExecuteHops | internal/routes/service.go:43-107 | for any executor: one row per Service occurrence up to the first unfaithful hop, nothing called after it, and the last output or the failure code |
| Hops.DeliveredIsInput | internal/routes/service.go:43-107 | with a collision-free hash, whatever the executors do, the delivered bytes are the input and every row is completed with its checksum |
| Hops.DeliveredKeepsEnvelope | internal/routes/service.go:43-107 | a delivered payload has the sealed envelope of the input, and with a collision-free seal the envelope itself |
| Hops.OnlyLastRowFails | internal/routes/service.go:73-101 | rows are completed except possibly the last, which fails exactly when the traversal stopped there |
| Hops.IdentityStops | internal/routes/service.go:19-28 | with the identity executor a traversal completes exactly when the metadata can be sealed and the context lasts, both where the loop asks for it and where the executor does |
| Hops.IdentityRows | internal/routes/service.go:19-101 | its rows are completed with the payload's checksum on both sides, except that a context that ends within a hop fails that hop with no output, and it is the last |
| AssetLoading.LoadAssets | internal/httpapi/handlers_execution.go:223-251 | succeeds exactly when the scope is readable, matches its checksums and fits the budget; loads it whole and in order; the only error is ASSET_UNAVAILABLE, the other branches are dead |
| Execution.ResolveRoute | internal/httpapi/handlers_execution.go:150-189 | the refusals before an execution exists, in their order, or the Services of every hop and the destination |
| Execution.PushStepsResult | internal/httpapi/handlers_execution.go:289-303 | what the protocol's steps of one push come to in each case of a failing Put, insert or clean-up |
| Execution.Api.ReadScope | internal/httpapi/handlers_execution.go:221-266 | loads and queries the scope; a failure ends the execution with the returned code |
| Execution.Api.Traverse | internal/httpapi/handlers_execution.go:267-281 | records the rows of the traversal whether it completes or not: one completed hop row per Service when the payload passes; otherwise the execution fails with SERVICE_HOP_FAILED |
| Execution.TracedRows | internal/httpapi/handlers_execution.go:267-281 | the hops recorded by an execution, also a failed one, are completed with the payload's checksum on both sides, except for a last one at which the context ended |
| Execution.Api.ExecuteRoute | internal/httpapi/handlers_execution.go:150-320 | an inserted execution ends, after a legal and timed lifecycle, delivered or failed with the returned result or code; its hops are those of its traversal; a delivery has one completed hop row per Service with the result's checksum on both sides; a push is delivered exactly when its one transfer exists, carrying the result's checksum and size over a stored object; objects change as in the protocol's steps of that push; nothing else changes, and nothing at all when no execution is inserted |
| Deliveries.DeliveredWhen | internal/httpapi/handlers_execution.go:150-320 | an execution is delivered exactly when, by the run alone, every check, every asset, the query, every Service and the stored transfer go through; its result is the payload's media type, size, filename and checksum |
| Deliveries.FailsWith | internal/httpapi/handlers_execution.go:150-320 | with which code every other execution ends: that of the first stage that fails |
| Deliveries.PushedTransfer | internal/httpapi/handlers_execution.go:281-303 | the transfer of a delivered push: pending, to the fixed Brain of the route, of the payload's size and checksum, under the path of its id and that checksum, with its expiry |
| Deliveries.AdmittedWhen | internal/httpapi/handlers_execution.go:150-189 | the refusals before an execution exists, by the run alone: readiness of every hop Service included |
| Execution.EndedLifecycle | internal/store/executions.go:150-174 | an ended execution went through one of the four legal state sequences |
| Execution.EndedRow | internal/store/executions.go:150-174 | a delivered row has result, start and completion times and no code; a failed one a code, its completion time and no result |
| Execution.Api.TransitionExecution | internal/store/executions.go:150-174 | every legal transition keeps the row well-shaped and timed: completion time exactly in final states, error code exactly in failed, result exactly in delivered, the start time kept when none is given |
| Execution.Api.FailExecution | internal/httpapi/handlers_execution.go:348-353 | ends the execution as failed with the code it returns, keeping its start time |
| Execution.Api.CreateTransfer | internal/httpapi/handlers_execution.go:289-303 | rows and objects change exactly as in the protocol's steps of one push: object, row, clean-up, also where a failed Put left its object; a failure fails the execution with its code |
| TextSearch.Search | internal/query/service.go:161-207 | the first MaxTextMatches of all matches in asset-then-line order, truncated exactly when there are more, every incompatible asset skipped in order; each match reports a line of a searched asset under its id, filename and number, with one window of the line that covers the leftmost occurrence and in which the needle is found again exactly when it fits |
| TextSearch.SearchLines | internal/query/service.go:179-195 | the inner loop stops at the first match past the cap and loses nothing before it |
| TextSearch.MatchIsAtItsRank | internal/query/service.go:179-195 | each line that contains the needle is found once, at its rank among the matching lines |
| TextSearch.MatchesAreCounted | internal/query/service.go:179-195 | there are as many matches as lines that contain the needle |
| TextSearch.MatchIsReal | internal/query/service.go:170-195 | every match is one line of one searched asset, at the place that the matching lines before it give it |
| TextSearch.LineIsFound | internal/query/service.go:170-195 | every line of a searched asset with the needle in it is reported at its place |
| TextSearch.LineMatchesWhen | internal/query/service.go:178-182 | a line matches exactly when the folded needle occurs in it, a final carriage return aside |
| TextSearch.SplitJoin | internal/query/service.go:177-177 | the newline-free lines rejoin to the text |
| FoldSearch.FindFoldRunes | internal/query/service.go:227-237 | the leftmost occurrence up to case folding, found exactly when there is one and the needle is not empty |
| FoldSearch.FoundWhereItOccurs | internal/query/service.go:227-237 | what is found is the leftmost place where the folded needle is a stretch of the folded haystack |
| FoldSearch.ContextCoversMatch | internal/query/service.go:209-225 | the context is one window of min(length, max) runes that covers the match when it fits and its front otherwise |
| FoldSearch.ContextIsCentred | internal/query/service.go:209-225 | the match is in the middle of its window as far as the ends of the line allow |
| FoldSearch.ContextFindsAgain | internal/query/service.go:209-237 | searching a match's context finds the needle again exactly when the needle fits |
| CsvQuery.QueryCsvAsset | internal/query/service.go:308-421 | the two streaming passes equal the simple form: the projected window of the filtered rows, the filtered count, and has_more exactly when it exceeds the window |
| CsvMeaning.PageIsAnswer | internal/query/service.go:384-420 | the rows returned are, in file order, those that meet every filter by the cells alone (numbers by value in a column of numbers, other text in dictionary order, contains up to case), from the offset up to the limit and cut to the chosen columns |
| CsvMeaning.AcceptableWhen | internal/query/service.go:309-382 | a file and a request are accepted exactly when the file parses with distinct, non-empty header cells and the request uses its columns and the seven operators |
| CsvMeaning.FileByFile | internal/query/service.go:270-287 | each ready CSV asset is answered in turn under the limit the earlier ones leave, and every other asset is skipped |
| CsvQuery.ParseHeader | internal/query/service.go:309-323 | accepts exactly non-empty, unique headers and locates each of them |
| CsvQuery.ResolveSelect | internal/query/service.go:358-374 | accepts exactly known, distinct columns and gives their positions in order |
| CsvQuery.CheckFilters | internal/query/service.go:375-382 | accepts exactly filters on known columns with known operators |
| CsvQuery.CollectRows | internal/query/service.go:384-415 | the second pass: the projected window of the kept rows and their full count |
| CsvCells.InferColumns | internal/query/service.go:334-356 | the flags streamed over all columns at once equal the per-column scan |
| CsvCells.InferNumeric | internal/query/service.go:423-436 | a column is numeric exactly when it has a non-empty cell and all of them parse |
| CsvCells.LexCompareIsAnOrder | internal/query/service.go:454-454 | the text comparison is antisymmetric and 0 exactly on equal cells |
| CsvCells.LexCompareTransitive | internal/query/service.go:454-454 | the text comparison is transitive |
| CsvCells.LexCompareIsDictionaryOrder | internal/query/service.go:455-455 | negative exactly for a proper front, or the smaller character at the first difference |
| CsvCells.NumbersAreComparedByValue | internal/query/service.go:456-486 | in a numeric column each of the six comparing operators keeps a cell exactly when the parsed numbers stand in that relation |
| CsvCells.TextIsComparedByOrder | internal/query/service.go:455-486 | in every other case they compare in dictionary order |
| CsvCells.ContainsFindsFolded | internal/query/service.go:447-454 | contains keeps exactly the cells in which the folded value occurs |
| FilterLaws.Trichotomy | internal/query/service.go:447-486 | in every table, column and value the rows of <, = and > partition the table and their counts sum to the row count |
| FilterLaws.Complements | internal/query/service.go:447-486 | >= is the complement of <, <= of >, and != of = |
| FilterLaws.AddingFilters | internal/query/service.go:397-414 | adding filters filters what was already kept, in the same order |
| FilterLaws.FilteredIsSubsequence | internal/query/service.go:397-414 | the kept rows are the file's rows at exactly the positions all filters keep |
| FilterLaws.EverythingKept | internal/query/service.go:397-414 | without filters every row is kept |
| CsvPaging.QueryFiles | internal/query/service.go:255-301 | each queryable file in turn under the budget the earlier ones left, the rest skipped, and exactly when the request is refused |
| CsvPaging.BudgetIsExact | internal/query/service.go:270-287 | over all files the rows returned are the smaller of the limit and the rows past the offset |
| CsvPaging.SingleFile | internal/query/service.go:270-287 | with one file the whole budget goes to it, whatever the offset |
| CsvPaging.WalkCollectsEverything | internal/query/service.go:255-301 | for one file, stepping the offset by the limit until has_more is false collects all rows without gap or repeat exactly when their number is within the offset bound's reach |
| CsvWalks.PageIsParts | internal/query/service.go:270-287 | each page holds, file by file, the window at the offset under what the earlier files leave of the limit, and the has_more of each |
| CsvWalks.WalkCollectsRoomy | internal/query/service.go:255-301 | over several files a walk collects, of each file in order and once each, exactly the rows whose place on their page is not taken by rows of earlier files |
| CsvWalks.WalkLosesNothing | internal/query/service.go:255-301 | a walk that ends collects every row of every file exactly when all of them fit on one page or only one file has any |
| CsvWalks.WalkEndsWhen | internal/query/service.go:256-258 | the walk ends without the offset error exactly when some page within the offset bound has no more rows past its offset than the limit |
| CsvWalks.RowIsLost | internal/query/service.go:270-287 | two files of one row each, walked one row at a time: every file reports no more and one row was never returned |
| BoundedReader.Reader.Read | internal/storage/client.go:254-269 | hands over as many bytes as buffer, bound and body allow; what was delivered is the front of the object, the bound is counted down by it, and the size error appears exactly when a byte follows the bound |
| BoundedReader.ReadAll | internal/storage/client.go:249-269 | for any buffers and short reads: the front of the object that the reads bring, at most the bound, with end of file exactly within the bound and the size error exactly beyond it |
| BoundedReader.ReadsProgress | internal/storage/client.go:265-268 | each read that asks for and is given something delivers at least one byte until min(n, max) are there |
| BoundedReader.ReadsToTheEnd | internal/storage/client.go:249-269 | enough such reads deliver exactly the first min(n, max) bytes, and one more ends in the size error if n is greater than max and in the end of file otherwise |
| BoundedReader.ReadOn | internal/storage/client.go:254-263 | after the bound the size error is reported exactly once for each byte that is left |
| BoundedReader.SizeErrorThenEof | internal/storage/client.go:254-263 | behind every positive bound an object one byte larger is first too large and then at its end |
| Utf8.CutIsNearBoundary | internal/assets/files.go:80-125 | valid UTF-8 cut anywhere has a valid prefix at most three bytes shorter |
| Utf8Laws.ValidWhen | internal/assets/files.go:48-51 | text is valid exactly when it is the concatenated encoding of Unicode scalar values |
| Preview.TruncateText | internal/assets/files.go:80-125 | the longest valid prefix within the bound, at most three bytes short of it for valid text |
| Preview.Classify | internal/assets/files.go:36-78 | format, state and media type of an upload from its file name, the media type the client names and its bytes: parse_failed exactly for a .csv that does not parse, text and markdown exactly for valid UTF-8 of that extension, and the server's guess exactly where the client names nothing specific |
| Preview.NamedWithoutParameters | internal/assets/files.go:36-44 | the parameters of a media type the client names never matter |
| Preview.TrimmedIsInside | internal/assets/files.go:36-44 | only white space is trimmed from it, and only at its ends |
| Preview.NeutralizeRow | internal/assets/files.go:80-125 | cells a spreadsheet would evaluate are quoted, all others are unchanged |
| Preview.BuildCsvPreview | internal/assets/files.go:80-125 | the first rows with formula cells neutralised, truncated exactly when more exist, and exactly when it fails |
| Preview.PreviewIsSafe | internal/assets/files.go:111-118 | no data cell of a preview begins with a character a spreadsheet evaluates, and each is the file's cell or that cell quoted |
| Preview.ClassifyThenPreview | internal/assets/files.go:36-125 | a CSV that is classified as ready never fails to preview |

## Left out

- HTTP routing, middleware, JSON decoding and encoding, cookies, configuration, audit rows, chat, the network view, canvas and app connections: no deep property.
- Error message texts, timestamps of rows other than those named, and the code a refused SQL statement is reported under.
- SHA-256, JSON marshalling, rune folding, decimal parsing and the CSV reader: parameters of the model; a CSV file is its equal-width records followed by the end or an error.
- Row locks, isolation and constraint checking inside PostgreSQL: a statement or transaction is one atomic step, a sweep waits for rows locked by accepts, and the clock is one monotone clock.
- Strings are compared by code point; for valid UTF-8 that is the byte order the program uses.
- `raw_read` results, media types and file names of results, hop durations and the audit of hops: copied values.
- Executors that mutate the payload slice they were given: the executor is modelled by the payload it returns.
- Object sizes of uploads and the state of assets after they were saved in a path: an enabled path may later find an asset unreadable, which fails the execution.
- User accounts and their deletion.
- Execution.Api.ExecuteRoute: assumes that row updates of an execution it has inserted succeed, whose errors the program ignores; the query is a parameter behind its scope and size checks, and TextSearch and CsvPaging model what it computes.
- TransferHandlers.Desk.AcceptInTx: a destination Brain that vanished before the lock makes the program panic and roll back; the model returns an error in that place.
- ConfigRequests.PrepareQueryPath: listings are given whole; the listing of existing paths may be cut at the page size, so only the unique constraint of the table guards the path name.
- ConfigStore.Store.ReplaceQueryPath: which of several refusing statements fails first is not distinguished.
- ConfigStore.Store.DeleteBrain: lets a Brain go whose own path, not enabled, routes to itself; whether the restricted reference refuses that depends on the order of the cascade.
- ConfigLaws.TornLoadIsSafe: the unchanged version is sufficient; it is not necessary, since a replace can move the version and save the same policy. TornPushRefusedWhen has the exact condition.
- Preview.Classify: the library's content sniffing, extension table, lower-casing and white space are functions it is given.
