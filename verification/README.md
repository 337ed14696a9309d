# Consistency of the SCIM migration proxy: a Dafny model

The proxy sits between an identity provider and two directories that share no transaction, the
customer's native app and WorkOS, and moves the customer from one to the other. What keeps the two
consistent is a handful of tables (`id_mappings`, `workos_primary_create_claims`,
`native_write_failures`, `listener_versions`, the poller's cursor) and code that branches on every
answer an upstream may give, including none. This project models that code and proves what it
keeps. `dafny verify dfyconfig.toml` checks all of it.

## The files

| file | subject |
|---|---|
| `Common.dfy` | ids, mappings, and what an HTTP answer does and does not prove |
| `PrimaryProtocol.dfy`, `PrimarySafety.dfy` | `workos-primary` creates, replaces, deletes and reconciles of one (directory, kind), interleaved step by step: every upstream call and every SQL statement is a step, answers may be lost, unanswered writes may land late |
| `PrimaryCreate.dfy` | one create: both legs, compensation, when the claim is released |
| `PrimaryWrite.dfy` | one addressed write: both legs, the divergence ledger, the prune of a DELETE |
| `PrimaryLedger.dfy`, `PrimaryOverlap.dfy` | addressed writes that overlap, answer by answer and statement by statement; what the ledger then says about a key |
| `ScimJson.dfy`, `MirrorUpsert.dfy`, `MirrorSafety.dfy` | the mirror dance (PUT, POST, PUT, lookup, PUT) with its alias guard, against a server with the post-create or the id-minting contract |
| `IdMaps.dfy` | the checked two-way id maps and the translation through them |
| `Backfill.dfy` | the batched backfill against writing each mapping at once |
| `Snapshot.dfy` | paging a SCIM list, section 3.4.2.4 of RFC 7644 |
| `Reconcile.dfy` | replaying WorkOS into native: attribution, mappings, claims |
| `SweepLedger.dfy` | sweep stamps on divergence rows, and the reconcile lease |
| `Listener.dfy`, `ListenerLedger.dfy`, `ListenerConvergence.dfy` | Directory Sync events: the handlers, the last-writer-wins ledger, convergence of every delivery order |
| `EventsPoller.dfy` | the ordered transport: cursor, retries, abandonment |
| `StatusClient.dfy` | the status endpoint, its cache, and the cutover |
| `Namespaces.dfy` | one directory per native namespace, kept by the panel's gates |
| `Placeholders.dfy` | `?` to `$k` in SQL text |

Code that updates state in place is a class whose methods are proved equal to a specification
function of the old state; the results are lemmas about those functions. In `PrimaryProtocol` the
requests are phase machines, and `ProtocolDecidesAlike` and `ProtocolEndsDeletesAlike` tie its
decisions to those of the methods.

## Assumptions

- One SQL statement is atomic. It takes effect and is acknowledged, takes effect without the
  acknowledgement, or does not take effect; none takes effect later.
- A 4xx other than 408 means the upstream did not apply the call; a 409 to a POST means a row is in
  the way. A 2xx to a PUT means the row was there. A 200, 204 or 404 to a DELETE means the row is
  absent (on the native side the 404 counts only for a path that spells the id byte for byte). An
  upstream write without a settling answer may land at any later step.
- Ids the server mints are new. Where a result needs the id spaces to be separate (no native id is
  the WorkOS id of another's mapping), the lemma says so and another lemma says what fails without.
- Deliveries to the listener do not overlap: the newest check, the handler and the recording of the marks,
  which awaits separate, are one step. Nor do panel actions: a check and the insert after it are one step.
- Form fields of the panel arrive trimmed; tokens and the canonical form of a URL are opaque.

## What the proofs found

Each names the lemmas that show it and, where the code can be right, the exact condition under which it is.

- **The ledger can say the opposite of what happened.** PUT and PATCH take no claim, so the answers and
  the ledger statements of two requests on one key interleave. A clear that comes late deletes the row of
  a newer divergence (`LateClearHidesADivergence`); an INSERT that comes late leaves a row although native
  is current (`LateInsertStandsForNothing`). `RowTellsTheTruth` gives the exact condition over every
  interleaving, `InOrderTellsTheTruth` the discipline that ensures it. Two PUTs that reach the sides in
  opposite orders and are both answered 2xx leave the sides different with nothing on record, and no
  ledger fed by answers could know (`OppositeOrdersGoUnseen`).
- **A divergence can go unrecorded.** The ledger's INSERT comes after both legs and may throw
  (`workers/proxy/index.ts:1391-1401`). Then WorkOS has a write native does not, and nothing says so:
  `LostInsertLeavesNoTrace`. `AcceptedIsOnRecord` gives the condition for one request,
  `LedgerTellsTheTruth` for requests that do not overlap.
- **The replay takes redirects for refusals.** Redirects are not followed
  (`workers/shared/scim.ts:335-348`), so a 3xx answer to a native write reaches
  `workers/shared/backfill.ts:655-663`, which counts it as refused, though a create would keep its claim on
  it. `RedirectIsClosedButNotSettled` and `RedirectLetsGo` show a reconcile that lets its claims go with such
  a write open; `RunReconcileFromWorkos` proves that, once claims are released, every write is settled
  if and only if none was answered like that.
- **A mapped recovery takes an id unasked.** When the mapped row is gone and its replacement goes to
  the native id itself, nobody asks whether another mapping owns that id
  (`workers/shared/scim.ts:927-931`, and the POST before it). `RecoveryTakesAnothersId` does it,
  `NeverTakesAnothersRow` shows there is no other way, and `RerunChangesNothing` that the next run throws.
- **A cut-off recovery can lose its minted row.** On an id-minting server, a native id that was mapped
  elsewhere and that also names an unrelated row is not found again after a crash between POST and
  mapping: `MintedRowIsLost`. `CutOffRunConverges` shows this is the only case that does not converge.
- **Queueing differs from writing at once when ids overlap.** A stored mapping that the run has already
  superseded still refuses its old WorkOS id to a native id of that name until the queue is flushed:
  `SpelledIdDiverges`. `StepsTogether` shows that an item is treated differently in this one case only; with
  separate ids, batched and immediate backfill agree.
- **The compensation of a refused create trusts every 2xx.** The delete path treats a 202 as
  incomplete; the compensating DELETE of a create does not (`workers/proxy/index.ts:1095`):
  `AcceptedCompensationLeavesARow`. `CompensationNeedsProof` gives the exact set of answers that make it sound.
- **A create can rebind a mapped native id.** If native's 409 resolves to a row that is mapped already,
  the upsert moves the mapping and the old WorkOS row is left unmapped: `CreateRebindingOrphans` does it to
  a row a recovery has just made.
  `OnlyRebindingUnlinks` shows nothing else unlinks a recovered row.
- **Leftover sweep stamps are permanent.** A row stamped by a reconcile that did not clear it is skipped
  by every later reconcile until live traffic touches its key: `LeftoverStampsOutliveReconciles`.
- **One clock tick at cutover.** A cached "stay inert" whose request began in the millisecond of the
  event's arrival passes for confirmed: `LostWithinOneTick`. `IgnoredExactlyWhen` shows that, with the
  endpoint answering, nothing else is lost.

## Model

| member | source | states |
|---|---|---|
| PrimarySafety.StepKeeps | workers/proxy/index.ts:487-565 | every step of every request, each call and statement with any allowed outcome, keeps the invariant behind the results below |
| PrimarySafety.ClaimExcludes | workers/shared/db.ts:467-503 | on every run, lost acknowledgements included, at most one request is past the claim, and its token is the one stored |
| PrimarySafety.MappingsChangeUnderTheClaim | workers/proxy/index.ts:771-779 | on every run, rows of `id_mappings` change only in a statement of the request whose token is in the claim table |
| PrimarySafety.RecoveryPostsOnACurrentMapping | workers/shared/scim.ts:797-852 | a recovery POST runs under the claim while its native id is still mapped to the id whose PUT answered 404 earlier in the run |
| PrimarySafety.NoOrphanReplacement | workers/shared/scim.ts:718-746 | a row made by recovery is linked to its native id, unless its maker still holds the claim or a create rebound that id |
| PrimarySafety.DeleteLeavesNoReplacement | workers/proxy/index.ts:771-779 | once a delete has removed a mapping and the claim is free, no recovered row of that id is left in WorkOS, unless a create wrote another id over that very row's link |
| PrimarySafety.LateDeleteKeepsItsClaim | workers/proxy/index.ts:680-691 | a DELETE that may still land excludes every other request |
| PrimarySafety.ReleaseIsSettled | workers/shared/scim.ts:836-851 | a claim is given up only with no create or delete of its owner still able to land, save a compensating DELETE |
| PrimarySafety.RetainedClaimFreezesMappings | workers/proxy/index.ts:879-921 | a claim retained for recovery is never lost or taken, and no mapping of the kind changes meanwhile |
| PrimarySafety.OnlyRebindingUnlinks | workers/proxy/index.ts:1155-1167 | a recovered row that is still there loses its link if and only if a create writes another WorkOS id over its native id |
| PrimarySafety.CreateRebindingOrphans | workers/proxy/index.ts:1155-1167 | a run in which a recovery makes and links a row and a create then leaves that row with no mapping and no claim |
| PrimaryCreate.LegTellsWhatItPosted | workers/shared/scim.ts:869-1015 | a WorkOS leg that ends refused wrote nothing; one that ends well and posted is mapped to the row it posted |
| PrimaryCreate.CreateClaimed | workers/proxy/index.ts:928-1187 | for every combination of outcomes: released exactly when both sides refused, the fresh row was compensated, or the mapping links both; otherwise 502 or rethrown |
| PrimaryCreate.ReleaseIsAccounted | workers/proxy/index.ts:1064-1100 | after a release neither side holds anything of this request, or one persisted mapping links what they hold; the one exception is stated both ways |
| PrimaryCreate.CompensationNeedsProof | workers/proxy/index.ts:1082-1105 | the compensation is sound for every honest endpoint if and only if its DELETE was answered 200, 204 or 404 |
| PrimaryCreate.AcceptedCompensationLeavesARow | workers/proxy/index.ts:1082-1105 | a minted create, refused by native, whose compensating DELETE is answered 202: claim released, row left, no mapping |
| PrimaryCreate.ProtocolDecidesAlike | workers/proxy/index.ts:1064-1187 | the interleaving model releases, compensates and maps exactly when this code does |
| PrimaryWrite.PrimaryDirectory.WorkosPrimaryWrite | workers/proxy/index.ts:582-800 | mapping table, ledger and retained claim after one addressed write, or none touched if a group member is unmapped; a 2xx only if both sides settled |
| PrimaryWrite.PrimaryDirectory.RecordNativeWriteFailure | workers/shared/db.ts:670-694 | the row a divergence leaves: latest verb and status, attempts counted |
| PrimaryWrite.PruneNeedsBothAbsent | workers/proxy/index.ts:771-779 | a DELETE removes its mapping only when the resource is absent on both sides |
| PrimaryWrite.AcceptedIsOnRecord | workers/proxy/index.ts:680-752 | accepted by WorkOS and not by native: an incomplete delete answer keeps mapping and claim and changes nothing else; any other divergence leaves a row or a claim if and only if the INSERT took effect, one stood before, or it is a DELETE |
| PrimaryWrite.LostInsertLeavesNoTrace | workers/proxy/index.ts:1391-1401 | a PUT that WorkOS took and native did not, whose INSERT threw: no row, no claim |
| PrimaryWrite.LedgerTellsTheTruth | workers/proxy/index.ts:1378-1401 | on every run of requests that do not overlap: a key has a row exactly if native is behind on it, if and only if the ledger statement of its last divergence or settlement was not lost |
| PrimaryWrite.BehindSinceWhen | workers/proxy/index.ts:771-800 | without overlap, native is behind on a key exactly if some request of the key diverged (or a row stood at the start) and none since settled it, by the answers of the two legs alone |
| PrimaryWrite.NoneLost | workers/proxy/index.ts:1378-1401 | no ledger statement is lost on a run on which all of them took effect |
| PrimaryWrite.ProtocolEndsDeletesAlike | workers/proxy/index.ts:771-821 | the interleaving model ends a DELETE as this code does |
| PrimaryLedger.RowIsLastWritten | workers/proxy/index.ts:648-771 | on every interleaving of requests, a key has a row exactly if its last ledger statement that took effect was an INSERT (or none did and it had one) |
| PrimaryLedger.RowTellsTheTruth | workers/proxy/index.ts:648-771 | on every interleaving, the row says what the answers say about the key, if and only if the last statement that took effect and the last decision (second answer in) leave the key alike |
| PrimaryLedger.InOrderTellsTheTruth | workers/proxy/index.ts:648-771 | so it does whenever the key's statements all take effect in the order of its decisions |
| PrimaryLedger.ApartIsAtomic | workers/proxy/index.ts:488-565 | requests that do not overlap leave the mappings, ledger and claim of serving each as a whole, whatever lands late |
| PrimaryLedger.ApartTellsTheTruth | workers/proxy/index.ts:1378-1401 | the result for requests that do not overlap, as a case of the interleaving |
| PrimaryLedger.RowAgainstTheSides | workers/proxy/index.ts:697-752 | against what the sides hold: for a settling or refusing native answer the row is right if and only if the last statement agrees with that answer of the write WorkOS holds; a write whose own statement came last is on record if native misses it |
| PrimaryOverlap.LateClearHidesADivergence | workers/proxy/index.ts:771 | two PUTs: WorkOS ends with one, native with the other, the answers say behind, and no row stands though both statements took effect |
| PrimaryOverlap.LateInsertStandsForNothing | workers/proxy/index.ts:1391-1401 | two PUTs: both sides end with the same one and a row stands |
| PrimaryOverlap.OppositeOrdersGoUnseen | workers/proxy/index.ts:648-670 | two PUTs answered 2xx by both sides: the sides end different and no row stands |
| ScimJson.StripsExactlyTheNulls | workers/shared/scim.ts:63-71 | stripping leaves no null field at any depth and changes exactly the values that had one |
| MirrorUpsert.Mirror.Put | workers/native/scim-server.ts:210-258 | the server's PUT: each refusal in its order, in-place replacement otherwise |
| MirrorUpsert.Mirror.Post | workers/native/scim-server.ts:154-199 | the server's POST under both contracts |
| MirrorUpsert.Mirror.ClaimedByAnother | workers/shared/scim.ts:1027-1048 | refuses exactly an id with two stored owners or with another stored or queued owner |
| MirrorUpsert.Mirror.MirrorUpsert | workers/shared/scim.ts:670-794 | rows, mappings, queue and outcome are those of the plan: which one row is written and mapped, or which refusal |
| MirrorUpsert.Mirror.CreateViaPost | workers/shared/scim.ts:869-905 | the 404 leg: create, or resolve what is in the way |
| MirrorUpsert.Mirror.ResolveCreateRace | workers/shared/scim.ts:917-1015 | the 409 leg: the winner under the native id, or the holder of the name |
| MirrorSafety.OkIsStoredWhereMapped | workers/shared/scim.ts:670-794 | ok leaves the null-stripped resource under exactly the id the mapping names; no other row or mapping is touched, at most one row is added |
| MirrorSafety.RerunChangesNothing | workers/shared/scim.ts:698-746 | repeating an ok run whose mapping is stored changes nothing, unless it took its row unasked, when the next run throws |
| MirrorSafety.CutOffRunConverges | workers/shared/scim.ts:869-1015 | repeating a run cut off between WorkOS write and mapping finds the same row and maps it, with one exception, stated both ways |
| MirrorSafety.MintedRowIsLost | workers/shared/scim.ts:869-905 | the input of that exception: the cut-off run's successor ends 409 and changes nothing |
| MirrorSafety.NeverTakesAnothersRow | workers/shared/scim.ts:967-1003 | a run writes a row another native id owns, and breaks one-owner-each of stored and queued rows, if and only if it takes the native id unasked in mapped recovery; migrated-id means equal ids in any case |
| MirrorSafety.RecoveryTakesAnothersId | workers/shared/scim.ts:927-931 | the input of that case: the run succeeds and leaves the id with two owners |
| MirrorSafety.NamesStayUnique | workers/native/scim-server.ts:154-258 | no run makes two rows share a name |
| MirrorSafety.RunsStaySound | workers/shared/scim.ts:698-782 | with separate id spaces, every run of mirrors keeps one owner per WorkOS id and honest strategies |
| IdMaps.LoadIdMaps | workers/shared/scim.ts:428-462 | for rows in any order: every lookup answers what the set of rows says, contested ids rejected in both directions |
| IdMaps.OneAnswerEach | workers/shared/scim.ts:378-425 | the answer is determined by the set of rows alone |
| IdMaps.MutualInverses | workers/shared/scim.ts:428-462 | on uncontested ids the two directions are mutual inverses |
| IdMaps.IdRoundTrip | workers/shared/scim.ts:464-466 | an id comes back from WorkOS space unchanged if and only if it is mapped undisputed both ways, or unmapped and no WorkOS id's spelling |
| IdMaps.ResourceRoundTrip | workers/shared/scim.ts:468-485 | translating a resource there and back is the identity if and only if all its ids come back |
| Backfill.BatchedReplay.FlushMappings | workers/shared/backfill.ts:159-174 | the queue drained; the table with the queue laid over it, later rows winning, or as it was; every mapping of a failed batch named |
| Backfill.BatchedReplay.ReplaySnapshot | workers/shared/backfill.ts:70-101 | queueing and flushing per hundred: if no flush failed and the runs never part, the rows, mappings and counts of writing each mapping at once; they part only at an item held off, never with separate ids; in any case each resource counted as mirrored has its row, mapped or named, and no other mapping changed |
| Backfill.RunBackfill | workers/shared/backfill.ts:70-146 | the same for both passes, members translated by the user mappings then stored, which without a failed flush are all of the run's |
| Backfill.StepsTogether | workers/shared/scim.ts:1027-1048 | item by item, the queueing and the immediate run write the same row or both refuse, if and only if it is not the case that the item's unmapped id spells a WorkOS id a queued mapping supersedes and nothing else refuses it |
| Backfill.SameOwners | workers/shared/scim.ts:1027-1048 | a superseded but unflushed mapping decides a claim in that case and no other |
| Backfill.PartsOverASpelling | workers/shared/scim.ts:1027-1048 | where the runs part, a native id of the snapshot spells the WorkOS id another one was mapped to |
| Backfill.SpelledIdDiverges | workers/shared/scim.ts:1027-1048 | without separate ids the batched run refuses an item the immediate run mirrors |
| Backfill.LoadedMapsTranslateMembers | workers/shared/backfill.ts:124-136 | the loaded maps translate group members as the user table says |
| Snapshot.TakeSnapshot | workers/shared/backfill.ts:184-237 | against any server: ended exactly at the first page that is unusable, empty or brings the count to the last total reported, complete only in the last case; else every page so far brought something and the total is ahead; from a server of contiguous slices an ended run returns the whole list |
| Snapshot.WholeList | workers/shared/backfill.ts:184-237 | against any server of contiguous slices an ended snapshot is complete and is the whole list |
| Snapshot.EndsBelowABound | workers/shared/backfill.ts:184-237 | with totals below a bound the enumeration ends within that many calls |
| Reconcile.LookupProves | workers/shared/backfill.ts:812-866 | a match is the only entry of the name on a complete page and carries the expected external id; absence is read only off an empty complete page |
| Reconcile.KindReplay.Address | workers/shared/backfill.ts:549-619 | whether a resource is written and to which row: its mapped row, the verified match of its name, or a create; attributed in every case |
| Reconcile.KindReplay.PushToNative | workers/shared/backfill.ts:539-741 | the resource is written to that row or not at all, a second time only to repair a collision; injectivity kept; every PUT went to an attributed row; at most one mapping added, for ids new to both columns, confirmed by native on this call's last write; each resource counted once unless a read or a clearing throws, and then what stays open is on record |
| Reconcile.KindReplay.SendAndRepair | workers/shared/backfill.ts:620-660 | the write to the resolved row, and after a 409 the repair; the answer reported is the last write's |
| Reconcile.ClosedIsSettledUnlessMistaken | workers/shared/backfill.ts:655-663 | a write the code counts as closed is settled if and only if it was not answered with a refusal that proves nothing |
| Reconcile.RedirectIsClosedButNotSettled | workers/shared/backfill.ts:655-663 | a POST answered 302 is counted as closed and is not settled |
| Reconcile.KindReplay.RecordConfirmed | workers/shared/backfill.ts:671-708 | the id native returned is checked again and mapped, or the write counts as unresolved |
| Reconcile.KindReplay.RepairCollision | workers/shared/backfill.ts:634-660 | after a 409 the row holding the name is updated only if attributed |
| Reconcile.KindReplay.Send | workers/shared/backfill.ts:777-808 | a PUT is sent only to a row mapped to the resource, or unowned in an exclusive namespace, without foreign link or alias |
| Reconcile.RunReconcileFromWorkos | workers/shared/backfill.ts:326-517 | on every run, from taking the claims to giving them up, with reads, clearings and the final sweep that may throw: once claims are released, every write sent is truly settled if and only if none was answered with a refusal that proves nothing; released always if none was sent; every listed resource is counted; a claim not won or an ambiguous table stops the run before any write; the sweep is asked for exactly when both complete lists were replayed without a failure |
| Reconcile.RedirectLetsGo | workers/shared/backfill.ts:326-385 | a whole run that releases its claims after a 302, with that write open |
| SweepLedger.FailureTable.RecordNativeWriteFailure | workers/shared/db.ts:670-694 | a failure drops the row's stamp |
| SweepLedger.FailureTable.MarkDivergencesForSweep | workers/shared/db.ts:804-818 | a stamp goes to exactly the unstamped rows |
| SweepLedger.FailureTable.ClearReplayedDivergenceForResource | workers/shared/db.ts:728-748 | clears a row only with this stamp, never a DELETE gap |
| SweepLedger.FailureTable.ClearReplayedDivergences | workers/shared/db.ts:773-788 | the final sweep clears exactly the rows with this stamp that are no DELETE gap |
| SweepLedger.FailureTable.ClearNativeWriteFailure | workers/shared/db.ts:700-714 | live traffic settles a key: its row goes |
| SweepLedger.ReconcileLease.ClaimReconcileRun | workers/shared/db.ts:845-865 | taken exactly if free or past its lifetime |
| SweepLedger.ReconcileLease.ReleaseReconcileRun | workers/shared/db.ts:866-880 | released exactly by its holder |
| SweepLedger.StampMeansUntouched | workers/shared/db.ts:670-694 | on every interleaving, retried mark statements included, a row carries a stamp if and only if that reconcile marked it and no failure came since |
| SweepLedger.SweepsOnlyWhatItClaimed | workers/shared/backfill.ts:402-515 | a reconcile deletes a row only if it marked it, no failure was recorded since, and it is no DELETE row |
| SweepLedger.LeftoverStampsOutliveReconciles | workers/shared/db.ts:804-818 | a row a first reconcile stamped and left survives every later one until live traffic touches it |
| SweepLedger.LeaseIsExclusiveWithinItsLifetime | workers/shared/db.ts:845-880 | a second reconcile starts beside an unfinished one only after the lease's lifetime |
| Listener.DsyncListener.ProcessDsyncEvent | workers/native/listener.ts:93-200 | tables and verdict of one delivery, inert or active, equal the specification |
| Listener.DsyncListener.IsNewest | workers/native/listener.ts:313-320 | newest across scopes: no mark of any scope is later |
| Listener.DsyncListener.RecordEventVersions | workers/native/listener.ts:878-894 | every scope's mark becomes the later of the two times, no other changes |
| ListenerLedger.OneDelivery | workers/native/listener.ts:132-157 | inert deliveries change no row but advance marks; a row change needs an active, new, newest event; a handler error leaves the ledger alone |
| ListenerLedger.MarksOnlyGrow | workers/native/listener.ts:878-894 | over any run the marks only grow |
| ListenerLedger.LedgerGatesRows | workers/native/listener.ts:210-229 | over any mixed run a delivery that changes rows is at least as new as everything recorded earlier for any of its scopes, inert deliveries included |
| ListenerLedger.InertRunTouchesNoRow | workers/native/listener.ts:132-157 | an inert run changes no row |
| ListenerConvergence.UpsertSetsTheFlag | workers/native/listener.ts:360-421 | a user event sets its own user's active flag and no other bit |
| ListenerConvergence.DeleteClearsTheFlag | workers/native/listener.ts:449-486 | a soft delete clears its own user's flag and no edge |
| ListenerConvergence.MembershipSetsTheEdge | workers/native/listener.ts:546-684 | a membership event sets its own edge and no other bit |
| ListenerConvergence.DeliveryIsARegisterWrite | workers/native/listener.ts:210-229 | one delivery decides one bit or leaves bit and mark alone, and never throws |
| ListenerConvergence.NewestDecides | workers/native/listener.ts:861-894 | after any deliveries each bit is what the newest eligible event wants, or untouched |
| ListenerConvergence.OrderDoesNotMatter | workers/native/listener.ts:861-894 | every delivery order, duplicates allowed, ends alike if and only if no two newest events of a scope want different things |
| ListenerConvergence.DistinctTimesConverge | workers/native/listener.ts:546-684 | with distinct timestamps per scope any two orders end with the same active flags and edges |
| EventsPoller.Poller.PollDsyncEventsOnce | workers/native/events-poller.ts:92-191 | every state a crash could leave is safe; events are handed over in log order; in crash-free polls no event fails more than five times and an abandoned one failed exactly five; the paging ends |
| EventsPoller.Poller.ProcessPage | workers/native/events-poller.ts:130-186 | one page: all done with, or stopped before an event that waits for its retry |
| EventsPoller.Poller.HandOver | workers/native/events-poller.ts:139-184 | one event: handled, abandoned after its last attempt, or left to wait |
| EventsPoller.StaysSafe | workers/native/mock-emitter.ts:207-251 | retention at the front and new events at the end unsettle nothing behind the cursor |
| EventsPoller.StaysInStep | workers/native/mock-emitter.ts:207-251 | new events leave the attempt budget of every event as it was |
| StatusClient.SameETagSameInstruction | workers/proxy/status.ts:175-211 | equal ETags mean equal instruction and mode |
| StatusClient.StatusReader.FetchDirectoryStatus | workers/native/status-client.ts:67-132 | cache, backoff and answer of one read, with and without a required confirmation time |
| StatusClient.StatusReader.DsyncInstruction | workers/native/listener.ts:964-1033 | apply at once, ignore only after a second, confirmed read |
| StatusClient.ReadsStayHonest | workers/native/status-client.ts:244-247 | the cache never holds what the origin did not say, through 304s too |
| StatusClient.IgnoredExactlyWhen | workers/native/listener.ts:964-1033 | whatever honest cache each of the two reads finds: an event of a workos-only directory is ignored if and only if both caches say inert and the second either cannot be confirmed or passes for confirmed; an entry that does was validated in the arrival's clock tick |
| StatusClient.UndisturbedIsInstruct | workers/native/listener.ts:964-1033 | if no other delivery comes between the two reads, the answer the two results speak of is the one `DsyncInstruction` gives |
| StatusClient.InertWasAskedBefore | workers/native/status-client.ts:67-132 | a cached inert entry was asked for no later than the arrival |
| StatusClient.LostWithinOneTick | workers/native/listener.ts:964-1033 | an honest history in which a change committed in workos-only is ignored although the endpoint answers |
| StatusClient.NothingLostAtCutover | workers/proxy/status.ts:43-45 | if the endpoint answers and the flip is not in the arrival's tick, nothing committed in workos-only is ignored, whatever other deliveries did to the cache meanwhile |
| Namespaces.DisjointMeansUnshared | workers/shared/scim.ts:196-238 | disjoint namespaces are exactly those for which the run-time guard answers "not shared" |
| Namespaces.Panel.CheckNativeNamespace | workers/shared/native-namespace.ts:67-108 | accepts exactly an endpoint that can stand beside the others |
| Namespaces.Panel.CreateDirectory | app/routes/panel/home.tsx:240-282 | created exactly if name and token pass, both URLs may be dialled, the directories stay disjoint and the database takes the row |
| Namespaces.Panel.CsvNamespaceRefusals | app/routes/panel/home.tsx:139-194 | no refusal exactly if both URLs of every row may be dialled (an empty native URL passes) and all rows together stay disjoint |
| Namespaces.Panel.BulkImport | app/routes/panel/home.tsx:284-329 | the whole file or nothing, rows without a name or token skipped; whatever inserts succeed, the directories stay disjoint |
| Namespaces.Panel.SaveNative | app/routes/panel/directory-overview.tsx:198-222 | refused exactly if unsafe or if the move, token or attestation would break disjointness |
| Namespaces.Panel.DeleteDirectory | app/routes/panel/directory-overview.tsx:310-340 | refused exactly for the demo directory in demo mode; deleting one directory leaves the rest disjoint |
| Namespaces.NeverShared | workers/shared/native-namespace.ts:67-108 | after any creates, imports, saves and deletes no directory with a native URL shares its namespace |
| Placeholders.OneReading | server/db/placeholders.ts:20-83 | a token list is a reading of its text if and only if it is the one the scan finds |
| Placeholders.RewritePlaceholders | server/db/placeholders.ts:20-83 | the scanned marks numbered in order, all else copied, their number returned |
| Placeholders.ClosingQuote | server/db/placeholders.ts:86-100 | the end of a literal, doubled quotes escaped, unterminated ones to the end |
| Placeholders.NumbersTheMarks | server/db/placeholders.ts:20-83 | for the statement's one reading by the token grammar: the k-th mark outside literals, identifiers, dollar quotes and comments becomes `$k` |
| Placeholders.UnmarkedStays | server/db/placeholders.ts:20-83 | a statement without marks comes back as it was |

## Left out

- `dualWrite`, `mirrorDualWrite`, `workosOnly` and PATCH translation: no claim, no ledger of their own; they reuse the modelled mirror and maps.
- `runBackfill` beside live traffic: the code leaves it unguarded; it is modelled as a sequential run.
- PrimaryWrite.PrimaryDirectory.WorkosPrimaryWrite: the recovery a PUT may run, and the mapping it then rewrites, are in `PrimaryProtocol`; here the replace leg is one outcome. The user mappings of group members are read at one moment. Overlap is in `PrimaryLedger`, where the preflight reads are one step.
- MirrorUpsert.Mirror.MirrorUpsert: without the `serializeRecovery` flag, whose claim and re-read are steps of `PrimaryProtocol`; upstream failures beyond the contract's own statuses end the run unchanged and are not modelled.
- MirrorUpsert.Mirror.Put: the server's attribute normalisation is not modelled; a stored row is the body it was sent.
- MirrorUpsert.Mirror.Post: the same, for the row it creates.
- MirrorSafety.RerunChangesNothing: for runs that write their mapping at once; a run whose mapping is only queued is a cut-off run of `CutOffRunConverges`.
- Listener.DsyncListener.ProcessDsyncEvent: events without a Directory Sync id use the legacy lookup only, and an id without a link counts as unconfirmed (`nativeIdForEvent`, `fetchEventNativeId` and `bindEventLink` are not part of this model); the stored resource JSON and emails are not modelled, so "no transition" looks at name, external id and active flag.
- ListenerConvergence.OrderDoesNotMatter: for events with ids and timestamps about rows that exist under stable external ids, with the soft delete policy, no group deletion, and no user name shared by two identities.
- Backfill.RunBackfill: after a failed flush, or after the item at which the runs part, the accounts balance, but which row a later resource takes is not compared with writing at once. A read that throws ends the run; its rows and mappings are those of a shorter list, or of the cut-off run of `MirrorSafety`.
- Reconcile.KindReplay.PushToNative: the event-link, foreign-mapping and namespace reads of one attribution check are taken at one moment and fail together; which divergence row a clearing removes is in `SweepLedger`.
- Reconcile.RunReconcileFromWorkos: that nobody takes the claims from a running reconcile is proved in `PrimarySafety`; giving them up is one step here.
- EventsPoller.Poller.PollDsyncEventsOnce: events carry ids, as the API's contract says; an event without one is abandoned on its first failure. An expired cursor restarts attempt budgets, so the bound of five is for polls whose cursor is known. The log does not change during one poll; between polls it may (`StaysSafe`, `StaysInStep`).
- Namespaces.NeverShared: for tokens that stay readable; `duplicateNativeNamespaces`, which only reports, is left out.
- HTTP details, filter escaping, Location rewriting, logging, cryptography, URL canonicalisation and metadata blocking, migrations, boot, the IdP simulator and the panel's pages.
- Operator recovery of retained claims.
