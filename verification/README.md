# Notification and market services: a verified model

The project models the stateful protocols of a trading companion service and the
pure cores they rest on, and proves what they promise over every run and every
input.

* **Dispatch** (`Dispatch*.dfy`, `NotificationStore.dfy`, `DeliveryWorker.dfy`): outbox rows, dispatch
  permits, installations, account links and the clock as one transition system.
  A store transaction is one step with a separate clock read per statement; a
  delivery worker is a program counter that may crash at every await.
* **Market catalog** (`Catalog*.dfy`): the sync row shared by both stores, the
  eager Postgres copy, the lazy D1 generation and the pure payload merges, driven
  by one run of claims, fetches, pages and failures.
* **Deletion ledger and restore** (`Ledger*.dfy`, `Restore*.dfy`): concurrent
  appends, the replay verifier, and histories in which the database is set back to
  a backup any number of times, with every commit split into read, append and
  transaction and every replay into read, confirmation and commit.
* **Monitor registry** (`Monitor*.dfy`): entries whose reconcile task is overtaken
  at every await by subscriptions, gaps, lease expiry and close.
* **Migrations** (`Migrations.dfy`): a runner that may stop anywhere.
* **Pure cores**: canonical JSON (`CanonicalJson*.dfy`), exact decimals and rule
  crossings (`Decimals.dfy`, `Rules.dfy`), actions and their hash preimage
  (`Codec*.dfy`, `MessagePack.dfy`, `Preimage*.dfy`).
* **Bounds**: greedy batching (`Batching.dfy`), reservations and sliding windows
  (`Capacity.dfy`).

`dafny verify dfyconfig.toml` checks everything. SQL is read as it is written: an
exception is a result value or a step without effect, a time or a random id is a
parameter, and a MAC or hash is an unknown function of its input.

The classes `Store`, `MonitorEntry`, `PostgresCatalog` and `D1Catalog` carry out the
transactions statement by statement; each method's contract says that it is the
transition of that name, about which the lemmas below speak. What each transition
writes is fixed by lemmas that name no transition but the one they are about: in
literals, column by column (`DispatchEffects`, `RestoreEffects`, `CatalogMeaning`,
`CodecMeaning`, `CanonicalJsonLayout`, `PreimageLayout`, `MonitorStops`).

Five promises do not hold of the code as stated; each has a lemma with the failing
case and one with the exact condition. A revocation whose append comes from a row it
read before a restore leaves a live installation with a tombstone
(`LateAppendLeavesLive`, `DeletedStaysDeleted`). The two catalog stores differ when a
first build ends in a failed enumeration (`FirstBuildCanDiffer`,
`FirstBuildAgreement`). A listener that joins an accepted `undefined` snapshot sees a
delta without a baseline (`DeltaCanComeFirst`, `LateJoinInOrder`). A key subscribed
again during the lease release loses its unique-user slot (`SlotCanBeLost`,
`ReleaseKeepsSlots`). The builder accepts `existingOid` 0, which the codec refuses
(`BuiltIsCanonical`).

## Model

| member | source | states |
|---|---|---|
| `DispatchTheorems.AtMostOneSubmission` | apps/api/src/db/notification-store.ts:1406-1538 | in every run with crashes, abandonments, recovery and re-claims, two permits of one outbox row that both reached `submission_started` are the same permit |
| `DispatchTheorems.AtMostOneSend` | apps/api/src/outbox/delivery-worker.ts:103-189 | two `provider.send` calls of a run are for different outbox rows |
| `DispatchTheorems.NoFetchAfterDrain` | apps/api/src/db/notification-store.ts:3013-3063 | once an installation is not active, no later authorization in any run is for it |
| `DispatchTheorems.NoSendAfterRevocation` | apps/api/src/db/notification-store.ts:2049-2128 | once an installation is inactive, no later `provider.send` of any run is for it |
| `DispatchTheorems.RevokedIsQuiet` | apps/api/src/db/notification-store.ts:2075-2129 | in every reachable state an inactive installation has no pending or leased row, no started permit with its deadline ahead, and no worker that may still reach the provider inside its deadline |
| `DispatchTheorems.CommitLeavesNothingInFlight` | apps/api/src/db/notification-store.ts:2075-2129 | a committing revocation leaves the installation inactive one generation later, without links or token, and no started permit whose deadline is after its last clock read |
| `DispatchTheorems.UnlinkLeavesNothingInFlight` | apps/api/src/db/notification-store.ts:1761-1800 | a committing unlink removes the link row and leaves no started permit in its scope with the deadline ahead |
| `DispatchTheorems.NoFetchAfterUnlink` | apps/api/src/db/notification-store.ts:1634-1698 | a link that left active gets no authorization in its scope until it is proven anew |
| `DispatchTheorems.RowsAndPermitsPair` | apps/api/src/db/notification-store.ts:3298-3326 | a live permit is active exactly on a leased row and started exactly on a started row, and is the row's only live permit; other rows have none |
| `DispatchTheorems.StartedRowHasItsPermit` | apps/api/src/db/notification-store.ts:3420-3470 | a `provider_submission_started` row has exactly one permit that began, still started or finished past its deadline (the two clock reads of a fence allow the latter) |
| `DispatchTheorems.StepDrops` | apps/api/src/db/notification-store.ts:2628-2785 | on every step except acquireDispatchPermit, every row keeps state and measure or strictly drops in (8 - claim_attempts, state rank), and new rows are fresh |
| `DispatchTheorems.RowSettles` | apps/api/src/db/notification-store.ts:2676-2785 | without acquireDispatchPermit a row changes state at most 34 times in any run |
| `DispatchTheorems.AcquireRaises` | apps/api/src/db/notification-store.ts:1321-1404 | acquireDispatchPermit counts no claim attempt: it raises that measure by one |
| `DispatchVerdicts.AcceptedExactly` | apps/api/src/db/notification-store.ts:2811-2848 | over every run: a row is `provider_accepted` if and only if the provider accepted the send on some permit of it and a worker then committed a record of just that outcome with that permit |
| `DispatchVerdicts.RejectedExactly` | apps/api/src/db/notification-store.ts:2850-2886 | over every run: a row is `provider_rejected` if and only if a worker committed a record of just that outcome, after the provider rejected the send, or with no send for the row anywhere in the run |
| `DispatchVerdicts.UnknownExactly` | apps/api/src/db/notification-store.ts:2628-2674 | over every run: a row is `provider_outcome_unknown` if and only if a worker committed a record of just that outcome, or a recovery or a fence gave the row up past the deadline of its begun submission |
| `DispatchVerdicts.RecordStores` | apps/api/src/db/notification-store.ts:3298-3326 | a committed record puts exactly its outcome into the row of its permit, finishes that permit, and changes no other row, permit or scope |
| `DispatchVerdicts.RecordCommits` | apps/api/src/db/notification-store.ts:2811-2890 | a record commits if and only if its permit is started and, for an acceptance, the push token still has a row; the check of the outbox row never refuses it |
| `DispatchVerdicts.SettledStays` | apps/api/src/db/notification-store.ts:1406-1567 | over every run an accepted, rejected, unknown or cancelled row keeps that state |
| `DispatchVerdicts.AskedWithinTenSeconds` | apps/api/src/db/notification-store.ts:2722-2745 | over every run each authorization and each send happens less than ten seconds after its permit was inserted |
| `DispatchVerdicts.NewRowsPend` | apps/api/src/db/notification-store.ts:2534-2626 | a row appears only by an alert, pending, unclaimed, and for an installation, token and link that are active in the recorded generations |
| `DispatchOutcomes.StepExplained` | apps/api/src/db/notification-store.ts:1406-2785 | every step either leaves the state of a row or is one of the listed causes: who may lease, mark, record, return, cancel or give up a row, in which scopes and before which times |
| `DispatchOutcomes.AuthorizedOnlyLive` | apps/api/src/db/notification-store.ts:3013-3065 | a fetch is authorized only inside its deadline, with delivery open, the egress lease held, and installation, token and link active in the generations of the permit |
| `DispatchEffects.MarkExactly` | apps/api/src/db/notification-store.ts:1406-1538 | in every reachable state a mark commits if and only if the permit is active inside both its times and its scopes are active; the checks of the outbox row add nothing |
| `DispatchEffects.AuthorizeExactly` | apps/api/src/db/notification-store.ts:3013-3065 | in every reachable state the joined row exists if and only if the permit has begun, is inside its deadline, delivery is open and its scopes are active |
| `DispatchEffects.AbandonExactly` | apps/api/src/db/notification-store.ts:2767-2785 | in every reachable state abandoning an active permit expires it and returns its row (to the queue below eight claims, else cancelled); any other permit is left alone |
| `DispatchEffects.RecoverStarted` | apps/api/src/db/notification-store.ts:2628-2655 | in every reachable state a recovery makes a started row unknown if and only if its one begun permit is overdue and in the batch, or was finished before; otherwise row and permit stay |
| `DispatchEffects.RecoverLeased` | apps/api/src/db/notification-store.ts:2656-2674 | in every reachable state a recovery returns a leased row if and only if its lease is over and every active permit of it is in the batch and expired |
| `DispatchEffects.FullRecoverySettles` | apps/api/src/db/notification-store.ts:2628-2674 | a recovery whose batch takes every overdue submission leaves no started row past its deadline |
| `DispatchEffects.CommitExactly` | apps/api/src/db/notification-store.ts:2075-2129 | a revocation commits if and only if it was committed before, or the installation is draining and no started permit of it has its deadline ahead of the last clock read |
| `DispatchEffects.CommitLinkExactly` | apps/api/src/db/notification-store.ts:1761-1800 | the same for an unlink and the started permits in the scope of the link |
| `DispatchEffects.CommitLeaves` | apps/api/src/db/notification-store.ts:2075-2129 | what a revocation leaves of every row: waiting rows of the installation cancelled, overdue submissions unknown, link columns nulled, all other rows as they were |
| `DispatchEffects.CommitLinkLeaves` | apps/api/src/db/notification-store.ts:1761-1800 | the same for the rows in the scope of an unlinked account, and nothing else changed |
| `DispatchRuns.StepKeeps` | apps/api/src/outbox/delivery-worker.ts:103-189 | every step of stores, workers, crashes and time keeps the joint invariant of rows, permits, installations, links, worker program counters and the log |
| `DispatchRuns.RunKeeps` | apps/api/src/outbox/delivery-worker.ts:103-189 | the joint invariant holds after every run |
| `DispatchInvariant.CreateAlertKeeps` | apps/api/src/db/notification-store.ts:2534-2626 | creating an alert's outbox row keeps the database invariant |
| `DispatchInvariant.ClaimKeeps` | apps/api/src/db/notification-store.ts:2676-2765 | claiming keeps the database invariant and never undoes a begun submission |
| `DispatchInvariant.AcquireKeeps` | apps/api/src/db/notification-store.ts:1321-1404 | the same for acquireDispatchPermit |
| `DispatchInvariant.MarkKeeps` | apps/api/src/db/notification-store.ts:1406-1538 | the same for markProviderSubmissionStarted |
| `DispatchInvariant.FinishKeeps` | apps/api/src/db/notification-store.ts:3298-3326 | the same for finishing a permit |
| `DispatchInvariant.AbandonKeeps` | apps/api/src/db/notification-store.ts:2767-2785 | the same for abandoning an unstarted dispatch |
| `DispatchInvariant.RecoverKeeps` | apps/api/src/db/notification-store.ts:2628-2674 | recovery, for any batch its limits select and any four clock reads, keeps the database invariant |
| `DispatchRevocation.DrainInstallationKeeps` | apps/api/src/db/notification-store.ts:1569-1631 | draining an installation keeps the database invariant |
| `DispatchRevocation.DrainLinkKeeps` | apps/api/src/db/notification-store.ts:1634-1698 | draining an account link keeps the database invariant |
| `DispatchRevocation.RegisterKeeps` | apps/api/src/db/notification-store.ts:179-212 | registering an installation keeps the database invariant |
| `DispatchRevocation.LinkAccountKeeps` | apps/api/src/db/notification-store.ts:1072-1082 | linking an account keeps the database invariant |
| `DispatchRevocation.CommitInstallationKeeps` | apps/api/src/db/notification-store.ts:2075-2129 | the revocation transaction keeps the database invariant |
| `DispatchRevocation.CommitLinkKeeps` | apps/api/src/db/notification-store.ts:1761-1800 | the unlink transaction keeps the database invariant |
| `DeliveryWorker.NotificationDeliveryWorker.RunOnce` | apps/api/src/outbox/delivery-worker.ts:103-189 | whatever stores and provider answer, there is a run of the whole system from an empty service that takes a worker along exactly the program counters it passes; at most one send; a claim ends in exactly one recorded outcome or an abandonment; recovery runs exactly when it is due |
| `DeliveryWorker.OneRunIsPath` | apps/api/src/outbox/delivery-worker.ts:103-189 | every sequence of moves runOnce can make, for any permit and deadline, is played by some run of the transition system from an empty service |
| `DeliveryWorker.StepMoves` | apps/api/src/outbox/delivery-worker.ts:103-189 | the other way: every step of the transition system moves a worker as runOnce does, or crashes it |
| `DeliveryWorker.RecoveriesSpaced` | apps/api/src/outbox/delivery-worker.ts:191-200 | over any calls of runOnce and requestRecovery, two recoveries with no request between them are at least ten seconds apart |
| `DeliveryWorker.Try` | apps/api/src/outbox/delivery-worker.ts:110-155 | mark, token, authorization, deadline check, send and record in that order; no send when the deadline has passed |
| `DeliveryWorker.Catch` | apps/api/src/outbox/delivery-worker.ts:155-188 | abandon before the mark; after it, unknown exactly when the provider may have been written to and the failure was not a missed deadline or a revoked authorization |
| `NotificationStore.Store.RecoverExpiredDispatches` | apps/api/src/db/notification-store.ts:2628-2674 | the four statements in order give the recovery transaction |
| `NotificationStore.Store.FenceDispatchWork` | apps/api/src/db/notification-store.ts:3365-3470 | rows first, permits second, each with its own clock read, give the fence |
| `NotificationStore.Store.FinishDispatchPermit` | apps/api/src/db/notification-store.ts:1540-1567 | commits exactly on a started permit of a started row; then the permit is finished, its row holds exactly the outcome (lease columns kept here, cleared by finishDispatchInTransaction), and every other row, permit and column is as before |
| `CatalogStores.PublishedCatalogsEqual` | apps/api/src/cloudflare/d1-market-catalog-store.ts:167-330 | whenever a generation is published, the Postgres rows, the D1 rows and the fold of the pure merges and prune hold the same records and errors (constant total over pages without enumeration error, consecutive dex indexes, one error per source, ids that fix their source, publication after a failed enumeration only over an earlier generation) |
| `CatalogStores.StepAgrees` | apps/api/src/catalog/market-catalog-store.ts:156-287 | every claim, core, page and failure step keeps the three forms in agreement |
| `CatalogStores.PublishedRowsSame` | apps/api/src/catalog/market-catalog-store.ts:487-576 | pruning by the total, or retaining after a failed enumeration, publishes the same rows in all three forms |
| `CatalogLatest.PublishedIsLatest` | apps/api/src/cloudflare/d1-market-catalog-store.ts:167-330 | over every run and for every source, all three forms of the published generation hold the records its last successful fetch had delivered and the error its last failed fetch had reported since, each under the fetch name of that source, less the dexes dropped at publication |
| `CatalogLatest.RunHolds` | apps/api/src/catalog/market-catalog-store.ts:71-287 | the same for Postgres after every run, for the generation under construction too, with no assumption on ids or errors |
| `CatalogMeaning.PgCoreMeans` | apps/api/src/catalog/market-catalog-store.ts:156-178 | for any core fetch: an error named `metaAndAssetCtxs:native`, `spotMetaAndAssetCtxs` or `outcomeMeta` keeps the records of native perpetuals, spot or outcomes and stores that error; without one the records are exactly those delivered and the error is cleared; no other source changes |
| `CatalogMeaning.D1CoreMeans` | apps/api/src/cloudflare/d1-market-catalog-store.ts:167-220 | the same for D1, where a source not resolved yet is the published one |
| `CatalogMeaning.PayloadCoreMeans` | apps/api/src/cloudflare/catalog-payload.ts:45-62 | the same for the pure merge, which takes the first error of a name |
| `CatalogMeaning.PgPageMeans` | apps/api/src/catalog/market-catalog-store.ts:197-252 | the same for every dex of a page under `metaAndAssetCtxs:` and its name, and the error named `perpDexs` is stored or cleared |
| `CatalogMeaning.D1PageMeans` | apps/api/src/cloudflare/d1-market-catalog-store.ts:222-300 | the same for D1 |
| `CatalogMeaning.PayloadPageMeans` | apps/api/src/cloudflare/catalog-payload.ts:64-93 | the same for the pure merge |
| `CatalogMeaning.SanitizedIs` | apps/api/src/cloudflare/catalog-payload.ts:178-189 | a stored error is a prefix of the reported one, never blank, with status and delay in range; sanitizing twice is sanitizing once |
| `CatalogMeaning.CoreDecides` | apps/api/src/catalog/market-catalog-store.ts:179-194 | the core is ready if and only if none of the three fetches failed or this was the third failure |
| `CatalogMeaning.PageDecides` | apps/api/src/catalog/market-catalog-store.ts:252-287 | a page with a failed fetch is retried below three failures; otherwise the build goes on behind its dexes, and publishes if and only if they reach the total |
| `CatalogMeaning.ClaimExcludes` | apps/api/src/catalog/market-catalog-store.ts:71-154 | a claim keeps every other claim out for exactly two minutes unless its lease is released before |
| `CatalogFirstBuild.FirstBuildAgreement` | apps/api/src/cloudflare/d1-market-catalog-store.ts:319-330 | over every run: when a first build ends in a failed enumeration, the two stores publish the same catalog if and only if D1 has stored nothing past the failed page's total |
| `CatalogFirstBuild.FirstBuildCanDiffer` | apps/api/src/catalog/market-catalog-store.ts:280-286 | a run from the empty stores that fetches the core, stores one of two dexes and then fails to enumerate three times: D1 publishes the dex, Postgres does not |
| `CatalogStores.PublishedUntouched` | apps/api/src/catalog/market-catalog-store.ts:71-154 | no step touches a row of the published generation, not even the one that publishes its successor |
| `CatalogStores.SnapshotStable` | apps/api/src/cloudflare/d1-market-catalog-store.ts:755-844 | over a run the rows of a published generation stay as they were until the second publication after it |
| `CatalogStores.PublishedGrows` | apps/api/src/cloudflare/d1-market-catalog-store.ts:755-790 | the published generation number never goes back in a run |
| `CatalogStores.SupersededChangesNothing` | apps/api/src/catalog/market-catalog-store.ts:370-389 | over a run every later step of a superseded lease leaves every table of both stores and the sync state as they were |
| `CatalogSync.PublishedGrowsByOne` | apps/api/src/catalog/market-catalog-store.ts:525-553 | a step publishes exactly the successor generation, or leaves the published generation alone |
| `CatalogSync.ClaimSupersedes` | apps/api/src/cloudflare/d1-market-catalog-store.ts:68-165 | a claim supersedes every lease issued before it |
| `CatalogSync.CompletionDrops` | apps/api/src/catalog/market-catalog-store.ts:179-194 | a completed step that does not publish lowers the measure on core readiness, remaining offset and remaining failures |
| `CatalogSync.BuildPublishes` | apps/api/src/catalog/market-catalog-store.ts:201-287 | with N dexes a generation is published within 3 * (1 + max(1, N)) completed steps, whatever claims and failures are interleaved |
| `CatalogSync.RunKeeps` | apps/api/src/catalog/market-catalog-store.ts:71-154 | in every run a held lease names the published generation, core readiness and offset of the sync row, and the building generation is the successor of the published one |
| `CatalogRefinement.ResolveAllSame` | apps/api/src/cloudflare/d1-market-catalog-store.ts:455-602 | lazily synchronizing or retaining a list of sources keeps D1 in step with the eager Postgres copy, source by source |
| `CatalogRefinement.RetainedSame` | apps/api/src/cloudflare/d1-market-catalog-store.ts:930-1033 | after a failed enumeration the D1 rows with the missing builder sources brought over equal the unpruned Postgres copy |
| `CatalogRefinement.PrunedSame` | apps/api/src/catalog/market-catalog-store.ts:487-505 | pruning by the total leaves in Postgres exactly what D1 stored |
| `CatalogRefinement.TotalPrunesNothing` | apps/api/src/catalog/market-catalog-store.ts:555-576 | pruning by the retained total removes nothing |
| `CatalogRefinement.MergeCoreSame` | apps/api/src/cloudflare/catalog-payload.ts:45-62 | mergeCoreCatalog holds the same records and errors as the Postgres core step |
| `CatalogRefinement.MergeBuilderSame` | apps/api/src/cloudflare/catalog-payload.ts:64-93 | mergeBuilderCatalog holds the same records and errors as the Postgres page step |
| `CatalogRefinement.PruneSame` | apps/api/src/cloudflare/catalog-payload.ts:95-114 | pruneBuilderCatalog holds the same records and errors as the Postgres prune |
| `CatalogRefinement.TotalSame` | apps/api/src/cloudflare/catalog-payload.ts:116-128 | both retained builder totals are equal on the same records and errors |
| `CatalogStoreClasses.MergeCoreLoop` | apps/api/src/cloudflare/catalog-payload.ts:45-62 | the loop over the core sources takes each of the three as its fetch says (CoreTaken), and is the fold of mergeSource |
| `CatalogStoreClasses.MergeBuilderLoop` | apps/api/src/cloudflare/catalog-payload.ts:64-93 | the loop over the dexes of a page takes each as its fetch says (PageTaken), then the enumeration error |
| `CatalogStoreClasses.PostgresCatalog.CompleteCore` | apps/api/src/catalog/market-catalog-store.ts:156-195 | the loop over the core sources takes each of the three as its fetch says and gives the core transition, or no change when the lease was lost |
| `CatalogStoreClasses.PostgresCatalog.CompleteBuilderPage` | apps/api/src/catalog/market-catalog-store.ts:197-287 | rejected pages change nothing; accepted ones give the page transition and say whether they published |
| `CatalogStoreClasses.D1Catalog.CompleteCore` | apps/api/src/cloudflare/d1-market-catalog-store.ts:167-220 | the statements pushed in the loop take each of the three as its fetch says and give the core transition, or no change |
| `CatalogStoreClasses.D1Catalog.CompleteBuilderPage` | apps/api/src/cloudflare/d1-market-catalog-store.ts:222-330 | rejected pages change nothing; accepted ones give the page transition and say whether they published |
| `Batching.GreedyIsOptimal` | apps/api/src/cloudflare/d1-market-catalog-store.ts:1062-1088 | the batches give the records in order, none is empty, each fits, and no order-preserving split within the limit has fewer |
| `Batching.RecordJsonBatches` | apps/api/src/cloudflare/d1-market-catalog-store.ts:1062-1088 | the loop fails exactly when some record alone is too large, and otherwise returns the encoded greedy batches |
| `Batching.SizeIsEncoded` | apps/api/src/cloudflare/d1-market-catalog-store.ts:1067-1084 | the tracked byte count is the length of the encoded batch |
| `Batching.TextsWithinLimit` | apps/api/src/cloudflare/d1-market-catalog-store.ts:1062-1088 | every returned text is within the limit |
| `Batching.PartsInPlace` | apps/api/src/cloudflare/d1-market-catalog-store.ts:1062-1088 | in the text of a batch every record stands unchanged at its place between the brackets, in order, with one comma before each but the first |
| `Ledger.RunKeeps` | packages/notifications/src/tombstone-recovery.ts:185-226 | after any interleaving of concurrent appends the ledger is gap free, has one item per deletion id, agrees with its index, and every answer names the indexed item |
| `Ledger.RepeatedAppendsAgree` | packages/notifications/src/tombstone-recovery.ts:202-226 | two appends of one deletion id, at any two points of a run, return the same item |
| `Ledger.ReceiptsConsistent` | packages/notifications/src/tombstone-recovery.ts:84-92 | the receipt check that closes appendDeletionTombstone never fails on this ledger |
| `LedgerQueue.FirstComeFirstServed` | packages/notifications/src/tombstone-recovery.ts:185-226 | after every interleaving the calls done with, followed by those that wait, are the calls in their order |
| `LedgerQueue.AnswersExactly` | packages/notifications/src/tombstone-recovery.ts:198-226 | in every reachable ledger a call that ends is answered with the item of its id and the length of the ledger at that moment, unless its seal threw or was not canonical; no other answer changes |
| `LedgerQueue.ChainEmpties` | packages/notifications/src/tombstone-recovery.ts:190-226 | no call blocks the chain, not even one whose seal throws |
| `Ledger.RunGrows` | packages/notifications/src/tombstone-recovery.ts:190-226 | an earlier ledger is a prefix of a later one |
| `Ledger.InMemoryDeletionLedger.Append` | packages/notifications/src/tombstone-recovery.ts:190-226 | a known id changes nothing and returns its item; a new id appends exactly the sealed item; it fails exactly when sealing fails or the sealed item is not canonical |
| `Ledger.InMemoryDeletionLedger.ReadRange` | packages/notifications/src/tombstone-recovery.ts:232-242 | reading a range of a canonical ledger is taking a slice |
| `Ledger.VerifyTombstoneReplay` | packages/notifications/src/tombstone-recovery.ts:95-163 | accepts an answer if and only if it is a contiguous, duplicate-free run from watermark to head of valid items, each with a held key version and exactly the MAC of its other fields, and returns what it read |
| `Ledger.HonestReplayAccepted` | packages/notifications/src/tombstone-recovery.ts:55-163 | a replay whose head and range are read at two points of an honest run is accepted and returns exactly the items after the watermark |
| `LedgerTampering.TamperingRefused` | packages/notifications/src/tombstone-recovery.ts:144-156 | under a MAC that never repeats: change any fields of one item of an accepted replay and keep its mac, or change the mac alone, and the replay is refused |
| `LedgerTampering.MacsDetermine` | packages/notifications/src/tombstone-recovery.ts:144-156 | under such a MAC two accepted replays with the same macs are the same |
| `LedgerTampering.RearrangedRefused` | packages/notifications/src/tombstone-recovery.ts:120-160 | a replay with an item missing, doubled or out of place, or under a key version that is not held, is refused |
| `LedgerTampering.MacTextInjective` | packages/notifications/src/tombstone-recovery.ts:295-311 | the printed array under the MAC determines every field of a tombstone but the mac |
| `RestorePromise.DeletedStaysDeleted` | apps/api/src/db/notification-store.ts:2137-2275 | over every history of registrations, drains, commit reads, appends, commits, key rotations, backups, restores and replays: no open service ever holds a live installation or link with a tombstone if and only if every append while open names a scope that is not live, and every opening replay leaves no live scope appended after its confirmation of the head |
| `RestorePromise.PromptCommitsSuffice` | apps/api/src/db/notification-store.ts:2022-2074 | if no restore falls between a commit's read of its rows and its append, a scope with a tombstone is never live while the service is open |
| `RestoreLateAppend.LateAppendLeavesLive` | apps/api/src/db/notification-store.ts:2022-2103 | in an empty service of any kind: a revocation reads its draining row, the database is set back to before the drain, and the append comes after the service opened again (or after the head was confirmed): the history is good, the installation is live with a tombstone, and the revocation's own transaction can only throw |
| `RestoreLateAppend.PromiseFails` | apps/api/src/db/notification-store.ts:2022-2074 | such a service exists, so the promise fails of the code |
| `RestorePromise.StepExactly` | apps/api/src/db/notification-store.ts:2137-2275 | one step keeps the promise if and only if it is careful in that sense |
| `RestorePromise.ReplayExactly` | apps/api/src/db/notification-store.ts:2189-2249 | a replay leaves a scope live if and only if it was live and no item selects its row or the row of its installation |
| `RestoreTheorems.RestoreDeletesEverything` | apps/api/src/db/notification-store.ts:2152-2275 | in every such history, late appends included, a replay that confirmed its head never conflicts, opens the service, and leaves nothing of any scope with a tombstone up to that head |
| `RestoreTheorems.ReplayedStaysGone` | apps/api/src/db/notification-store.ts:2152-2275 | in every such history every scope with a tombstone up to the watermark stays gone |
| `RestoreTheorems.NextKeeps` | apps/api/src/db/notification-store.ts:1700-1800 | every step keeps ledger, rows, operations, tombstones, commits and replays under way consistent |
| `RestoreTheorems.AppendedItem` | apps/api/src/db/notification-store.ts:2056-2074 | a commit's item deletes the scope it read, under the key version stored on the row, and the scope is not live unless a restore came after the read |
| `Restore.ReplayLoop` | apps/api/src/db/notification-store.ts:2189-2254 | the loop over verified items is the fold of the replay step, and stops at a tombstone conflict |
| `RestoreInvariant.RecordNeverConflicts` | apps/api/src/db/notification-store.ts:3472-3510 | recording an item of the ledger never conflicts with local tombstones that repeat the ledger |
| `RestoreInvariant.DeletionTextNames` | apps/api/src/db/notification-store.ts:1609-1610 | a deletion id determines the scope it deletes |
| `RestoreInvariant.EraseDeletes` | apps/api/src/db/notification-store.ts:2189-2249 | replaying an item removes everything of its scope, because the row keeps the key version it was inserted with |
| `RestoreIdempotence.ReplayIdempotent` | apps/api/src/db/notification-store.ts:2189-2254 | replaying the same items again succeeds and changes nothing but the clock |
| `RestoreIdempotence.ReplayQuiets` | apps/api/src/db/notification-store.ts:2197-2220 | a replayed installation has no live permit |
| `RestoreEffects.ReplayOpens` | apps/api/src/db/notification-store.ts:2238-2275 | a replay commits if and only if it was confirmed, the service still waits at its watermark and no tombstone conflicts; then mutations are open, monitors and delivery closed, the watermark is its head, and every item has its tombstone row |
| `RestoreEffects.CommitsExactly` | apps/api/src/db/notification-store.ts:2075-2129 | after an append the revocation's transaction goes through if and only if its rows allow it and the tombstone does not conflict; a first commit leaves its tombstone row and no column of a link that went |
| `RestoreEffects.AppendsExactly` | packages/notifications/src/tombstone-recovery.ts:55-93 | a commit that asks for a known deletion id goes on with its item; a new id with valid fields and a held key appends the next item, under the MACs of its scope and of all its fields; any other ask throws |
| `RestoreEffects.ErasedInstallation` | apps/api/src/db/notification-store.ts:2197-2220 | replaying an installation leaves it inactive at the higher of both generations, without token and links, and the other installations, tokens and links as they were |
| `RestoreEffects.ErasedInstallationRows` | apps/api/src/db/notification-store.ts:2191-2196 | replaying it settles its rows by force: what waits is cancelled, what has begun is unknown whatever its deadline, active permits expire and started ones finish |
| `RestoreEffects.ErasedLink` | apps/api/src/db/notification-store.ts:2222-2236 | the same for the rows in the scope of a link; everything outside it stays |
| `MonitorTheorems.DeltasFollowTheirBaseline` | apps/api/src/monitor/registry.ts:226-336 | in every interleaving each delta a listener sees follows a baseline, and comes from the stream opened under the last one |
| `MonitorTheorems.OpenStreamIsOwned` | apps/api/src/monitor/registry.ts:189-320 | in every interleaving an entry with an open stream is registered, holds a lease, and its controller is not aborted |
| `MonitorTheorems.OneStreamPerEntry` | apps/api/src/monitor/registry.ts:291-310 | the source never has two streams of one entry |
| `MonitorTheorems.LateJoinInOrder` | apps/api/src/monitor/registry.ts:142-148 | for a newcomer to an accepted snapshot the next delta is in order if and only if the snapshot was not `undefined` |
| `MonitorTheorems.FirstReconcileOpens` | apps/api/src/monitor/registry.ts:226-311 | a first reconcile with positive answers opens a stream whatever the snapshot, `undefined` included |
| `MonitorTheorems.ReactKeeps` | apps/api/src/monitor/registry.ts:226-336 | every stretch between two awaits keeps the invariant of an entry |
| `MonitorStops.NothingAfterGap` | apps/api/src/monitor/registry.ts:298-301 | over every run: after a gap of a stream, an expired lease or a failed renewal, no listener is ever told anything of that stream again, and every later delta follows a baseline of its own epoch told after it |
| `MonitorStops.NothingAfterStop` | apps/api/src/monitor/registry.ts:313-320 | the same from any point at which a controller of the entry is aborted and its baseline dropped, whatever the cause |
| `MonitorStops.GapStops` | apps/api/src/monitor/registry.ts:298-301 | a gap of a live stream leaves the entry without baseline, stream and controller, aborts the controller and closes the stream at the source; lease, timer and task stay |
| `MonitorStops.ExpiryStops` | apps/api/src/monitor/registry.ts:326-336 | when the lease timer runs out the lease is gone and the same holds |
| `MonitorStops.FailedRenewalStops` | apps/api/src/monitor/registry.ts:243-257 | when the lease cannot be renewed the same holds and the task ends |
| `MonitorStops.FailureStops` | apps/api/src/monitor/registry.ts:266-311 | a throw while loading or opening, or a refused egress before opening, stops the entry and leaves the source without a stream of it |
| `MonitorStops.UnsubscribeStops` | apps/api/src/monitor/registry.ts:150-171 | the last unsubscribe takes the entry out, stops it and gives back its slot or awaits its lease release; an earlier one only removes its listener; other entries stay |
| `MonitorStops.CloseStops` | apps/api/src/monitor/registry.ts:189-212 | close stops every entry and gives back the slots of its accounts |
| `MonitorStops.ReconcileReopens` | apps/api/src/monitor/registry.ts:226-311 | the next reconcile of a leased entry that was stopped opens a new stream under a new controller |
| `MonitorStops.DeltaReaches` | apps/api/src/monitor/registry.ts:291-297 | every listener of an entry with an open stream, and nobody else, is told each of its deltas |
| `MonitorStops.SnapshotReaches` | apps/api/src/monitor/registry.ts:271-290 | a snapshot is accepted and told to every listener if and only if its controller is live and the entry registered and leased; otherwise nobody is told |
| `MonitorStops.SlotsWithinLimit` | apps/api/src/monitor/registry.ts:120-171 | over every run no more accounts hold a unique-user slot than there may |
| `MonitorObjects.MonitorEntry.GapReported` | apps/api/src/monitor/registry.ts:298-301 | the callback of a stream whose controller was aborted changes nothing; any other leaves no baseline, stream or controller |
| `MonitorFailures.SlotCanBeLost` | apps/api/src/monitor/registry.ts:150-171 | a run from the empty registry, for any account and limit, after which a subscribed account has no unique-user slot: it was subscribed again while its last unsubscribe awaited the lease release |
| `MonitorFailures.DeltaCanComeFirst` | apps/api/src/monitor/registry.ts:142-148 | a run from the empty registry in which a listener that joins after an `undefined` snapshot sees a delta and nothing before it |
| `MonitorTheorems.ReleaseKeepsSlots` | apps/api/src/monitor/registry.ts:157-171 | a pending release keeps the slots of subscribed accounts if and only if its key is not subscribed again |
| `MonitorTheorems.RunKeepsSlots` | apps/api/src/monitor/registry.ts:120-171 | in every run in which no such release returns, each subscribed account holds its slot |
| `MonitorTheorems.OtherStepsKeepSlots` | apps/api/src/monitor/registry.ts:120-141 | no other step takes a slot from a subscribed account |
| `CanonicalJsonInjective.CanonicalIsInjective` | packages/notifications/src/account-proof.ts:159-174 | two printable values have the same canonical text if and only if they are equal up to key order |
| `CanonicalJsonInjective.ReaderUndoesPrinter` | packages/notifications/src/account-proof.ts:159-174 | a reader recovers the value, with its keys in order, from the whole text |
| `CanonicalJsonTheorems.PrintReads` | packages/notifications/src/account-proof.ts:159-174 | the same with any text after it that does not start with a digit |
| `CanonicalJsonTheorems.StringRead` | packages/notifications/src/account-proof.ts:161-161 | reading an escaped string (section 7 of RFC 8259, lone surrogates escaped) gives the string back |
| `CanonicalJsonInjective.PreimageIsInjective` | packages/notifications/src/account-proof.ts:141-149 | the hashed text determines operation version and operation up to key order, and the other way round |
| `CanonicalJsonInjective.PrintWellFormed` | packages/notifications/src/account-proof.ts:159-174 | the text is well-formed UTF-16, so encoding it to bytes loses nothing |
| `CanonicalJsonInjective.SameIsNorm` | packages/notifications/src/account-proof.ts:166-171 | equality up to key order is equality with sorted keys |
| `CanonicalJsonLayout.BeforeExactly` | packages/notifications/src/account-proof.ts:166-168 | keys are ordered by their first differing UTF-16 unit, a prefix first |
| `CanonicalJsonLayout.PrintedKeysAscend` | packages/notifications/src/account-proof.ts:166-171 | the keys of every printed object ascend in that order |
| `CodecTheorems.BuiltIsCanonical` | packages/hyperliquid/src/actions/builders.ts:297-318 | canonicalization returns every built action unchanged, except that it refuses a modification of order 0 |
| `CodecTheorems.CanonicalizeIdempotent` | packages/hyperliquid/src/actions/codec.ts:217-340 | canonicalizing an accepted value again changes nothing |
| `CodecTheorems.OrderWireFixed` | packages/hyperliquid/src/actions/codec.ts:122-179 | a built limit order is its own canonical form |
| `CodecTheorems.TriggerWireFixed` | packages/hyperliquid/src/actions/codec.ts:180-215 | a built position trigger is its own canonical form |
| `CodecTheorems.ModifyActionFixed` | packages/hyperliquid/src/actions/codec.ts:244-262 | a modification in wire order is accepted if and only if its order id is not 0 |
| `CodecMeaning.BuiltSays` | packages/hyperliquid/src/actions/builders.ts:78-318 | every built action, read by property name, says what its intent asks for: type and grouping, asset, side (true exactly for a buy), price, size (0 for a position trigger), reduce-only, time in force or trigger, client id in lower case, cancellations in order, leverage and margin mode |
| `CodecMeaning.BuildsExactly` | packages/hyperliquid/src/actions/builders.ts:31-318 | an intent is built if and only if its side, kinds and ids are valid, its decimals are in shortest form and greater than zero, and its cancellations are between 1 and 100 of one kind |
| `CodecMeaning.PositiveTextIs` | packages/hyperliquid/src/actions/builders.ts:48-59 | the two decimal patterns accept exactly the shortest-form decimals whose value is greater than zero |
| `CodecMeaning.AcceptedIsBuilt` | packages/hyperliquid/src/actions/codec.ts:217-340 | the canonical form of an accepted action, whatever the order of its properties, is what the builders make of the intent it states |
| `CodecMeaning.CanonicalAreBuilt` | packages/hyperliquid/src/actions/codec.ts:217-340 | the canonical actions are exactly the built ones, but for modifications of order 0 |
| `CodecMeaning.BuiltInWireOrder` | packages/hyperliquid/src/actions/builders.ts:78-318 | built actions list their properties in the order in which they are hashed |
| `CodecMeaning.AcceptedInWireOrder` | packages/hyperliquid/src/actions/codec.ts:217-340 | so do the canonical forms of accepted ones |
| `PreimageTheorems.EncodeUnique` | packages/hyperliquid/src/actions/codec.ts:344-344 | the MessagePack encoding of actions is self-delimiting: equal bytes with anything after them come from equal values |
| `PreimageTheorems.HeadRead` | packages/hyperliquid/src/actions/codec.ts:344-344 | every MessagePack header used is read back, whatever follows it |
| `PreimageTheorems.PreimageDetermines` | packages/hyperliquid/src/actions/codec.ts:342-371 | equal preimages come from the same canonical action, nonce, normalized vault and expiry |
| `PreimageTheorems.CanonicalIsEncodable` | packages/hyperliquid/src/actions/codec.ts:217-344 | every canonical action, built or not, is encoded if and only if its texts are shorter than 2^32 |
| `PreimageTheorems.BuiltIsEncodable` | packages/hyperliquid/src/actions/codec.ts:342-344 | every built action whose decimals are shorter than 2^32 is encoded, the refused modification of order 0 included |
| `PreimageTheorems.PreimageDependsOnly` | packages/hyperliquid/src/actions/codec.ts:342-371 | nothing else enters the preimage |
| `PreimageLayout.PreimageLaidOut` | packages/hyperliquid/src/actions/codec.ts:342-371 | the preimage is the encoded action, eight bytes that denote the nonce, 0 or 1 with the twenty bytes of the vault, and nothing or 0 with eight bytes that denote the expiry |
| `DecimalTheorems.CompareIsOrder` | apps/api/src/rules/evaluator.ts:111-154 | the comparison succeeds exactly on decimals, and is the order of the numbers they denote, for any length |
| `DecimalTheorems.ComparePreorder` | apps/api/src/rules/evaluator.ts:111-121 | the comparison is reflexive, antisymmetric and transitive |
| `DecimalTheorems.CanonicalEqual` | packages/hyperliquid/src/actions/constants.ts:1-3 | on canonical positive decimals the comparison is 0 if and only if the strings are identical |
| `DecimalTheorems.DigitsCompare` | apps/api/src/rules/evaluator.ts:144-150 | comparing unsigned digits is comparing the numbers |
| `DecimalTheorems.ParsedSign` | apps/api/src/rules/evaluator.ts:123-142 | the parsed sign is the sign of the number |
| `Rules.AlertsExactlyAtCrossings` | apps/api/src/rules/rule-worker.ts:242-274 | a metric rule alerts if and only if the update is a delta at or past its threshold and the recorded sample immediately before was strictly on the other side |
| `Rules.FarSideBetweenAlerts` | apps/api/src/rules/evaluator.ts:74-84 | between two alerts some recorded sample lies strictly on the far side |
| `Rules.InvalidRuleNeverAlerts` | apps/api/src/rules/evaluator.ts:175-188 | a rule with an invalid threshold or scope never alerts |
| `Rules.RuleState.HandleUpdate` | apps/api/src/rules/rule-worker.ts:204-231 | a metric rule alerts at most once per update, and exactly when the update is a delta at or past the threshold and the sample recorded before was strictly on the other side, with the category of its metric; an execution rule alerts once per execution that concerns it; an invalid rule never; and the last sample is recorded |
| `Rules.SampleCrosses` | apps/api/src/rules/evaluator.ts:53-84 | the evaluator matches a sample of its own rule exactly on a crossing |
| `Rules.MatchExactly` | apps/api/src/rules/evaluator.ts:49-93 | an evaluation that does not throw finds an execution of the rule's own type, or a crossing of its own metric by value, for the same network, market and account, with the category of that metric; and nothing else |
| `Rules.ThrowsExactly` | apps/api/src/rules/evaluator.ts:175-205 | it throws if and only if the threshold or a sample is no decimal, or scope and account link disagree |
| `Migrations.Inspect` | apps/api/src/db/migrations.ts:314-376 | accepts exactly the prefixes of the migrations with at most the last entry in a concurrent phase, and reports current and pending version |
| `Migrations.Database.Migrate` | apps/api/src/db/migrations.ts:76-197 | wherever it stops the history stays such a prefix and never shrinks; if it returns, exactly versions 1 to target are applied; a history it did not write is left alone; when nothing fails, nobody interferes and no foreign index stands under a defined name, it returns if and only if the target lies between the recorded version and the last one, on a history of its own |
| `Migrations.Database.Record` | apps/api/src/db/migrations.ts:108-129 | the recording transaction appends one row or changes nothing |
| `Migrations.Database.MarkApplied` | apps/api/src/db/migrations.ts:142-161 | a concurrent migration is marked applied only when its transaction reads the gates closed and then each of its indexes valid, ready and as defined, each statement with its own view |
| `Migrations.Database.Rollback` | apps/api/src/db/migrations.ts:199-239 | with other runs and rollbacks between its transactions the history stays such a prefix, and if it returns at most the target is left; alone it removes exactly the versions past the target; it refuses a pending history; alone and without a failure it returns if and only if the target exists and the history is its own and not pending |
| `Migrations.Database.RollbackOne` | apps/api/src/db/migrations.ts:212-237 | one transaction drops exactly the last version or nothing, and returns only when that version is gone |
| `Migrations.CheckIndexes` | apps/api/src/db/migrations.ts:522-540 | true if and only if every declared index was found on its table, as a btree, not unique, with its keys and condition, valid and ready |
| `Migrations.AfterAnyRuns` | apps/api/src/db/migrations.ts:76-239 | after any sequence of runs and rollbacks, each stopped anywhere and with others between the transactions of a rollback, the history is a prefix with at most its last entry applying, and every applied concurrent migration was certified |
| `Windows.WindowBound` | apps/api/src/monitor/hyperliquid-source.ts:608-624 | every half-open 60-second window of a paced log holds at most the limit |
| `Windows.HyperliquidSource.WindowsHold` | apps/api/src/monitor/hyperliquid-source.ts:364-418 | after any calls, REST weight, connection attempts and sent messages respect their limits in every half-open 60-second window |
| `Windows.HyperliquidSource.AdmitRestWeight` | apps/api/src/monitor/hyperliquid-source.ts:608-624 | the weight is admitted if and only if it fits the limit beside what is less than a minute old at the first clock read; then all of it, at the times read, and otherwise none |
| `Windows.HyperliquidSource.ReserveConnection` | apps/api/src/monitor/hyperliquid-source.ts:232-262 | a connection is granted if and only if there is room for it, for one more attempt beside those less than a minute old, and in the governor; an attempt is recorded exactly when it is granted |
| `Windows.HyperliquidSource.SendBudgeted` | apps/api/src/monitor/hyperliquid-source.ts:395-418 | the socket is asked if and only if one more message fits beside those less than a minute old and those being sent; a message is recorded exactly when the socket took it, and its reservation is released |
| `Capacity.CapacityGovernor.TryReserve` | apps/api/src/monitor/capacity.ts:42-65 | succeeds exactly when observed, unreleased and new usage fit the limit; reserved capacity stays the sum of unreleased reservations |
| `Capacity.CapacityGovernor.Release` | apps/api/src/monitor/capacity.ts:58-64 | releases once; reserved capacity stays the sum of unreleased reservations |

## Left out

- Retention cleanup, receipts, health metrics, admission limits, credentials, challenges and token rotation: per-call guards and housekeeping that would only add easy members. The lost-lease guard of deferReceipt (apps/api/src/db/notification-store.ts:2984-2987) cannot fire, so no bound on receipt polls is claimed.
- The delivery worker's hooks and telemetry are not modelled. In runs with other steps its runOnce is a program counter, so that a crash and any other step can come between two of its awaits.
- One clock serves the database and the workers in the dispatch model; skew between them is not modelled.
- The order in which records are sorted when a catalog is read, retry delays and intervals (a step carries its next attempt time), and builder_total, which no decision reads, are not modelled.
- Records of the catalog carry only the fields a store looks at; the refinement assumes distinct ids within a fetch, which the stores' keys demand.
- A D1 batch reads the sync row before it writes; the write's own lease condition makes the two one step.
- The forced fence of a replay is a step of the restore histories only; the dispatch runs have no restore, so what a worker does that was authorized before the database was set back is not covered.
- Loading a backup and prepareRestore are one step, which ends the transactions of the old database; a replay may start from any watermark read earlier, which only adds histories.
- Key reuse: the restore theorems take installation and link ids that are never inserted twice, and backups that hold the effects of the items up to their watermark.
- Push-token tombstones: no operation appends one, and the replay branch for them is not modelled. Commits may append without the in-flight check that precedes it, which only adds histories. The validation of stored tokens during a replay is not modelled.
- Listeners and hooks that call back into the registry while they are being notified are not modelled, nor are lease tokens across a release, which deletes the row.
- The release of a websocket connection's counter and the sharding of market streams are not modelled; the stream pool and the monitor source of apps/api/src/monitor/hyperliquid-source.ts are one class here. Limits are integer parameters, not 70 percent of documented values.
- The monitor registry is proved as a state machine on values, with one entry object on the heap; the map of entries is not a heap object.
- Identifier formats (rule ids, source ids, market ids) in the evaluator, the decoding of monitor payloads into samples, and the bounded queue of a rule worker are not modelled; a run is the updates one rule state handled.
- Sparse arrays, and negative zero, which prints as zero, are outside the JSON values; UTF-8 encoding of well-formed text and SHA-256 are not modelled.
- MessagePack formats the actions do not use (negative numbers, floats, binary, text above U+007F, nil) are not modelled; the checksum letter case of an address is not modelled, since the bytes determine it.
- Error messages of the builders and the codec are not modelled; a throw is the value None.
- Splitting the source of a concurrent migration is taken to succeed.
- HTTP routing, configuration, mobile screens, account parsers and clients: plumbing.
