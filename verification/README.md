# Verified model of the courtroom back end's durable state machines

The Convex back end keeps several protocols whose correctness only shows over whole runs: clients retry, workers
go stale, scheduled messages arrive late or twice, and every mutation is one atomic, serializable step that either
commits or throws and rolls back. This project models those protocols in Dafny 4.11 and proves what they promise
for every run. `dafny verify dfyconfig.toml` checks everything.

| modules | what they model |
|---|---|
| TrialEngine, TrialCodec, TrialStore, TrialSafety, TrialRuns, TrialReload, TrialLimits | the event-sourced trial store: events, projections, snapshots, receipts, retries, paged reload, row encoding |
| CompileQuota, CompileClaims, CompileStore, CompileSafety | the case-compile lease protocol, its permit window, draft registration and publication rows |
| StorageClaims, StorageSweep, StorageSafety | the fenced, paginated orphan sweeper and the upload cleanup |
| FinalBound | the interruption lease whose clock is the caller's and whose generation wraps, and the gate of rulings and answers |
| Migration | resumable legacy migrations with batch replay |
| ReviewIds, HumanReview, ReviewReplay, ReviewAudit, ReviewAnnotator, ReviewExample | human-review annotation, its inverse, and its audit |
| ReviewSize, Publications | publishing a reviewed draft within the record size limit, republishing it, and looking it up |
| PublicationRows | publications as the compile store sees them |
| DigestCodec | SHA-256 digests in hex and base64 (sections 4 and 5 of RFC 4648) |
| MicStream, MicProcessor | the microphone resampler, framer and credit flow control |
| Outcomes, Sequences | absent values, mutation results, index reads |

Objects that update fields in place are classes; each method is proved equal to a step function, and runs are
sequences of steps. Conventions:

- The trial engine's courtroom rules are a function-valued parameter (`Rules`), so the store's theorems hold for any
  rules; the envelope, numbering and fold of the engine are concrete. Payloads and state bodies stand for their JSON
  texts, so stringify and parse are inverse, and schemas are predicates or parameters. In a case graph the rules on
  provenance are concrete and the rest of the schema is the parameter `rules`.
- SHA-256 is an injective constructor, or a function with injectivity as a hypothesis where it is needed. UUIDs and
  storage ids are fresh, as a hypothesis on a run. `Date.now()` is one reading per mutation.
- A pagination cursor is the position it stands for; what `paginate` returns is a parameter that meets its contract.
- In a reviewed graph the provenance lists are collections in walking order; an edit's changed fields are a set.

Results that differ from what the code or its comments suggest:

- `annotateHumanReview` accepts a review with more than 9999 edits plus id collisions, but stripping does not undo it,
  because the strip pattern reads exactly four digits (`ReviewReplay.PublicationReplaysExactly`,
  `ReviewExample.TenThousandEditsAreNotReplayable`). This concerns the two functions alone: a stored record is at most
  900000 bytes, so a publication has at most 7627 edits and collisions (`Publications.StoredEditsAreFew`), a larger
  review is refused (`Publications.OverLimitIsRefused`), and every stored publication is found
  (`Publications.PublicationIsFound`).
- The sweeper can miss an associated claim when a younger one was active later; the object is then kept
  (`StorageClaims.AssociatedClaimHidden`).
- The default page size of 25 exceeds the backfill's maximum of 10, so a backfill without a limit always throws
  (`Migration.BackfillNeedsALimit`).
- The canonical replay stops working beyond 5000 events, although appends and reloads do not
  (`TrialReload.CanonicalReplayExactly`). Pausing and resuming takes a trial there (`TrialLimits.LongTrialIsNotReplayable`).
- The sweeper decodes two families of digest spellings that upload registration refuses
  (`DigestCodec.DecodesButDoesNotMatch`).

## Model

| member | source | states |
|---|---|---|
| TrialRuns.EveryRunKeepsStore | convex/trialEvents.ts:2549-2840 | from the empty store, after any interleaving of new, retried and conflicting creations and appends on any trials: every projection is the engine's fold of all its events, every snapshot the fold of its prefix, sequences are gapless from one, the newest snapshot lies within its interval, and receipts and event rows correspond one to one |
| TrialSafety.HeadIsTheFold | convex/trialEvents.ts:2350-2433 | loading the head of such a trial always succeeds and yields the fold of all events, so no gap, limit, snapshot or projection mismatch is ever raised |
| TrialSafety.SnapshotPlusSuffixIsFold | convex/trialEvents.ts:2362-2421 | from any snapshot, not only the newest, replaying the rows after it gives exactly the fold from event one |
| TrialSafety.NewestIsFound | convex/trialEvents.ts:2362-2374 | the newest snapshot is the one selected and is at most 24 events behind the head |
| TrialSafety.CommitKeepsStore | convex/trialEvents.ts:2549-2654 | persisting a commit onto the head of any trial keeps every invariant of every trial |
| TrialRuns.AppendIsPlain | convex/trialEvents.ts:2820-2840 | an append that rebuilds the head and looks for duplicate events and snapshots does exactly what an append that trusted the projection would do, so those checks never fire |
| TrialRuns.ActionsCommitOnce | convex/trialEvents.ts:2568-2572 | no action id is committed twice, within a trial or across trials |
| TrialRuns.RetryReturnsOriginal | convex/trialEvents.ts:2815-2819 | repeating a successful append after any further steps returns the original receipt marked replayed and changes nothing |
| TrialRuns.CreateRetryReturnsOriginal | convex/trialEvents.ts:2696-2711 | the same for creating a trial, however far the trial has gone since |
| TrialRuns.ReceiptMatchesExactly | convex/trialEvents.ts:2533-2547 | with an injective request hash a receipt answers exactly the action it was issued for |
| TrialRuns.UsedIdIsRefused | convex/trialEvents.ts:2533-2547 | a different action under a used id is refused by creation and append alike, and nothing changes |
| TrialRuns.RunExtends | convex/trialEvents.ts:2573-2637 | along any run receipts never change, event rows are only appended, and a trial's owner, graph, case and side stay |
| TrialRuns.RebuiltActionReplays | convex/hearingRuntime.ts:4863-4876 | appending again the action rebuilt from any stored row is recognised as a replay and never an id conflict |
| TrialEngine.ReplayInvertsCommit | src/domain/trial-engine/engine.ts:86-130 | the action rebuilt from a committed event is the action, and replaying the event gives the committed state |
| TrialEngine.ReplayedShape | src/domain/trial-engine/engine.ts:132-151 | a stream that folds has versions and sequences 1, 2, 3 and on, event ids named after actions, each action once, and one trial |
| TrialEngine.ReplaySplits | convex/trialEvents.ts:2404-2421 | folding a prefix and then the rest is folding the whole |
| TrialEngine.CommitNumbers | src/domain/trial-engine/reducer.ts:24-33 | a commit adds one to version and sequence, appends both ids, and keeps trial and case |
| TrialCodec.RowRoundTrip | convex/trialEvents.ts:2460-2518 | a row written for an event decodes to the event, and the action rebuilt from the row is the event's action |
| TrialCodec.RoundTripsExactly | convex/trialEvents.ts:2248-2305 | for any event that encodes, both readings give it back if and only if its model metadata has non-empty model, prompt and schema names |
| TrialCodec.EncodingIsInjective | convex/trialEvents.ts:2460-2518 | two well-formed events with one row are one event |
| TrialReload.ReloadReturns | convex/trialEvents.ts:4947-5046 | a valid reload never fails and returns the newest snapshot beyond the client, if any, and the next events in order |
| TrialReload.FollowIsTheSuffix | convex/trialEvents.ts:5003-5045 | on a quiescent trial, following `nextAfterSequence` terminates and the pages are exactly the events after the base |
| TrialReload.ReloadRebuildsProjection | convex/trialEvents.ts:4989-5045 | those events fold the returned snapshot, or the client's own state when none is returned, into the projection |
| TrialReload.ReachableIsServable | convex/trialEvents.ts:4965-4987 | every trial of a reachable store meets what reloading relies on |
| TrialReload.CanonicalReplayExactly | convex/trialEvents.ts:5332-5389 | the full canonical replay returns all events if there are at most 5000 and fails with the replay limit otherwise |
| TrialLimits.LongTrialIsNotReplayable | convex/trialEvents.ts:5332-5389 | with the engine's rules for pausing and resuming, a start and 5000 alternating pauses and resumptions all succeed, the head loads, and the canonical replay fails with the replay limit |
| TrialStore.TrialTables.LoadHead | convex/trialEvents.ts:2350-2433 | the head loader with its snapshot search and replay loop computes the specified result, error by error |
| TrialStore.TrialTables.ReplaySuffix | convex/trialEvents.ts:2411-2421 | the replay loop is the recursive replay, including which error it stops at |
| TrialStore.TrialTables.Persist | convex/trialEvents.ts:2549-2654 | inserts event, snapshot and receipt and updates the projection as specified, or changes nothing |
| TrialStore.TrialTables.Create | convex/trialEvents.ts:2665-2729 | creates, replays or refuses as specified, or changes nothing |
| TrialStore.TrialTables.Append | convex/trialEvents.ts:2782-2840 | appends, replays or refuses as specified, or changes nothing |
| CompileQuota.AtMostFivePermitsPerWindow | convex/caseCompileQuota.ts:110-160 | over any run with a clock that does not go back, no half-open window of 600000 ms holds more than five grants of a client key, although requests of other clients delete rows |
| CompileQuota.PrunedRowIsDead | convex/caseCompileQuota.ts:145-156 | a row old enough to be pruned holds no attempt that could still count |
| CompileQuota.RequestKeepsQuota | convex/caseCompileQuota.ts:110-160 | one request keeps every row exact: it lists the grants of its key that still count |
| CompileQuota.RetryAfterIsExact | convex/caseCompileQuota.ts:70-99 | with stored attempts no later than now, a denial's retry time is in 1 to 600 and is the least whole number of seconds after which a request is granted |
| CompileQuota.ClampsActOnlyOnBackwardClock | convex/caseCompileQuota.ts:75-90 | neither clamp changes a retry time unless an attempt is later than now |
| CompileQuota.GrantedOnceOldestLeaves | convex/caseCompileQuota.ts:70-90 | a full row is granted again exactly once its oldest attempt has left the window |
| CompileQuota.SortSpec | convex/caseCompileQuota.ts:71-73 | the attempts considered are the stored ones, in ascending order |
| CompileQuota.QuotaTable.OldestStale | convex/caseCompileQuota.ts:145-153 | the page to prune holds the oldest stale rows, up to its size |
| CompileQuota.QuotaTable.ConsumePermit | convex/caseCompileQuota.ts:110-160 | rewrites the client's row and prunes the page as specified, or changes nothing |
| CompileClaims.EveryRunIsLeaseSafe | convex/caseCompileClaims.ts:330-533 | over every run of one claim with a clock that does not go back, once a later generation is gained every expiry handed to an earlier one has passed or that generation had released the lease; generations are gained in order, each once |
| CompileClaims.StaleGenerationChangesNothing | convex/caseCompileClaims.ts:429-533 | a heartbeat, release or completion by an overtaken generation is refused and leaves the claim as it is, with any token at any time |
| CompileClaims.OvertakenForever | convex/caseCompileClaims.ts:429-533 | an overtaken generation stays powerless after any further commands, with no assumption on clocks |
| CompileClaims.LiveLeaseIsExclusive | convex/caseCompileClaims.ts:360-395 | while a lease lives, its own token gets it again unchanged and any other is told to wait exactly the seconds until its expiry |
| CompileClaims.AcquiredMeans | convex/caseCompileClaims.ts:382-426 | a lease is given either to the same live token without charge, or as the next generation after expiry or a retryable failure with charge |
| CompileSafety.EveryRunKeepsStoreInv | convex/caseCompileClaims.ts:714-827 | over every run of acquisitions, heartbeats, releases, registrations and publications from the empty database: claims are keyed and unique per upload and case, generations equal permits granted, and drafts and completions match |
| CompileSafety.ReachableClaims | convex/caseDrafts.ts:308-424 | in every reachable database a durable draft exists if and only if its claim is completed, uploads and cases have at most one claim, and a claim's generation is the number of permits granted to it |
| CompileSafety.RunsRespectQuota | convex/caseCompileClaims.ts:714-827 | over every such run with a clock that does not go back between permit decisions, no ten-minute window holds more than five permits of a client, every quota row stays exact, and permits and paid generations are equally many |
| CompileSafety.PublishKeepsInv | convex/caseDrafts.ts:533-556 | inserting the publication of a draft, with the rebuild flag that PublicationRows proves of it, keeps every durable draft durable: the replay lookup reconstructs draft and publication together |
| PublicationRows.PublishIsPublishRow | convex/caseDrafts.ts:447-566 | under the mapping of graph rows, a publication that inserts a row is the compile store's publishing step: the row may be inserted there, its rebuild flag included, and the tables stay mapped |
| PublicationRows.PublishedReconstructs | convex/caseCompileClaims.ts:604-621 | a published case, seen in the compile store, passes the replay lookup's checks on draft and publication |
| CompileSafety.AcquireConflictBranchesUnreachable | convex/caseCompileClaims.ts:724-749 | the conflict on a completed claim without a durable draft is unreachable, and so is creating a completed claim for a draft that has none |
| CompileSafety.FirstRegistration | convex/caseDrafts.ts:308-424 | a first registration finds no rows of its upload or case and leaves claim and draft completed together |
| CompileStore.CompileDatabase.AcquireLease | convex/caseCompileClaims.ts:714-750 | looks up replay and claim, consumes quota and persists as specified, or changes nothing |
| CompileStore.CompileDatabase.ReadReplay | convex/caseCompileClaims.ts:581-624 | the durable-replay lookup over upload, draft and publication rows answers, or conflicts, as specified |
| CompileStore.CompileDatabase.RegisterCompiledDraft | convex/caseDrafts.ts:162-425 | checks the stored object and the record size in the source's order, inserts uploads, sources and graph and completes the claim in one step, replays an exact registration, or changes nothing |
| StorageSafety.EveryRunIsSafe | convex/caseStorageReconciler.ts:337-617 | under any order, delay, duplication or forgery of page messages and any takeover: at most one sweep runs and it is the lock's with the newest generation, every upload row's object exists, sweep counters balance with scans, audits and pages, scans ascend and cover, no page is processed twice, and every deletion was justified |
| StorageSafety.PageDeletesExactly | convex/caseStorageReconciler.ts:480-591 | a page message removes an object if and only if the message passes the fence, the object is on the page, the sweep deletes, its type and digest are recognised, a claim accounts for it and no upload row names it; and then it is more than seven days old |
| StorageSafety.FencedMessageChangesNothing | convex/caseStorageReconciler.ts:447-478 | a message is processed if and only if it passes the fence, and otherwise changes nothing |
| StorageSafety.FinishedForever | convex/caseStorageReconciler.ts:263-276 | a completed or fenced sweep keeps its row and its scans through any further run |
| StorageSafety.StartedSweepIsNewest | convex/caseStorageReconciler.ts:345-420 | a started sweep's generation exceeds every earlier one and it is then the only running sweep |
| StorageSafety.CompletedSweepScannedAll | convex/caseStorageReconciler.ts:480-601 | when a sweep completes, every object below its cutoff that existed from its start was scanned exactly once |
| StorageSafety.IntegrityKept | convex/caseUploadCleanup.ts:74-98 | every step, including cleanup, upload, registration, draft registration, new upload versions and sweep pages, keeps each upload row pointing at an existing object |
| StorageSafety.WalkExactly | convex/caseStorageReconciler.ts:491-591 | deleting while the page is walked is the same as judging every candidate against the objects at its start |
| StorageSafety.WalkBalances | convex/caseStorageReconciler.ts:278-311 | each candidate is counted on one counter, eligible is deleted plus dry-run, audits grow by deleted, and a dry run deletes nothing |
| StorageSafety.WalkCountsBranches | convex/caseStorageReconciler.ts:491-591 | each of the eight outcome counters grows by exactly the page's candidates whose outcome, judged at the start of the page, is that one |
| StorageSafety.IndexPagesMissNothing | convex/caseStorageReconciler.ts:491-500 | on a page of the index nothing is missing or too young |
| StorageSafety.DeletedDigestNamesClaim | convex/caseStorageReconciler.ts:507-548 | with the source's digest decoder, everything ever deleted had its claim's digest stored in hex or one of three base64 spellings |
| StorageSweep.CleanupDeletesExactly | convex/caseUploadCleanup.ts:39-98 | cleanup deletes exactly an existing, unreferenced object of an unregistered upload |
| StorageSweep.CaseStorage.StartOrphanStorageSweep | convex/caseStorageReconciler.ts:337-420 | starts, reports running or takes over as specified, or changes nothing |
| StorageSweep.CaseStorage.ReconcileOrphanStoragePage | convex/caseStorageReconciler.ts:429-617 | fences, refuses or processes the page as specified |
| StorageSweep.CaseStorage.VisitCandidate | convex/caseStorageReconciler.ts:491-591 | the loop body takes the branch, counter, deletion and audit row of the candidate's verdict |
| StorageSweep.CaseStorage.CleanupOrphanedStorage | convex/caseUploadCleanup.ts:68-98 | keeps or deletes the object as the decision says |
| StorageClaims.FoundClaimIsAssociated | convex/caseStorageReconciler.ts:511-548 | a claim the lookup keeps is a stored claim associated with the object |
| StorageClaims.ClaimFoundExactly | convex/caseStorageReconciler.ts:511-548 | the lookup finds a claim if and only if one was created in the day before the object, or the claim most recently active within a day of it is no younger than the object |
| StorageClaims.AssociatedClaimHidden | convex/caseStorageReconciler.ts:511-548 | an associated claim is missed if and only if none was created in the day before and a younger claim was active at least as late in the window |
| StorageClaims.HiddenClaimExample | convex/caseStorageReconciler.ts:511-548 | concrete claims for which the lookup misses an associated one |
| FinalBound.EveryFinalBoundAppendIsFenced | convex/trialEvents.ts:4099-4151 | in every run, without any clock assumption and with trusted appends in between, each gated ruling or answer of an interruption whose id has the final-bound prefix was committed under the newest claim of that interruption in that transaction |
| FinalBound.TakenOverForever | convex/finalBoundInterruptionClaims.ts:83-148 | with fresh token hashes, once a takeover is won no earlier credential passes again in any later state, whatever `now` is sent and however often the generation wraps |
| FinalBound.EarlierClaimPassesExactly | convex/finalBoundInterruptionClaims.ts:161-201 | without fresh tokens, an earlier claim passes if and only if it carries the newest token, a whole number of generation wraps lies between, and the newest lease is itself active and unexpired |
| FinalBound.GenerationsRepeatEvery | convex/finalBoundInterruptionClaims.ts:9-12 | two claims share a generation if and only if a multiple of the largest safe integer separates them |
| FinalBound.NextGenerationWraps | convex/finalBoundInterruptionClaims.ts:9-12 | the next generation of the k-th claim is that of the (k+1)-th, wrapping to one |
| FinalBound.GateMeans | convex/trialEvents.ts:176-289 | a ruling or answer admitted to a final-bound interruption sent a credential for that interruption, and for the ruling's decision, that holds the lease in the expected phase, and interruption, objection, response, question and source event have the canonical shape |
| FinalBound.OnlyNewestHolds | convex/finalBoundInterruptionClaims.ts:161-201 | every credential that passes is the newest claim won, for any `now` |
| FinalBound.LeaseTable.Claim | convex/finalBoundInterruptionClaims.ts:74-148 | claims, waits, takes over or refuses as specified, or changes nothing |
| FinalBound.LeaseTable.Renew | convex/finalBoundInterruptionClaims.ts:226-239 | extends the holder's lease as specified, or changes nothing |
| FinalBound.LeaseTable.Release | convex/finalBoundInterruptionClaims.ts:240-254 | releases the holder's lease as specified, or changes nothing |
| Migration.EveryRunCountsOnce | convex/migrations.ts:281-492 | over every run of retried, reordered and rejected batches of both migrations, with other writers inserting graphs: processed is the rows before the cursor, and inserted plus skipped; inserted is the graphs it wrote; on completion every legacy case version has exactly one graph |
| Migration.ImportHasEffect | convex/migrations.ts:332-431 | a page leaves each of its rows with exactly one graph, inserted or found, and no case version with two |
| Migration.LastBatchReplays | convex/migrations.ts:300-313 | delivering the last batch again, with any cursor and page, returns its stored reply and changes nothing |
| Migration.EarlierCursorRejected | convex/migrations.ts:328-330 | a batch whose cursor is not the checkpoint's never changes anything |
| Migration.BackfillNeedsALimit | convex/migrations.ts:50-59 | a backfill without a limit is always refused; valid limits are exactly 1 to 10 |
| Migration.OneRowAlwaysFits | convex/migrations.ts:410-415 | a one-row page of an importable row always fits the JSON budget, so the backfill can always advance |
| Migration.FreshDeliveriesComplete | convex/migrations.ts:281-492 | if every legacy row is importable, a run completes the backfill once it holds a fresh one-row delivery for each row left and one more, whatever larger pages, retries, stale cursors and other writers come in between |
| Migration.OneRowRunCompletes | convex/migrations.ts:281-492 | such a run exists from every state: one-row pages under batch ids that differ from one to the next complete the backfill |
| Migration.MigrationTables.BackfillPage | convex/migrations.ts:281-492 | replays, refuses or imports the page as specified, rolling back on an error in the middle |
| Migration.MigrationTables.ImportPage | convex/migrations.ts:332-431 | the import loop computes the specified batch and stops at the same error |
| Migration.MigrationTables.InventoryPage | convex/migrations.ts:178-274 | replays, refuses or counts the page as specified |
| ReviewReplay.PublicationReplaysExactly | convex/caseCompileReplay.ts:279-294 | stripping and annotating again rebuilds an annotated graph and its audit if and only if edits plus id collisions number at most 9999 |
| ReviewReplay.StripInvertsAnnotation | convex/caseCompileReplay.ts:139-161 | stripping the annotated graph gives the reviewed graph back if and only if the last review sequence has at most four digits |
| ReviewReplay.FourDigitsSuffice | convex/caseServiceBoundary.ts:456-466 | the last review sequence has four digits if and only if edited entities plus collisions are at most 9999 |
| ReviewReplay.EachEntityGains | convex/caseServiceBoundary.ts:468-488 | an unchanged entity gains nothing; a changed one gains exactly one server entry naming exactly its changed fields under an unused id |
| ReviewAudit.AcceptedExactly | convex/caseServiceBoundary.ts:423-451 | annotation accepts a reviewed graph exactly when both graphs are valid, provenance rules included, the immutable fields and the provenance are the draft's, and the publication id is well formed |
| ReviewAudit.AnnotatedIsValid | convex/caseServiceBoundary.ts:650-666 | the annotated graph passes its schema again: the fresh ids are well formed and distinct, and the server's entries meet the rules on provenance |
| ReviewAudit.AuditMeetsItsRules | convex/caseServiceBoundary.ts:306-344 | the audit's totals, recorded changes and truncation flag satisfy the audit's own count rules |
| ReviewExample.TenThousandEditsAreNotReplayable | convex/caseCompileReplay.ts:144-148 | a case of ten thousand facts whose review annotation accepts, under any schema that accepts the two graphs apart from provenance, and which stripping and annotating again does not reproduce |
| ReviewSize.EditsTakeRoom | convex/caseDrafts.ts:147-151 | the provenance of an annotated graph takes at least 118 bytes of JSON for every edit and every collision |
| Publications.EveryRunKeepsCase | convex/caseDrafts.ts:447-566 | whatever anyone publishes and registers, in any order, a registered draft stays and its case has at most one publication, made from that draft by one review, which stays for good |
| Publications.RepublishExactly | convex/caseDrafts.ts:514-531 | once a case is published, its owner's request is answered if and only if it carries the same reviewed graph, and then as a replay that changes nothing |
| Publications.StoredEditsAreFew | convex/caseDrafts.ts:147-151 | a publication within the record size limit has at most 7627 edits and collisions |
| Publications.OverLimitIsRefused | convex/caseDrafts.ts:481-496 | a review with more is refused, whoever sends it and whatever is stored |
| Publications.PublicationIsFound | convex/caseCompileReplay.ts:168-312 | every stored publication is found: the owner's lookup returns the stored graph |
| Publications.EveryRunAnswers | convex/caseCompileReplay.ts:168-312 | after any publications and registrations by anyone, the owner's lookup answers the graph of the newest version of the case, and never conflicts |
| Publications.PublishThenLookup | convex/caseDrafts.ts:447-566 | the graph a successful publication or republication answers is what every later lookup returns |
| Publications.AnnotationIsRestorable | convex/caseServiceBoundary.ts:453-666 | putting the draft's provenance back into an annotated graph gives the reviewed graph, however many edits there were |
| Publications.DifferentReviewsDiffer | convex/caseServiceBoundary.ts:453-666 | two reviews of one draft annotate to the same graph if and only if they are the same |
| Publications.VisibleWhenRebuilt | convex/caseCompileReplay.ts:245-294 | of all the lookup checks on a stored publication only the rebuilding can fail |
| Publications.GraphTable.PublishCompiledDraft | convex/caseDrafts.ts:447-566 | inserts the publication, answers a replay, or refuses as specified without a change |
| ReviewIds.RecognisedExactlyToFourDigits | convex/caseCompileReplay.ts:144-148 | the strip pattern recognises a review id exactly up to number 9999 |
| ReviewIds.ReviewIdInjective | convex/caseServiceBoundary.ts:458-466 | different sequence numbers give different review ids |
| ReviewIds.NextFreeSkipsUsed | convex/caseServiceBoundary.ts:458-466 | allocation takes the first free number: everything skipped was in use |
| ReviewAnnotator.Annotate | convex/caseServiceBoundary.ts:423-666 | the cloning, counting and pushing algorithm computes the specified annotation or error |
| ReviewAnnotator.Annotator.RecordEntityEdit | convex/caseServiceBoundary.ts:468-488 | records one edit in place: provenance, counter, used ids and change list |
| ReviewAnnotator.StripProvenance | convex/caseCompileReplay.ts:155-160 | compacts one provenance list in place to what the draft had or the pattern does not match |
| DigestCodec.StoredDigestDecodesExactly | convex/caseStorageReconciler.ts:163-174 | decoding yields a digest if and only if the value is its hex in any mix of cases or its padded, unpadded or unpadded URL base64 |
| DigestCodec.MatchesDecodes | convex/storageIntegrity.ts:27-33 | whatever registration accepts for a digest decodes to that digest |
| DigestCodec.DecodesButDoesNotMatch | convex/storageIntegrity.ts:27-33 | what decodes but is not accepted is exactly hex with an upper-case digit and unpadded base64 that still uses plus or slash |
| DigestCodec.SpellingsDetermineDigest | convex/storageIntegrity.ts:27-33 | no stored value is accepted for two digests |
| DigestCodec.BlocksDecode | convex/caseStorageReconciler.ts:139-160 | decoding undoes encoding for every byte sequence with a two-byte tail, for any group code that inverts |
| DigestCodec.HexRoundTrip | convex/storageIntegrity.ts:4-25 | hex to bytes and back is the identity |
| DigestCodec.EncodeHex | convex/storageIntegrity.ts:4-25 | the encoding loop returns the specified base64, or refuses a value that is not a digest |
| DigestCodec.EncodeBytes | convex/storageIntegrity.ts:9-24 | three bytes at a time, appending, computes the recursive encoding |
| DigestCodec.DecodeChars | convex/caseStorageReconciler.ts:144-159 | four characters at a time, pushing, computes the recursive decoding and stops at a foreign character |
| DigestCodec.DecodeDigest | convex/caseStorageReconciler.ts:139-160 | decodes exactly 32 bytes from a padded or unpadded value |
| MicProcessor.Processor.Process | public/worklets/suits-mic-processor.js:156-188 | as played by the specification, a quantum fed while armed appends exactly its mono samples; afterwards the frames posted are the frames of the resampled stream so far, or those outran the acknowledgements by more than eight and it stopped after the last frame there was credit for |
| MicProcessor.Processor.EmitDue | public/worklets/suits-mic-processor.js:143-150 | the inner loop terminates and appends exactly the outputs due up to the newest sample |
| MicProcessor.Processor.AppendOutput | public/worklets/suits-mic-processor.js:106-134 | an output extends the buffer or completes a frame, which is posted with the next sequence or fails the processor exactly when eight are in flight |
| MicProcessor.Processor.OnMessage | public/worklets/suits-mic-processor.js:34-70 | arming succeeds exactly once at zero, an acknowledgement exactly in order with a frame in flight; no message consumes samples or posts frames |
| MicProcessor.Processor.UnarmedIsFresh | public/worklets/suits-mic-processor.js:42-51 | a processor that is not armed has consumed and sent nothing, so two of the arming checks cannot fail on their own |
| MicProcessor.SameSamplesSameFrames | public/worklets/suits-mic-processor.js:106-154 | two active processors of one sample rate that were fed the same samples have posted the same frames and hold the same buffer and position, however their input was cut |
| MicProcessor.DueNow | public/worklets/suits-mic-processor.js:143-149 | a position not past the newest sample is the next output's, and the worklet's segment formula gives its interpolation |
| MicStream.CountExactly | public/worklets/suits-mic-processor.js:136-154 | the number of outputs after n samples is the one m with (m-1) ratio at most n-1 and m ratio beyond it |
| MicStream.NextOutput | public/worklets/suits-mic-processor.js:144-149 | the k-th output interpolates at k times the ratio with a fraction from 0 to 1 on the newest segment |
| MicStream.ResampledIsPrefix | public/worklets/suits-mic-processor.js:136-154 | later samples never change earlier outputs |
| MicStream.SplittingQuantaChangesNothing | public/worklets/suits-mic-processor.js:174-186 | cutting a render quantum in two anywhere gives the same mono samples, also when channels are of unequal length |
| MicStream.PlayIsTheStream | public/worklets/suits-mic-processor.js:156-188 | feeding any quanta one by one posts the frames of the whole stream, or exactly as many as there was credit for and stops |
| MicStream.CutsPostTheSame | public/worklets/suits-mic-processor.js:156-188 | two cuts of one stream under one credit post the same frames, and both stop or neither does |
| MicStream.FramingIsTheStream | public/worklets/suits-mic-processor.js:106-134 | full frames of 320 and the remainder, in order, are the whole stream |
| MicStream.PcmFitsAndIsMonotone | public/worklets/suits-mic-processor.js:11-16 | conversion keeps order, fits 16 bits and maps full scale to the ends of the range |

## Left out

- HTTP routing, service secrets, JSON and zod parsing, authentication: plumbing.
- OpenAI and ElevenLabs calls, prompts, knowledge views and canonical request builders: they rest on code outside these protocols.
- The trial engine's courtroom rules beyond its envelope, numbering and fold; they are the parameter `Rules`.
- Legacy trial rows that need migration, and projections without owner or schema version: every modelled projection is an active version-three one.
- Bundle appends, committed performances, model-call audits, court records and generated-artifact readers: long field-by-field comparisons.
- Rows of cases that no registration wrote: CompileSafety's runs start from the empty database, and Publications takes one registered draft and arbitrary other rows.
- StorageSafety covers the upload writers, with one flag standing for each writer's other checks.
- CompileStore.MayPublish: the condition under which a publication row is inserted, without the refusals, which are Publications.Publish; PublicationRows maps the one model to the other.
- CompileStore.CompileDatabase.ReadReplay: the checks of the draft's audit and the upload's metadata against each other are not modelled; registration writes both.
- FinalBound.EveryFinalBoundAppendIsFenced: covers the two mutations that have the gate; `appendTrusted` and `appendTrustedForOwner` (convex/trialEvents.ts:4034-4092) commit any action, rulings and answers included, without a lease check, and are the step `TrustedAppend`.
- TrialLimits.LongTrialIsNotReplayable: only the rules for starting, pausing and resuming are modelled there, and the length of a state's text besides its ids is a parameter.
- HumanReview.EntryFits: the upper bound of 128 characters on ids, which a review id passes only from number 10^99 on, and of 1000 on notes.
- The trimming of strings by parsing: a graph is the parsed one.
- The lookup's checks on validation report, observability and upload metadata are one predicate of the upload and the draft.
- Uniqueness of rows looked up by claim id, sweep id, interruption, trial and checkpoint is structural: those tables are maps, and the throw on a second row is not modelled.
- Identifier length checks on owners, batches and trials, and the content-type normalisation of stored objects, which is one field of an object.
- IEEE rounding, NaN and infinite samples in the worklet: samples are real numbers.
- Sums of timestamps beyond the largest safe integer are exact in the model.
- Convex query limits, and the encoding of pagination cursors.
- `authorizeCommit` and `authorizeWitnessCommit`: the same lease check without an effect.
- HumanReview.ChangedFields: the changed field names are a set, so their sorted order and the exact wording of a note, which type and fields determine, are not modelled.
- MicProcessor.Processor.OnMessage: acknowledgement numbers are integers; a non-integer one fails like any wrong number.
- TrialCodec.RowRoundTrip: dates, blank tests and turn ids found in payloads are parameters.
