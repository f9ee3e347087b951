/** What every run of the compile mutations keeps: durable drafts and completed claims are the same
    thing, claims are unique per upload and per case, and every generation was paid for. */
module CompileSafety {
  import opened Outcomes
  import opened Sequences
  import opened CompileClaims
  import opened CompileStore
  import Quota = CompileQuota

  /** The permits the quota granted, each with the claim it was granted for. */
  type Ledger = seq<ClaimId>

  ghost function Paid(ledger: Ledger, id: ClaimId): nat {
    multiset(ledger)[id]
  }

  ghost predicate HasDraft(store: Store, identity: Identity) {
    CompletedReplayExists(store, identity) == Ok(true)
  }

  function OwnerOf(row: UploadRow): ClaimId {
    DeriveClaimId(Identity(row.ownerId, row.uploadId, row.caseId, row.contentDigest))
  }

  ghost predicate IsCompleted(claims: map<ClaimId, Claim>, id: ClaimId) {
    id in claims && claims[id].status == Completed
  }

  ghost predicate ClaimsKeyed(claims: map<ClaimId, Claim>) {
    forall id :: id in claims ==>
      SchemaAccepts(claims[id]) && claims[id].claimId == id && IdentityMatches(claims[id], claims[id].identity)
  }

  ghost predicate OneClaimEach(claims: map<ClaimId, Claim>) {
    forall a, b :: a in claims && b in claims
      && (claims[a].identity.uploadId == claims[b].identity.uploadId
          || claims[a].identity.caseId == claims[b].identity.caseId)
      ==> a == b
  }

  ghost predicate Paying(claims: map<ClaimId, Claim>, ledger: Ledger) {
    forall id :: Paid(ledger, id) == if id in claims then claims[id].generation else 0
  }

  ghost predicate RowsOwned(store: Store) {
    && (forall i :: 0 <= i < |store.uploads| ==> IsCompleted(store.claims, OwnerOf(store.uploads[i])))
    && (forall i :: 0 <= i < |store.graphs| ==> CaseCompleted(store.claims, store.graphs[i].caseId))
  }

  ghost predicate CaseCompleted(claims: map<ClaimId, Claim>, caseId: string) {
    exists id :: IsCompleted(claims, id) && claims[id].identity.caseId == caseId
  }

  ghost predicate CompletedAreDurable(store: Store) {
    forall id :: IsCompleted(store.claims, id) ==> HasDraft(store, store.claims[id].identity)
  }

  ghost predicate StoreInv(store: Store, ledger: Ledger) {
    && ClaimsKeyed(store.claims)
    && OneClaimEach(store.claims)
    && Paying(store.claims, ledger)
    && RowsOwned(store)
    && CompletedAreDurable(store)
  }

  // ---------------------------------------------------------------- facts about index reads

  lemma {:induction false} SelectNone<T>(rows: seq<T>, matches: T -> bool)
    ensures Select(rows, matches) == [] <==> forall i :: 0 <= i < |rows| ==> !matches(rows[i])
  {
    if rows != [] {
      var front, last := rows[..|rows| - 1], rows[|rows| - 1];
      SelectNone(front, matches);
      if !matches(last) && Select(front, matches) == [] {
        forall i | 0 <= i < |rows| ensures !matches(rows[i]) {
          assert i < |front| ==> rows[i] == front[i];
        }
      }
    }
  }

  lemma SelectPair<T>(rows: seq<T>, first: T, second: T, matches: T -> bool)
    ensures Select(rows + [first, second], matches)
         == Select(rows, matches) + (if matches(first) then [first] else []) + if matches(second) then [second] else []
  {
    assert rows + [first, second] == (rows + [first]) + [second];
    SelectSnoc(rows + [first], second, matches);
    SelectSnoc(rows, first, matches);
  }

  // ---------------------------------------------------------------- consequences of the invariant

  /** An upload without a completed claim has no rows at all, so the durable-replay lookup misses. */
  lemma NoRowsUnlessCompleted(store: Store, ledger: Ledger, id: ClaimId)
    requires StoreInv(store, ledger) && id in store.claims && store.claims[id].status != Completed
    ensures Select(store.uploads, ByUpload(store.claims[id].identity.uploadId)) == []
    ensures Select(store.graphs, ByCase(store.claims[id].identity.caseId)) == []
    ensures CompletedReplayExists(store, store.claims[id].identity) == Ok(false)
  {
    var identity := store.claims[id].identity;
    forall i | 0 <= i < |store.uploads| ensures store.uploads[i].uploadId != identity.uploadId {
      var owner := OwnerOf(store.uploads[i]);
      assert IsCompleted(store.claims, owner);
      assert IdentityMatches(store.claims[owner], store.claims[owner].identity);
    }
    forall i | 0 <= i < |store.graphs| ensures store.graphs[i].caseId != identity.caseId {
      assert CaseCompleted(store.claims, store.graphs[i].caseId);
    }
    SelectNone(store.uploads, ByUpload(identity.uploadId));
    SelectNone(store.graphs, ByCase(identity.caseId));
  }

  /** A durable draft belongs to a claim, and that claim is completed. */
  lemma DraftHasCompletedClaim(store: Store, ledger: Ledger, identity: Identity)
    requires StoreInv(store, ledger) && HasDraft(store, identity)
    ensures IsCompleted(store.claims, DeriveClaimId(identity))
    ensures store.claims[DeriveClaimId(identity)].identity == identity
  {
    var found := Select(store.uploads, ByUpload(identity.uploadId));
    SelectMembers(store.uploads, ByUpload(identity.uploadId));
    var row := Take(found, 3)[0];
    assert row == found[0] && row in store.uploads && row.uploadId == identity.uploadId;
    assert UploadBelongsTo(row, identity);
    var i :| 0 <= i < |store.uploads| && store.uploads[i] == row;
    assert IsCompleted(store.claims, OwnerOf(store.uploads[i]));
  }

  /** A durable draft exists for a claim exactly when the claim is completed; when it is not, the
      lookup answers a clean miss rather than a conflict. */
  lemma DraftExactlyWhenCompleted(store: Store, ledger: Ledger, id: ClaimId)
    requires StoreInv(store, ledger) && id in store.claims
    ensures HasDraft(store, store.claims[id].identity) <==> store.claims[id].status == Completed
    ensures CompletedReplayExists(store, store.claims[id].identity) == Ok(store.claims[id].status == Completed)
  {
    if store.claims[id].status != Completed {
      NoRowsUnlessCompleted(store, ledger, id);
    } else {
      assert IsCompleted(store.claims, id);
    }
  }

  /** The claim a mutation finds. */
  lemma FoundClaim(store: Store, ledger: Ledger, identity: Identity)
    requires StoreInv(store, ledger)
    requires FindClaim(store.claims, identity, DeriveClaimId(identity)).Ok?
    ensures var id := DeriveClaimId(identity);
            var found := FindClaim(store.claims, identity, id).value;
            && (found.Some? <==> id in store.claims)
            && (found.Some? ==> found.value == store.claims[id] && found.value.identity == identity)
            && (found.None? ==> forall other :: other in store.claims ==>
                  store.claims[other].identity.uploadId != identity.uploadId
                  && store.claims[other].identity.caseId != identity.caseId)
  {
    var id := DeriveClaimId(identity);
    var byUpload := ClaimsByUpload(store.claims, identity.uploadId);
    var byCase := ClaimsByCase(store.claims, identity.caseId);
    assert forall other :: other in store.claims && store.claims[other].identity.uploadId == identity.uploadId ==>
             other in byUpload;
    assert forall other :: other in store.claims && store.claims[other].identity.caseId == identity.caseId ==>
             other in byCase;
  }

  /** The conflict branch of `acquire` for a completed claim without a durable draft is unreachable, and
      so is the insertion of a completed claim that never existed. */
  lemma AcquireConflictBranchesUnreachable(store: Store, ledger: Ledger, identity: Identity)
    requires StoreInv(store, ledger)
    requires FindClaim(store.claims, identity, DeriveClaimId(identity)).Ok?
    ensures var existing := FindClaim(store.claims, identity, DeriveClaimId(identity)).value;
            && (existing.Some? && existing.value.status == Completed ==> HasDraft(store, identity))
            && (HasDraft(store, identity) ==> existing.Some? && existing.value.status == Completed)
  {
    FoundClaim(store, ledger, identity);
    if HasDraft(store, identity) {
      DraftHasCompletedClaim(store, ledger, identity);
    }
    var id := DeriveClaimId(identity);
    if id in store.claims && store.claims[id].status == Completed {
      assert IsCompleted(store.claims, id);
    }
  }

  // ---------------------------------------------------------------- preservation

  /** A claim may be written when it is the one already stored under its id, or when its upload and
      case have no claim yet; a completion is never taken back. */
  ghost predicate MayWrite(claims: map<ClaimId, Claim>, c: Claim) {
    && SchemaAccepts(c) && IdentityMatches(c, c.identity)
    && if c.claimId in claims then claims[c.claimId].status == Completed ==> c.status == Completed
       else forall other :: other in claims ==>
              claims[other].identity.uploadId != c.identity.uploadId
                && claims[other].identity.caseId != c.identity.caseId
  }

  lemma WriteKeepsClaims(claims: map<ClaimId, Claim>, ledger: Ledger, c: Claim, ledger': Ledger)
    requires ClaimsKeyed(claims) && OneClaimEach(claims) && Paying(claims, ledger) && MayWrite(claims, c)
    requires multiset(ledger') == multiset(ledger)[c.claimId := c.generation]
    ensures ClaimsKeyed(claims[c.claimId := c]) && OneClaimEach(claims[c.claimId := c])
            && Paying(claims[c.claimId := c], ledger')
  {
    var next := claims[c.claimId := c];
    assert c.claimId in claims ==> claims[c.claimId].identity == c.identity by {
      if c.claimId in claims {
        assert IdentityMatches(claims[c.claimId], claims[c.claimId].identity);
      }
    }
    forall id ensures Paid(ledger', id) == if id in next then next[id].generation else 0 {
      assert Paid(ledger, id) == if id in claims then claims[id].generation else 0;
    }
  }

  lemma WriteKeepsCompletions(claims: map<ClaimId, Claim>, c: Claim, id: ClaimId)
    requires ClaimsKeyed(claims) && MayWrite(claims, c) && IsCompleted(claims, id)
    ensures IsCompleted(claims[c.claimId := c], id)
    ensures claims[c.claimId := c][id].identity == claims[id].identity
  {
    assert IdentityMatches(claims[id], claims[id].identity);
  }

  lemma WriteKeepsOwners(claims: map<ClaimId, Claim>, c: Claim, caseId: string)
    requires ClaimsKeyed(claims) && MayWrite(claims, c) && CaseCompleted(claims, caseId)
    ensures CaseCompleted(claims[c.claimId := c], caseId)
  {
    var id :| IsCompleted(claims, id) && claims[id].identity.caseId == caseId;
    WriteKeepsCompletions(claims, c, id);
  }

  /** Writing one claim over unchanged rows. */
  lemma ClaimWriteKeepsInv(store: Store, ledger: Ledger, c: Claim, next: Store, ledger': Ledger)
    requires StoreInv(store, ledger) && MayWrite(store.claims, c)
    requires next.claims == store.claims[c.claimId := c] && next.uploads == store.uploads && next.graphs == store.graphs
    requires c.status == Completed ==> HasDraft(store, c.identity)
    requires multiset(ledger') == multiset(ledger)[c.claimId := c.generation]
    ensures StoreInv(next, ledger')
  {
    WriteKeepsClaims(store.claims, ledger, c, ledger');
    forall id | IsCompleted(next.claims, id) ensures HasDraft(next, next.claims[id].identity) {
      assert id == c.claimId || IsCompleted(store.claims, id);
    }
    forall i | 0 <= i < |next.graphs| ensures CaseCompleted(next.claims, next.graphs[i].caseId) {
      WriteKeepsOwners(store.claims, c, store.graphs[i].caseId);
    }
    forall i | 0 <= i < |next.uploads| ensures IsCompleted(next.claims, OwnerOf(next.uploads[i])) {
      WriteKeepsCompletions(store.claims, c, OwnerOf(store.uploads[i]));
    }
  }

  lemma SameLedger(store: Store, ledger: Ledger, c: Claim)
    requires Paying(store.claims, ledger) && c.claimId in store.claims
    requires c.generation == store.claims[c.claimId].generation && c.generation >= 0
    ensures multiset(ledger) == multiset(ledger)[c.claimId := c.generation]
  {
    assert Paid(ledger, c.claimId) == c.generation;
  }

  /** What an evaluated acquisition stores. */
  lemma EvaluatedClaim(existing: Option<Claim>, request: AcquireRequest, now: int)
    requires EvaluateClaim(existing, request, now).Ok?
    requires EvaluateClaim(existing, request, now).value.quotaRequired
    ensures var c := EvaluateClaim(existing, request, now).value.claim;
            && SchemaAccepts(c) && c.status == Leased
            && c.claimId == DeriveClaimId(request.identity) && c.identity == request.identity
            && c.generation == (if existing.Some? then existing.value.generation + 1 else 1)
            && (existing.Some? ==> existing.value.status != Completed)
  {
  }

  lemma AcquireKeepsInv(store: Store, ledger: Ledger, request: AcquireRequest, now: int, page: set<nat>)
    requires StoreInv(store, ledger)
    requires AcquireTransition(store, request, now, page).Ok?
    ensures var done := AcquireTransition(store, request, now, page).value;
            StoreInv(done.store, if done.granted then ledger + [DeriveClaimId(request.identity)] else ledger)
  {
    var existing := FindClaim(store.claims, request.identity, DeriveClaimId(request.identity)).value;
    var done := AcquireTransition(store, request, now, page).value;
    FoundClaim(store, ledger, request.identity);
    AcquisitionWrites(store, request, now, page);
    if CompletedReplayExists(store, request.identity).value {
      CompletedKeepsInv(store, ledger, request, existing, now, done.store);
    } else if done.granted {
      GrantKeepsInv(store, ledger, request, existing, now, done.store);
    } else {
      OnlyQuotaChanged(store, ledger, done.store);
    }
  }

  /** What an acquisition writes besides the quota table. */
  lemma AcquisitionWrites(store: Store, request: AcquireRequest, now: int, page: set<nat>)
    requires AcquireTransition(store, request, now, page).Ok?
    ensures var id := DeriveClaimId(request.identity);
            var existing := FindClaim(store.claims, request.identity, id);
            var done := AcquireTransition(store, request, now, page).value;
            && existing.Ok? && CompletedReplayExists(store, request.identity).Ok?
            && done.store.uploads == store.uploads && done.store.graphs == store.graphs
            && if CompletedReplayExists(store, request.identity).value then
                 var c := CompletedReplayClaim(existing.value, request, now);
                 c.Ok? && !done.granted && done.store.claims == store.claims[id := c.value]
               else if done.granted then
                 var e := EvaluateClaim(existing.value, request, now);
                 e.Ok? && e.value.quotaRequired && done.store.claims == store.claims[id := e.value.claim]
               else done.store.claims == store.claims
  {
  }

  /** An acquisition that finds a durable draft writes its completed claim again. */
  lemma CompletedKeepsInv(store: Store, ledger: Ledger, request: AcquireRequest, existing: Option<Claim>, now: int,
                          next: Store)
    requires StoreInv(store, ledger) && HasDraft(store, request.identity)
    requires FindClaim(store.claims, request.identity, DeriveClaimId(request.identity)) == Ok(existing)
    requires CompletedReplayClaim(existing, request, now).Ok?
    requires next.uploads == store.uploads && next.graphs == store.graphs
    requires next.claims
             == store.claims[DeriveClaimId(request.identity) := CompletedReplayClaim(existing, request, now).value]
    ensures StoreInv(next, ledger)
  {
    FoundClaim(store, ledger, request.identity);
    DraftHasCompletedClaim(store, ledger, request.identity);
    var c := CompletedReplayClaim(existing, request, now).value;
    SameLedger(store, ledger, c);
    ClaimWriteKeepsInv(store, ledger, c, next, ledger);
  }

  lemma GrantKeepsInv(store: Store, ledger: Ledger, request: AcquireRequest, existing: Option<Claim>, now: int,
                      next: Store)
    requires StoreInv(store, ledger)
    requires FindClaim(store.claims, request.identity, DeriveClaimId(request.identity)) == Ok(existing)
    requires EvaluateClaim(existing, request, now).Ok? && EvaluateClaim(existing, request, now).value.quotaRequired
    requires next.uploads == store.uploads && next.graphs == store.graphs
    requires next.claims
             == store.claims[DeriveClaimId(request.identity) := EvaluateClaim(existing, request, now).value.claim]
    ensures StoreInv(next, ledger + [DeriveClaimId(request.identity)])
  {
    var id := DeriveClaimId(request.identity);
    FoundClaim(store, ledger, request.identity);
    EvaluatedClaim(existing, request, now);
    var c := EvaluateClaim(existing, request, now).value.claim;
    assert Paid(ledger, id) == c.generation - 1;
    ClaimWriteKeepsInv(store, ledger, c, next, ledger + [id]);
  }

  lemma OnlyQuotaChanged(store: Store, ledger: Ledger, next: Store)
    requires StoreInv(store, ledger)
    requires next.claims == store.claims && next.uploads == store.uploads && next.graphs == store.graphs
    ensures StoreInv(next, ledger)
  {
    forall id | IsCompleted(next.claims, id) ensures HasDraft(next, next.claims[id].identity) {
      assert IsCompleted(store.claims, id);
    }
    forall i | 0 <= i < |next.graphs| ensures CaseCompleted(next.claims, next.graphs[i].caseId) {
      assert CaseCompleted(store.claims, store.graphs[i].caseId);
    }
  }

  lemma TransitionKeepsInv(store: Store, ledger: Ledger, fence: Fence, t: Transition)
    requires StoreInv(store, ledger)
    requires FencedClaim(store, fence).Ok?
    requires SchemaAccepts(t.claim) && t.claim.claimId == DeriveClaimId(fence.identity)
             && t.claim.identity == fence.identity
    requires t.claim.generation == FencedClaim(store, fence).value.generation
    requires t.persist ==> FencedClaim(store, fence).value.status != Completed
    requires t.persist && t.claim.status == Completed ==> HasDraft(store, fence.identity)
    ensures StoreInv(Persist(store, t), ledger)
  {
    FoundClaim(store, ledger, fence.identity);
    if t.persist {
      SameLedger(store, ledger, t.claim);
      ClaimWriteKeepsInv(store, ledger, t.claim, Persist(store, t), ledger);
    }
  }

  lemma HeartbeatKeepsInv(store: Store, ledger: Ledger, fence: Fence, now: int)
    requires StoreInv(store, ledger) && HeartbeatClaim(store, fence, now).Ok?
    ensures StoreInv(HeartbeatClaim(store, fence, now).value, ledger)
  {
    FoundClaim(store, ledger, fence.identity);
    TransitionKeepsInv(store, ledger, fence, EvaluateHeartbeat(FencedClaim(store, fence).value, fence, now).value);
  }

  lemma ReleaseKeepsInv(store: Store, ledger: Ledger, fence: Fence, terminal: bool, failureCode: string, now: int)
    requires StoreInv(store, ledger) && ReleaseClaim(store, fence, terminal, failureCode, now).Ok?
    ensures StoreInv(ReleaseClaim(store, fence, terminal, failureCode, now).value, ledger)
  {
    FoundClaim(store, ledger, fence.identity);
    TransitionKeepsInv(store, ledger, fence,
      EvaluateRelease(FencedClaim(store, fence).value, fence, if terminal then TerminalFailed else RetryableFailed,
                      failureCode, now).value);
  }

  /** The rows a registration inserts are exactly a durable draft of its claim. */
  lemma InsertedIsDurable(store: Store, ledger: Ledger, r: RegisterRequest)
    requires StoreInv(store, ledger) && RequestAccepted(r)
    requires r.draftGraphId == DraftGraph(r.fence.identity.uploadId)
    requires Select(store.uploads, ByUpload(r.fence.identity.uploadId)) == []
    requires Select(store.graphs, ByCase(r.fence.identity.caseId)) == []
    ensures HasDraft(Inserted(store, r), r.fence.identity)
  {
    var id := r.fence.identity;
    SelectPair(store.uploads, UploadVersion(r, 1), UploadVersion(r, 2), ByUpload(id.uploadId));
    SelectSnoc(store.graphs, DraftRow(r), ByCase(id.caseId));
    assert Select(Inserted(store, r).uploads, ByUpload(id.uploadId)) == [UploadVersion(r, 1), UploadVersion(r, 2)];
    assert Select(Inserted(store, r).graphs, ByCase(id.caseId)) == [DraftRow(r)];
    FreshRowsReplay(r);
  }

  lemma FreshRowsReplay(r: RegisterRequest)
    requires RequestAccepted(r) && r.draftGraphId == DraftGraph(r.fence.identity.uploadId)
    ensures ReplayOf([UploadVersion(r, 1), UploadVersion(r, 2)], [DraftRow(r)], r.fence.identity) == Ok(true)
  {
    var uploads := [UploadVersion(r, 1), UploadVersion(r, 2)];
    OneDraft(DraftRow(r));
    assert {uploads[0].version, uploads[1].version} == {1, 2};
  }

  /** Inserting rows of another upload and case does not touch what the lookup reads. */
  lemma InsertedLeavesOthers(store: Store, r: RegisterRequest, identity: Identity)
    requires identity.uploadId != r.fence.identity.uploadId && identity.caseId != r.fence.identity.caseId
    ensures CompletedReplayExists(Inserted(store, r), identity) == CompletedReplayExists(store, identity)
  {
    SelectPair(store.uploads, UploadVersion(r, 1), UploadVersion(r, 2), ByUpload(identity.uploadId));
    SelectSnoc(store.graphs, DraftRow(r), ByCase(identity.caseId));
    assert Select(Inserted(store, r).uploads, ByUpload(identity.uploadId))
           == Select(store.uploads, ByUpload(identity.uploadId));
    assert Select(Inserted(store, r).graphs, ByCase(identity.caseId)) == Select(store.graphs, ByCase(identity.caseId));
  }

  lemma InsertedRowsOwned(store: Store, r: RegisterRequest, c: Claim)
    requires ClaimsKeyed(store.claims) && MayWrite(store.claims, c) && RowsOwned(store)
    requires c.status == Completed && IdentityMatches(c, r.fence.identity)
    ensures RowsOwned(Inserted(store, r).(claims := store.claims[c.claimId := c]))
  {
    var next := Inserted(store, r).(claims := store.claims[c.claimId := c]);
    assert IsCompleted(next.claims, c.claimId);
    forall i | 0 <= i < |next.graphs| ensures CaseCompleted(next.claims, next.graphs[i].caseId) {
      if i < |store.graphs| {
        WriteKeepsOwners(store.claims, c, store.graphs[i].caseId);
      }
    }
    forall i | 0 <= i < |next.uploads| ensures IsCompleted(next.claims, OwnerOf(next.uploads[i])) {
      if i < |store.uploads| {
        WriteKeepsCompletions(store.claims, c, OwnerOf(store.uploads[i]));
      }
    }
  }

  /** The lookup reads only the rows. */
  lemma LookupReadsRows(a: Store, b: Store, identity: Identity)
    requires a.uploads == b.uploads && a.graphs == b.graphs
    ensures CompletedReplayExists(a, identity) == CompletedReplayExists(b, identity)
  {
  }

  /** A first registration: the draft rows and the completion arrive together. */
  lemma FirstRegistrationKeepsInv(store: Store, ledger: Ledger, r: RegisterRequest, c: Claim)
    requires StoreInv(store, ledger) && RequestAccepted(r)
    requires r.draftGraphId == DraftGraph(r.fence.identity.uploadId)
    requires Select(store.uploads, ByUpload(r.fence.identity.uploadId)) == []
    requires Select(store.graphs, ByCase(r.fence.identity.caseId)) == []
    requires c.claimId in store.claims && c.generation == store.claims[c.claimId].generation
    requires SchemaAccepts(c) && c.status == Completed && IdentityMatches(c, r.fence.identity)
    ensures StoreInv(Inserted(store, r).(claims := store.claims[c.claimId := c]), ledger)
  {
    var next := Inserted(store, r).(claims := store.claims[c.claimId := c]);
    SameLedger(store, ledger, c);
    WriteKeepsClaims(store.claims, ledger, c, ledger);
    InsertedRowsOwned(store, r, c);
    forall id | IsCompleted(next.claims, id) ensures HasDraft(next, next.claims[id].identity) {
      LookupReadsRows(next, Inserted(store, r), next.claims[id].identity);
      if id == c.claimId {
        InsertedIsDurable(store, ledger, r);
      } else {
        assert IsCompleted(store.claims, id)
               && IdentityMatches(store.claims[c.claimId], store.claims[c.claimId].identity);
        InsertedLeavesOthers(store, r, store.claims[id].identity);
      }
    }
  }

  /** What a completion of a claim that is not yet completed has checked and writes. */
  lemma CompletionMeans(store: Store, fence: Fence, now: int)
    requires CompleteInMutation(store, fence, now).Ok? && FencedClaim(store, fence).value.status != Completed
    ensures var claim := FencedClaim(store, fence).value;
            var c := EvaluateCompletion(claim, fence, now).value.claim;
            && HasDraft(store, fence.identity)
            && ActiveLease(claim, fence.generation, fence.leaseToken, now)
            && SchemaAccepts(c) && c.status == Completed && IdentityMatches(c, fence.identity)
            && c.claimId == DeriveClaimId(fence.identity) && c.generation == claim.generation
            && CompleteInMutation(store, fence, now).value == store.(claims := store.claims[c.claimId := c])
  {
  }

  /** A durable draft row carries the id derived from its upload. */
  lemma DurableRowId(store: Store, r: RegisterRequest)
    requires Select(store.graphs, ByCase(r.fence.identity.caseId)) == []
    requires HasDraft(Inserted(store, r), r.fence.identity)
    ensures r.draftGraphId == DraftGraph(r.fence.identity.uploadId)
  {
    SelectSnoc(store.graphs, DraftRow(r), ByCase(r.fence.identity.caseId));
    assert Select(Inserted(store, r).graphs, ByCase(r.fence.identity.caseId)) == [DraftRow(r)];
  }

  lemma RegisterKeepsInv(store: Store, ledger: Ledger, r: RegisterRequest, fault: Option<StoreError>, now: int)
    requires StoreInv(store, ledger) && RegisterTransition(store, r, fault, now).Ok?
    ensures StoreInv(RegisterTransition(store, r, fault, now).value.store, ledger)
    ensures HasDraft(RegisterTransition(store, r, fault, now).value.store, r.fence.identity)
  {
    if RegisterTransition(store, r, fault, now).value.replayed {
      RepeatedRegistrationKeepsInv(store, ledger, r.fence, now);
    } else {
      FirstRegistration(store, ledger, r, fault, now);
    }
  }

  /** A repeated registration finds its claim completed and changes nothing. */
  lemma RepeatedRegistrationKeepsInv(store: Store, ledger: Ledger, fence: Fence, now: int)
    requires StoreInv(store, ledger) && CompleteInMutation(store, fence, now).Ok?
    ensures CompleteInMutation(store, fence, now).value == store
    ensures HasDraft(store, fence.identity)
  {
    FoundClaim(store, ledger, fence.identity);
    DraftExactlyWhenCompleted(store, ledger, DeriveClaimId(fence.identity));
    assert FencedClaim(store, fence).value.status == Completed;
  }

  /** A first registration succeeds only under the live lease of its claim, and leaves the draft durable
      and the claim completed, together. */
  lemma FirstRegistration(store: Store, ledger: Ledger, r: RegisterRequest, fault: Option<StoreError>, now: int)
    requires StoreInv(store, ledger) && RegisterTransition(store, r, fault, now).Ok?
    requires !RegisterTransition(store, r, fault, now).value.replayed
    ensures var id := DeriveClaimId(r.fence.identity);
            var next := RegisterTransition(store, r, fault, now).value.store;
            && id in store.claims && ActiveLease(store.claims[id], r.fence.generation, r.fence.leaseToken, now)
            && !HasDraft(store, r.fence.identity)
            && StoreInv(next, ledger) && HasDraft(next, r.fence.identity) && IsCompleted(next.claims, id)
  {
    var next := RegisterTransition(store, r, fault, now).value.store;
    FirstMeans(store, r, fault, now);
    CompletionKeepsInv(store, ledger, r, now, next);
  }

  /** What a first registration has checked and does. */
  lemma FirstMeans(store: Store, r: RegisterRequest, fault: Option<StoreError>, now: int)
    requires RegisterTransition(store, r, fault, now).Ok? && !RegisterTransition(store, r, fault, now).value.replayed
    ensures RequestAccepted(r) && ExactReplay(store, r) == Ok(false)
    ensures Select(store.graphs, ByCase(r.fence.identity.caseId)) == []
    ensures CompleteInMutation(Inserted(store, r), r.fence, now)
            == Ok(RegisterTransition(store, r, fault, now).value.store)
  {
  }

  lemma CompletionKeepsInv(store: Store, ledger: Ledger, r: RegisterRequest, now: int, next: Store)
    requires StoreInv(store, ledger) && RequestAccepted(r) && ExactReplay(store, r) == Ok(false)
    requires Select(store.graphs, ByCase(r.fence.identity.caseId)) == []
    requires CompleteInMutation(Inserted(store, r), r.fence, now) == Ok(next)
    ensures var id := DeriveClaimId(r.fence.identity);
            && id in store.claims && ActiveLease(store.claims[id], r.fence.generation, r.fence.leaseToken, now)
            && !HasDraft(store, r.fence.identity)
            && StoreInv(next, ledger) && HasDraft(next, r.fence.identity) && IsCompleted(next.claims, id)
  {
    var id := DeriveClaimId(r.fence.identity);
    var inserted := Inserted(store, r);
    FirstUploadMissing(store, r);
    FencedInserted(store, ledger, r, now);
    CompletionMeans(inserted, r.fence, now);
    DurableRowId(store, r);
    var c := EvaluateCompletion(store.claims[id], r.fence, now).value.claim;
    FirstRegistrationKeepsInv(store, ledger, r, c);
    LookupReadsRows(next, inserted, r.fence.identity);
  }

  /** The claim a first registration completes is the one already stored, and it is not completed. */
  lemma FencedInserted(store: Store, ledger: Ledger, r: RegisterRequest, now: int)
    requires StoreInv(store, ledger) && !HasDraft(store, r.fence.identity)
    requires CompleteInMutation(Inserted(store, r), r.fence, now).Ok?
    ensures var id := DeriveClaimId(r.fence.identity);
            id in store.claims && store.claims[id].status != Completed
              && FencedClaim(Inserted(store, r), r.fence) == Ok(store.claims[id])
  {
    assert FencedClaim(Inserted(store, r), r.fence) == FencedClaim(store, r.fence);
    FoundClaim(store, ledger, r.fence.identity);
    DraftExactlyWhenCompleted(store, ledger, DeriveClaimId(r.fence.identity));
  }

  lemma FirstUploadMissing(store: Store, r: RegisterRequest)
    requires ExactReplay(store, r) == Ok(false)
    ensures Select(store.uploads, ByUpload(r.fence.identity.uploadId)) == []
    ensures !HasDraft(store, r.fence.identity)
  {
  }

  // ---------------------------------------------------------------- publications

  lemma OneDraft(draft: GraphRow)
    requires draft.kind.DraftVersion?
    ensures Select([draft], IsDraft()) == [draft] && Select([draft], IsPublication()) == []
  {
    assert [draft] == [] + [draft];
    SelectSnoc([], draft, IsDraft());
    SelectSnoc([], draft, IsPublication());
  }

  lemma DraftAndPublication(draft: GraphRow, row: GraphRow)
    requires draft.kind.DraftVersion? && row.kind.Publication?
    ensures Select([draft, row], IsDraft()) == [draft] && Select([draft, row], IsPublication()) == [row]
  {
    OneDraft(draft);
    assert [draft, row] == [draft] + [row];
    SelectSnoc([draft], row, IsDraft());
    SelectSnoc([draft], row, IsPublication());
  }

  lemma {:induction false} DraftsAndPublications(rows: seq<GraphRow>)
    ensures |rows| == |Select(rows, IsDraft())| + |Select(rows, IsPublication())|
  {
    if rows != [] {
      DraftsAndPublications(rows[..|rows| - 1]);
    }
  }

  lemma {:induction false} NonePublished(rows: seq<GraphRow>, n: nat)
    requires Select(rows, IsPublication()) == []
    ensures Select(Take(rows, n), IsPublication()) == []
    decreases |rows|
  {
    if |rows| > n {
      NonePublished(rows[..|rows| - 1], n);
      assert Take(rows[..|rows| - 1], n) == Take(rows, n);
    }
  }

  lemma ReplayMeans(uploads: seq<UploadRow>, graphs: seq<GraphRow>, identity: Identity) returns (upload: UploadRow)
    requires ReplayOf(uploads, graphs, identity) == Ok(true)
    ensures Reconstructs(upload, graphs, identity)
  {
    upload := if uploads[0].version == 2 then uploads[0] else uploads[1];
  }

  /** Rows that reconstruct without a publication are the draft alone. */
  lemma OneRow(upload: UploadRow, rows: seq<GraphRow>, identity: Identity)
    requires Reconstructs(upload, rows, identity) && Select(rows, IsPublication()) == []
    ensures |rows| == 1 && rows[0].kind.DraftVersion? && DraftReconstructs(upload, rows[0], identity)
  {
    DraftsAndPublications(rows);
    SelectMembers(rows, IsDraft());
    assert Select(rows, IsDraft())[0] in rows;
  }

  /** A case with a durable draft and no publication has that draft as its only row. */
  lemma OnlyRow(store: Store, identity: Identity) returns (draft: GraphRow)
    requires HasDraft(store, identity)
    requires Select(Select(store.graphs, ByCase(identity.caseId)), IsPublication()) == []
    ensures Select(store.graphs, ByCase(identity.caseId)) == [draft]
    ensures draft.kind.DraftVersion? && draft.graphId == DraftGraph(identity.uploadId) && draft in store.graphs
    ensures draft.ownerId == identity.ownerId && draft.uploadId == identity.uploadId
  {
    var rows := Select(store.graphs, ByCase(identity.caseId));
    NonePublished(rows, 3);
    var upload := ReplayMeans(Take(Select(store.uploads, ByUpload(identity.uploadId)), 3), Take(rows, 3), identity);
    OneRow(upload, Take(rows, 3), identity);
    draft := rows[0];
    SelectMembers(store.graphs, ByCase(identity.caseId));
    assert draft in rows;
  }

  /** The draft's publication reconstructs beside it. */
  lemma PublicationReplays(uploads: seq<UploadRow>, draft: GraphRow, title: string, body: string, identity: Identity)
    requires ReplayOf(uploads, [draft], identity) == Ok(true) && draft.kind.DraftVersion?
    ensures ReplayOf(uploads, [draft, PublicationOf(draft, title, body)], identity) == Ok(true)
  {
    OneDraft(draft);
    DraftAndPublication(draft, PublicationOf(draft, title, body));
  }

  /** The draft a publication is made of is the only row of its name. */
  lemma PublishedDraft(store: Store, row: GraphRow, draft: GraphRow)
    requires MayPublish(store, row) && Select(store.graphs, ByCase(row.caseId)) == [draft] && draft in store.graphs
    ensures row == PublicationOf(draft, row.title, row.content.body)
  {
    var named := Select(store.graphs, ByGraphId(DraftGraph(row.uploadId)));
    SelectMembers(store.graphs, ByGraphId(DraftGraph(row.uploadId)));
    assert named[0] in named;
    assert draft in named;
  }

  /** The publication of a durable draft joins it as the second row of the case, and both reconstruct. */
  lemma PublishedIsDurable(store: Store, row: GraphRow, identity: Identity)
    requires HasDraft(store, identity) && MayPublish(store, row) && identity.caseId == row.caseId
    ensures HasDraft(PublishRow(store, row), identity)
  {
    var draft := OnlyRow(store, identity);
    PublishedDraft(store, row, draft);
    SelectSnoc(store.graphs, row, ByCase(identity.caseId));
    PublicationReplays(Take(Select(store.uploads, ByUpload(identity.uploadId)), 3), draft, row.title, row.content.body,
                       identity);
  }

  lemma PublishLeavesOthers(store: Store, row: GraphRow, identity: Identity)
    requires identity.caseId != row.caseId
    ensures CompletedReplayExists(PublishRow(store, row), identity) == CompletedReplayExists(store, identity)
  {
    SelectSnoc(store.graphs, row, ByCase(identity.caseId));
    assert Select(PublishRow(store, row).graphs, ByCase(identity.caseId))
           == Select(store.graphs, ByCase(identity.caseId));
  }

  /** A publication leaves every durable draft durable. */
  lemma PublishKeepsInv(store: Store, ledger: Ledger, row: GraphRow)
    requires StoreInv(store, ledger)
    ensures StoreInv(PublishRow(store, row), ledger)
  {
    var next := PublishRow(store, row);
    if MayPublish(store, row) {
      forall id | IsCompleted(next.claims, id) ensures HasDraft(next, next.claims[id].identity) {
        assert IsCompleted(store.claims, id);
        if store.claims[id].identity.caseId == row.caseId {
          PublishedIsDurable(store, row, store.claims[id].identity);
        } else {
          PublishLeavesOthers(store, row, store.claims[id].identity);
        }
      }
      CaseOfDraft(store, row);
      forall i | 0 <= i < |next.graphs| ensures CaseCompleted(next.claims, next.graphs[i].caseId) {
        assert i < |store.graphs| ==> CaseCompleted(store.claims, store.graphs[i].caseId);
      }
    }
  }

  lemma CaseOfDraft(store: Store, row: GraphRow)
    requires RowsOwned(store) && MayPublish(store, row)
    ensures CaseCompleted(store.claims, row.caseId)
  {
    var named := Select(store.graphs, ByGraphId(DraftGraph(row.uploadId)));
    SelectMembers(store.graphs, ByGraphId(DraftGraph(row.uploadId)));
    assert named[0] in named;
    var i :| 0 <= i < |store.graphs| && store.graphs[i] == named[0];
    assert CaseCompleted(store.claims, store.graphs[i].caseId);
  }

  // ---------------------------------------------------------------- runs

  datatype StoreCommand =
    | Acquiring(request: AcquireRequest, now: int, page: set<nat>)
    | Beating(fence: Fence, now: int)
    | Releasing(fence: Fence, terminal: bool, failureCode: string, now: int)
    | Registering(r: RegisterRequest, stored: Option<StoredObject>, now: int)
    | Publishing(row: GraphRow)

  datatype StoreRun = StoreRun(store: Store, ledger: Ledger)

  /** One mutation; a throw leaves the database as it was. */
  ghost function StoreStep(run: StoreRun, c: StoreCommand): StoreRun {
    match c
    case Acquiring(request, now, page) =>
      var t := AcquireTransition(run.store, request, now, page);
      if t.Err? then run
      else StoreRun(t.value.store,
                    if t.value.granted then run.ledger + [DeriveClaimId(request.identity)] else run.ledger)
    case Beating(fence, now) =>
      var t := HeartbeatClaim(run.store, fence, now);
      if t.Err? then run else run.(store := t.value)
    case Releasing(fence, terminal, failureCode, now) =>
      var t := ReleaseClaim(run.store, fence, terminal, failureCode, now);
      if t.Err? then run else run.(store := t.value)
    case Registering(r, stored, now) =>
      var t := RegisterTransition(run.store, r, ObjectFault(stored, r), now);
      if t.Err? then run else run.(store := t.value.store)
    case Publishing(row) => run.(store := PublishRow(run.store, row))
  }

  ghost function StoreSteps(commands: seq<StoreCommand>): StoreRun {
    if commands == [] then StoreRun(Store(map[], Quota.Table(map[], 0), [], [], []), [])
    else StoreStep(StoreSteps(commands[..|commands| - 1]), commands[|commands| - 1])
  }

  /** Every run from the empty database keeps the invariant. No assumption about the clock is needed:
      a claim whose times would go backwards is refused by its schema and the mutation rolls back. */
  lemma {:induction false} EveryRunKeepsStoreInv(commands: seq<StoreCommand>)
    ensures StoreInv(StoreSteps(commands).store, StoreSteps(commands).ledger)
  {
    if commands != [] {
      EveryRunKeepsStoreInv(commands[..|commands| - 1]);
      StepKeepsStoreInv(StoreSteps(commands[..|commands| - 1]), commands[|commands| - 1]);
    }
  }

  lemma StepKeepsStoreInv(before: StoreRun, c: StoreCommand)
    requires StoreInv(before.store, before.ledger)
    ensures StoreInv(StoreStep(before, c).store, StoreStep(before, c).ledger)
  {
    match c
    case Acquiring(request, now, page) =>
      if AcquireTransition(before.store, request, now, page).Ok? {
        AcquireKeepsInv(before.store, before.ledger, request, now, page);
      }
    case Beating(fence, now) =>
      if HeartbeatClaim(before.store, fence, now).Ok? {
        HeartbeatKeepsInv(before.store, before.ledger, fence, now);
      }
    case Releasing(fence, terminal, failureCode, now) =>
      if ReleaseClaim(before.store, fence, terminal, failureCode, now).Ok? {
        ReleaseKeepsInv(before.store, before.ledger, fence, terminal, failureCode, now);
      }
    case Registering(r, stored, now) =>
      if RegisterTransition(before.store, r, ObjectFault(stored, r), now).Ok? {
        RegisterKeepsInv(before.store, before.ledger, r, ObjectFault(stored, r), now);
      }
    case Publishing(row) => PublishKeepsInv(before.store, before.ledger, row);
  }

  /** The invariant, read off for a maintainer: in every reachable database a claim is completed
      exactly when its durable draft exists, uploads and cases have at most one claim, and a claim's
      generation is the number of permits granted to it. */
  lemma ReachableClaims(commands: seq<StoreCommand>, a: ClaimId, b: ClaimId)
    requires a in StoreSteps(commands).store.claims && b in StoreSteps(commands).store.claims
    ensures var run := StoreSteps(commands);
            && (HasDraft(run.store, run.store.claims[a].identity) <==> run.store.claims[a].status == Completed)
            && run.store.claims[a].generation == Paid(run.ledger, a)
            && (run.store.claims[a].identity.uploadId == run.store.claims[b].identity.uploadId ==> a == b)
            && (run.store.claims[a].identity.caseId == run.store.claims[b].identity.caseId ==> a == b)
  {
    EveryRunKeepsStoreInv(commands);
    var run := StoreSteps(commands);
    DraftExactlyWhenCompleted(run.store, run.ledger, a);
  }

  // ---------------------------------------------------------------- permits over a run

  /** Whether an acquisition consulted the quota. */
  ghost predicate Consulted(store: Store, request: AcquireRequest, now: int, page: set<nat>) {
    var t := AcquireTransition(store, request, now, page);
    t.Ok? && (t.value.granted || t.value.outcome.QuotaExceeded?)
  }

  /** The time of the last permit decision of a run. */
  ghost function Clock(commands: seq<StoreCommand>): int {
    if commands == [] then 0
    else
      var front, c := commands[..|commands| - 1], commands[|commands| - 1];
      if c.Acquiring? && Consulted(StoreSteps(front).store, c.request, c.now, c.page) then c.now else Clock(front)
  }

  /** The permits a run granted. */
  ghost function Grants(commands: seq<StoreCommand>): seq<Quota.Grant> {
    if commands == [] then []
    else
      var front, c := commands[..|commands| - 1], commands[|commands| - 1];
      if c.Acquiring? && Consulted(StoreSteps(front).store, c.request, c.now, c.page)
         && AcquireTransition(StoreSteps(front).store, c.request, c.now, c.page).value.granted
      then Grants(front) + [Quota.Grant(c.request.clientKeyHash, c.now)]
      else Grants(front)
  }

  /** The clock does not go back between permit decisions, and each prunes what its scan finds. */
  ghost predicate Timely(commands: seq<StoreCommand>) {
    commands == [] ||
      var front, c := commands[..|commands| - 1], commands[|commands| - 1];
      Timely(front)
        && (c.Acquiring? ==> TimelyAcquisition(StoreSteps(front).store.quota, Clock(front), c.request, c.now, c.page))
  }

  ghost predicate TimelyAcquisition(quota: Quota.Table, clock: int, request: AcquireRequest, now: int, page: set<nat>) {
    var written := Quota.Rewrite(quota, request.clientKeyHash, now);
    clock <= now && (written.Ok? ==> Quota.IsOldestStale(written.value.table.rows, Quota.PruneCutoff(now), page))
  }

  /** What an acquisition does to the quota table: nothing, or one permit decision. */
  lemma AcquisitionQuota(store: Store, request: AcquireRequest, now: int, page: set<nat>)
    requires AcquireTransition(store, request, now, page).Ok?
    ensures var done := AcquireTransition(store, request, now, page).value;
            if Consulted(store, request, now, page)
            then var consumed := Quota.Consume(store.quota, request.clientKeyHash, now, page);
                 && SafeTimestamp(now) && consumed.Ok? && done.store.quota == consumed.value.table
                 && done.granted == consumed.value.permit.allowed
            else done.store.quota == store.quota && !done.granted
  {
  }

  lemma CompletionLeavesQuota(store: Store, fence: Fence, now: int)
    requires CompleteInMutation(store, fence, now).Ok?
    ensures CompleteInMutation(store, fence, now).value.quota == store.quota
  {
  }

  lemma RegistrationLeavesQuota(store: Store, r: RegisterRequest, fault: Option<StoreError>, now: int)
    requires RegisterTransition(store, r, fault, now).Ok?
    ensures RegisterTransition(store, r, fault, now).value.store.quota == store.quota
  {
    if RegisterTransition(store, r, fault, now).value.replayed {
      CompletionLeavesQuota(store, r.fence, now);
    } else {
      FirstMeans(store, r, fault, now);
      CompletionLeavesQuota(Inserted(store, r), r.fence, now);
    }
  }

  lemma ClaimWritesLeaveQuota(store: Store, fence: Fence, terminal: bool, failureCode: string, now: int)
    ensures HeartbeatClaim(store, fence, now).Ok? ==> HeartbeatClaim(store, fence, now).value.quota == store.quota
    ensures ReleaseClaim(store, fence, terminal, failureCode, now).Ok?
            ==> ReleaseClaim(store, fence, terminal, failureCode, now).value.quota == store.quota
  {
  }

  /** Only acquisitions touch the quota table. */
  lemma OthersLeaveQuota(run: StoreRun, c: StoreCommand)
    requires !c.Acquiring?
    ensures StoreStep(run, c).store.quota == run.store.quota && StoreStep(run, c).ledger == run.ledger
  {
    match c
    case Beating(fence, now) => ClaimWritesLeaveQuota(run.store, fence, false, "", now);
    case Releasing(fence, terminal, failureCode, now) =>
      ClaimWritesLeaveQuota(run.store, fence, terminal, failureCode, now);
    case Registering(r, stored, now) =>
      if RegisterTransition(run.store, r, ObjectFault(stored, r), now).Ok? {
        RegistrationLeavesQuota(run.store, r, ObjectFault(stored, r), now);
      }
    case Publishing(row) =>
  }

  /** Over every run of all mutations, whatever fails, waits or is overtaken in between: no half-open window of ten
      minutes holds more than five permits of one client, and there are exactly as many permits as generations paid. */
  lemma {:induction false} RunsRespectQuota(commands: seq<StoreCommand>)
    requires Timely(commands)
    ensures Quota.QuotaInv(StoreSteps(commands).store.quota, Grants(commands), Clock(commands))
    ensures Quota.WindowsBounded(Grants(commands))
    ensures |Grants(commands)| == |StoreSteps(commands).ledger|
  {
    if commands != [] {
      var front, c := commands[..|commands| - 1], commands[|commands| - 1];
      RunsRespectQuota(front);
      if c.Acquiring? {
        AcquisitionRespectsQuota(front, c);
      } else {
        OthersLeaveQuota(StoreSteps(front), c);
      }
    }
  }

  lemma AcquisitionRespectsQuota(front: seq<StoreCommand>, c: StoreCommand)
    requires c.Acquiring? && TimelyAcquisition(StoreSteps(front).store.quota, Clock(front), c.request, c.now, c.page)
    requires Quota.QuotaInv(StoreSteps(front).store.quota, Grants(front), Clock(front))
             && Quota.WindowsBounded(Grants(front))
    requires |Grants(front)| == |StoreSteps(front).ledger|
    ensures Quota.QuotaInv(StoreSteps(front + [c]).store.quota, Grants(front + [c]), Clock(front + [c]))
    ensures Quota.WindowsBounded(Grants(front + [c])) && |Grants(front + [c])| == |StoreSteps(front + [c]).ledger|
  {
    var store := StoreSteps(front).store;
    assert (front + [c])[..|front|] == front;
    if AcquireTransition(store, c.request, c.now, c.page).Ok? {
      AcquisitionQuota(store, c.request, c.now, c.page);
      if Consulted(store, c.request, c.now, c.page) {
        Quota.RequestKeepsQuota(store.quota, Grants(front), Clock(front), c.request.clientKeyHash, c.now, c.page);
      }
    }
  }
}
