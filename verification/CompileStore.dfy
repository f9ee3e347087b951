/** The mutations that drive compile claims against the database: acquire, heartbeat and release
    (convex/caseCompileClaims.ts) and the registration of a compiled draft, which completes the claim in
    the same transaction (convex/caseDrafts.ts). */
module CompileStore {
  import opened Outcomes
  import opened Sequences
  import opened CompileClaims
  import Quota = CompileQuota
  import DigestCodec

  // ---------------------------------------------------------------- tables

  /** SHA-256 of the upload id, and of owner and upload id, is taken to be injective; any other id is some other
      name. */
  datatype GraphId =
    | DraftGraph(digestOf: string)
    | PublishedGraph(ownerId: string, uploadId: string)
    | OtherGraph(name: string)

  /** One version of an upload. */
  datatype UploadRow = UploadRow(
    uploadId: string, version: int, ownerId: string, caseId: string, contentDigest: string,
    indexed: bool, file: File, segmentCount: nat)

  datatype File = File(storageId: string, name: string, mimeType: string, sizeBytes: int)

  /** A stored object; its MIME type is absent if its content type is missing or does not normalise. */
  datatype StoredObject = StoredObject(size: int, sha256: string, mimeType: Option<string>)

  datatype SourceRow = SourceRow(segmentId: string, uploadId: string, segmentIndex: nat)

  datatype Draft = Draft(caseId: string, title: string, sourceDigest: string, segmentCount: nat, body: string)

  /** Version one of a case is its draft and version two its publication. `rebuilds` tells whether stripping and
      annotating again reproduces the publication; every stored publication does (Publications.PublicationIsFound). */
  datatype RowKind = DraftVersion | Publication(rebuilds: bool)

  datatype GraphRow = GraphRow(
    graphId: GraphId, caseId: string, kind: RowKind, ownerId: string, uploadId: string, title: string,
    sourceDigest: string, content: Draft)

  datatype Store = Store(
    claims: map<ClaimId, Claim>,
    quota: Quota.Table,
    uploads: seq<UploadRow>,
    sources: seq<SourceRow>,
    graphs: seq<GraphRow>)

  datatype StoreError =
    | ClaimFailure(claim: ClaimError)
    | QuotaFailure(quota: Quota.QuotaError)
    | ObjectNotFound | SizeMismatch | DigestMismatch | MimeTypeMismatch
    | DraftTooLarge | DraftConflict | UploadConflict | DraftAlreadyExists | SourceCollision

  datatype AcquireOutcome = Answered(response: AcquireResponse) | QuotaExceeded(retryAfterSeconds: int)

  const MAX_CASE_GRAPH_RECORD_BYTES: nat := 900_000

  /** `recordBytes` is the length of the graph's and the compiler metadata's JSON texts. */
  datatype RegisterRequest = RegisterRequest(
    fence: Fence, draftGraphId: GraphId, file: File, segmentIds: seq<string>, draft: Draft, recordBytes: nat)

  // ---------------------------------------------------------------- index reads

  function ByUpload(uploadId: string): UploadRow -> bool {
    (row: UploadRow) => row.uploadId == uploadId
  }

  function ByCase(caseId: string): GraphRow -> bool {
    (row: GraphRow) => row.caseId == caseId
  }

  function ByGraphId(graphId: GraphId): GraphRow -> bool {
    (row: GraphRow) => row.graphId == graphId
  }

  function IsDraft(): GraphRow -> bool {
    (row: GraphRow) => row.kind.DraftVersion?
  }

  function IsPublication(): GraphRow -> bool {
    (row: GraphRow) => row.kind.Publication?
  }

  function SourcesByUpload(uploadId: string): SourceRow -> bool {
    (row: SourceRow) => row.uploadId == uploadId
  }

  function ClaimsByUpload(claims: map<ClaimId, Claim>, uploadId: string): set<ClaimId> {
    set id | id in claims && claims[id].identity.uploadId == uploadId
  }

  function ClaimsByCase(claims: map<ClaimId, Claim>, caseId: string): set<ClaimId> {
    set id | id in claims && claims[id].identity.caseId == caseId
  }

  // ---------------------------------------------------------------- reads shared by the mutations

  function FindClaim(claims: map<ClaimId, Claim>, identity: Identity, expected: ClaimId)
    : Result<Option<Claim>, StoreError>
  {
    var byUpload := ClaimsByUpload(claims, identity.uploadId);
    var byCase := ClaimsByCase(claims, identity.caseId);
    if |byUpload| > 1 || |byCase| > 1 then Err(ClaimFailure(ClaimConflict))
    else if exists id :: id in byUpload + byCase && claims[id].claimId != expected then Err(ClaimFailure(ClaimConflict))
    else if expected !in claims then Ok(None)
    else if !SchemaAccepts(claims[expected]) then Err(ClaimFailure(SchemaRejected))
    else if !IdentityMatches(claims[expected], identity) then Err(ClaimFailure(ClaimConflict))
    else Ok(Some(claims[expected]))
  }

  predicate UploadBelongsTo(row: UploadRow, identity: Identity) {
    row.ownerId == identity.ownerId && row.caseId == identity.caseId && row.contentDigest == identity.contentDigest
  }

  predicate DraftReconstructs(upload: UploadRow, draft: GraphRow, identity: Identity) {
    && draft.ownerId == identity.ownerId
    && draft.caseId == upload.caseId
    && draft.graphId == DraftGraph(identity.uploadId)
    && draft.uploadId == identity.uploadId
    && draft.content.caseId == upload.caseId
    && draft.content.title == draft.title
    && draft.content.sourceDigest == draft.sourceDigest
    && draft.content.segmentCount == upload.segmentCount
  }

  predicate PublicationReconstructs(draft: GraphRow, row: GraphRow, identity: Identity) {
    && row.graphId == PublishedGraph(identity.ownerId, identity.uploadId)
    && row.ownerId == identity.ownerId
    && row.caseId == draft.caseId
    && row.uploadId == identity.uploadId
    && row.content.caseId == draft.content.caseId
    && row.content.title == row.title
    && row.content.sourceDigest == draft.content.sourceDigest
    && row.content.segmentCount == draft.content.segmentCount
    && row.sourceDigest == draft.sourceDigest
    && row.kind == Publication(true)
  }

  /** Whether the stored draft, and its publication if there is one, reconstruct for their owner. */
  predicate Reconstructs(upload: UploadRow, graphs: seq<GraphRow>, identity: Identity) {
    var drafts, publications := Select(graphs, IsDraft()), Select(graphs, IsPublication());
    && |drafts| == 1 && |publications| <= 1
    && DraftReconstructs(upload, drafts[0], identity)
    && (publications != [] ==> PublicationReconstructs(drafts[0], publications[0], identity))
  }

  /** What the durable-replay lookup makes of an upload's rows and a case's rows: no upload rows, an exact durable
      draft, or a conflict. */
  function ReplayOf(uploads: seq<UploadRow>, graphs: seq<GraphRow>, identity: Identity): Result<bool, StoreError> {
    if uploads == [] then Ok(false)
    else if exists i :: 0 <= i < |uploads| && !UploadBelongsTo(uploads[i], identity) then
      Err(ClaimFailure(ClaimConflict))
    else if |uploads| != 2 || {uploads[0].version, uploads[1].version} != {1, 2} then Err(ClaimFailure(ClaimConflict))
    else
      var indexed := if uploads[0].version == 2 then uploads[0] else uploads[1];
      if !indexed.indexed then Err(ClaimFailure(ClaimConflict))
      else if Reconstructs(indexed, graphs, identity) then Ok(true)
      else Err(ClaimFailure(ClaimConflict))
  }

  /** The durable-replay lookup. */
  function CompletedReplayExists(store: Store, identity: Identity): Result<bool, StoreError> {
    ReplayOf(Take(Select(store.uploads, ByUpload(identity.uploadId)), 3),
             Take(Select(store.graphs, ByCase(identity.caseId)), 3),
             identity)
  }

  function Lift<T>(r: Result<T, ClaimError>): Result<T, StoreError> {
    match r case Ok(v) => Ok(v) case Err(e) => Err(ClaimFailure(e))
  }

  // ---------------------------------------------------------------- the mutations as state transitions

  datatype Acquiring = Acquiring(store: Store, outcome: AcquireOutcome, granted: bool)

  /** `acquire`; `page` is the result of the quota's prune scan. `granted` tells whether the quota
      granted a permit. */
  ghost function AcquireTransition(store: Store, request: AcquireRequest, now: int, page: set<nat>)
    : Result<Acquiring, StoreError>
  {
    var claimId := DeriveClaimId(request.identity);
    if !SafeTimestamp(now) then Err(ClaimFailure(SchemaRejected))
    else
      var existing :- FindClaim(store.claims, request.identity, claimId);
      var durable :- CompletedReplayExists(store, request.identity);
      if durable then
        var claim :- Lift(CompletedReplayClaim(existing, request, now));
        Ok(Acquiring(store.(claims := store.claims[claimId := claim]),
                     Answered(AlreadyCompleted(claim.claimId, claim.identity, claim.generation)), false))
      else if existing.Some? && existing.value.status == Completed then Err(ClaimFailure(ClaimConflict))
      else
        var evaluation :- Lift(EvaluateClaim(existing, request, now));
        if !evaluation.quotaRequired then Ok(Acquiring(store, Answered(evaluation.response), false))
        else
          match Quota.Consume(store.quota, request.clientKeyHash, now, page)
          case Err(e) => Err(QuotaFailure(e))
          case Ok(consumed) =>
            var charged := store.(quota := consumed.table);
            if !consumed.permit.allowed then Ok(Acquiring(charged, QuotaExceeded(consumed.permit.retryAfterSeconds),
                                                          false))
            else Ok(Acquiring(charged.(claims := store.claims[claimId := evaluation.claim]),
                              Answered(evaluation.response), true))
  }

  function FencedClaim(store: Store, fence: Fence): Result<Claim, StoreError> {
    var existing :- FindClaim(store.claims, fence.identity, DeriveClaimId(fence.identity));
    if existing.None? then Err(ClaimFailure(ClaimConflict)) else Ok(existing.value)
  }

  function Persist(store: Store, t: Transition): Store {
    if t.persist then store.(claims := store.claims[t.claim.claimId := t.claim]) else store
  }

  function HeartbeatClaim(store: Store, fence: Fence, now: int): Result<Store, StoreError> {
    var existing :- FencedClaim(store, fence);
    var t :- Lift(EvaluateHeartbeat(existing, fence, now));
    Ok(Persist(store, t))
  }

  function ReleaseClaim(store: Store, fence: Fence, terminal: bool, failureCode: string, now: int)
    : Result<Store, StoreError>
  {
    var existing :- FencedClaim(store, fence);
    var t :- Lift(EvaluateRelease(existing, fence, if terminal then TerminalFailed else RetryableFailed, failureCode,
                                  now));
    Ok(Persist(store, t))
  }

  /** `completeCaseCompileClaimInMutation`. */
  function CompleteInMutation(store: Store, fence: Fence, now: int): Result<Store, StoreError> {
    if !SafeTimestamp(now) then Err(ClaimFailure(SchemaRejected))
    else
      var existing :- FencedClaim(store, fence);
      var durable :- CompletedReplayExists(store, fence.identity);
      if !durable then Err(ClaimFailure(ClaimConflict))
      else
        var t :- Lift(EvaluateCompletion(existing, fence, now));
        Ok(Persist(store, t))
  }

  /** The request schema: the graph is the request's own, with the request's segments. */
  predicate RequestAccepted(r: RegisterRequest) {
    r.draft.caseId == r.fence.identity.caseId && r.draft.segmentCount == |r.segmentIds| && |r.segmentIds| >= 1
  }

  function UploadVersion(r: RegisterRequest, version: int): UploadRow {
    var id := r.fence.identity;
    UploadRow(id.uploadId, version, id.ownerId, id.caseId, id.contentDigest, version == 2, r.file,
              if version == 2 then |r.segmentIds| else 0)
  }

  function DraftRow(r: RegisterRequest): GraphRow {
    var id := r.fence.identity;
    GraphRow(r.draftGraphId, id.caseId, DraftVersion, id.ownerId, id.uploadId, r.draft.title, r.draft.sourceDigest,
             r.draft)
  }

  function SourceRows(r: RegisterRequest): seq<SourceRow> {
    seq(|r.segmentIds|, i requires 0 <= i < |r.segmentIds| => SourceRow(r.segmentIds[i], r.fence.identity.uploadId, i))
  }

  /** Nothing stored yet, the very same registration, or a conflict. */
  function ExactReplay(store: Store, r: RegisterRequest): Result<bool, StoreError> {
    var graphs := Take(Select(store.graphs, ByGraphId(r.draftGraphId)), 2);
    var uploads := Select(store.uploads, ByUpload(r.fence.identity.uploadId));
    if graphs == [] && uploads == [] then Ok(false)
    else if |graphs| != 1 || |uploads| != 2 then Err(DraftConflict)
    else if graphs[0].(uploadId := r.fence.identity.uploadId) != DraftRow(r) then Err(DraftConflict)
    else
      var first, second := if uploads[0].version <= uploads[1].version then uploads[0] else uploads[1],
                           if uploads[0].version <= uploads[1].version then uploads[1] else uploads[0];
      if first != UploadVersion(r, 1) || second != UploadVersion(r, 2) then Err(UploadConflict)
      else if Select(store.sources, SourcesByUpload(r.fence.identity.uploadId)) != SourceRows(r) then Err(DraftConflict)
      else Ok(true)
  }

  predicate SegmentTaken(sources: seq<SourceRow>, segmentId: string) {
    exists i :: 0 <= i < |sources| && sources[i].segmentId == segmentId
  }

  function Inserted(store: Store, r: RegisterRequest): Store {
    store.(uploads := store.uploads + [UploadVersion(r, 1), UploadVersion(r, 2)],
           sources := store.sources + SourceRows(r),
           graphs := store.graphs + [DraftRow(r)])
  }

  datatype Registered = Registered(store: Store, replayed: bool)

  /** `assertStoredUpload`: what is wrong with the stored object, if anything. */
  function ObjectFault(stored: Option<StoredObject>, r: RegisterRequest): Option<StoreError> {
    if stored.None? then Some(ObjectNotFound)
    else if stored.value.size != r.file.sizeBytes then Some(SizeMismatch)
    else if !DigestCodec.StoredSha256Matches(stored.value.sha256,
                                             r.fence.identity.contentDigest) then Some(DigestMismatch)
    else if stored.value.mimeType != Some(r.file.mimeType) then Some(MimeTypeMismatch)
    else None
  }

  /** Everything registration checks before it writes; whether it is an exact replay. `fault` is the check of the
      stored object. */
  function RegistrationCheck(store: Store, r: RegisterRequest, fault: Option<StoreError>): Result<bool, StoreError> {
    if !RequestAccepted(r) then Err(DraftConflict)
    else if fault.Some? then Err(fault.value)
    else if r.recordBytes > MAX_CASE_GRAPH_RECORD_BYTES then Err(DraftTooLarge)
    else
      var replay :- ExactReplay(store, r);
      if replay then Ok(true)
      else if Select(store.graphs, ByCase(r.fence.identity.caseId)) != [] then Err(DraftAlreadyExists)
      else if exists i :: 0 <= i < |r.segmentIds| && SegmentTaken(store.sources, r.segmentIds[i]) then
        Err(SourceCollision)
      else if !r.draftGraphId.DraftGraph? then Err(DraftConflict)
      else Ok(false)
  }

  /** `registerCompiledDraft`. */
  function RegisterTransition(store: Store, r: RegisterRequest, fault: Option<StoreError>, now: int)
    : Result<Registered, StoreError>
  {
    var replay :- RegistrationCheck(store, r, fault);
    var completed :- CompleteInMutation(if replay then store else Inserted(store, r), r.fence, now);
    Ok(Registered(completed, replay))
  }

  /** The version-two row of a case may be inserted: `row` belongs to the one draft of its upload and owner, and that
      draft is the newest row of the case. The publishing mutation and its refusals are in Publications. */
  predicate MayPublish(store: Store, row: GraphRow) {
    var drafts := Select(store.graphs, ByGraphId(DraftGraph(row.uploadId)));
    var ofCase := Select(store.graphs, ByCase(row.caseId));
    && |drafts| == 1 && drafts[0].kind.DraftVersion?
    && drafts[0].ownerId == row.ownerId && drafts[0].caseId == row.caseId
    && ofCase != [] && ofCase[|ofCase| - 1].graphId == drafts[0].graphId
    && Select(ofCase, IsPublication()) == []
    && row.sourceDigest == drafts[0].sourceDigest
    && row == PublicationOf(drafts[0], row.title, row.content.body)
  }

  /** A review changes the title and the body of a draft, and neither case, segments nor source. */
  function PublicationOf(draft: GraphRow, title: string, body: string): GraphRow {
    GraphRow(PublishedGraph(draft.ownerId, draft.uploadId), draft.caseId, Publication(true), draft.ownerId,
             draft.uploadId, title, draft.sourceDigest, draft.content.(title := title, body := body))
  }

  function PublishRow(store: Store, row: GraphRow): Store {
    if MayPublish(store, row) then store.(graphs := store.graphs + [row]) else store
  }

  // ---------------------------------------------------------------- the store itself

  class CompileDatabase {
    var claims: map<ClaimId, Claim>
    const quota: Quota.QuotaTable
    var uploads: seq<UploadRow>
    var sources: seq<SourceRow>
    var graphs: seq<GraphRow>

    constructor ()
      ensures Contents() == Store(map[], Quota.Table(map[], 0), [], [], [])
      ensures fresh(quota)
    {
      claims, uploads, sources, graphs := map[], [], [], [];
      quota := new Quota.QuotaTable();
    }

    ghost function Contents(): Store
      reads this, quota
    {
      Store(claims, quota.Contents(), uploads, sources, graphs)
    }

    method ReadReplay(identity: Identity) returns (result: Result<bool, StoreError>)
      ensures result == CompletedReplayExists(Contents(), identity)
    {
      var found := Take(Select(uploads, ByUpload(identity.uploadId)), 3);
      if found == [] {
        return Ok(false);
      }
      var i := 0;
      while i < |found|
        invariant 0 <= i <= |found|
        invariant forall j :: 0 <= j < i ==> UploadBelongsTo(found[j], identity)
      {
        if !UploadBelongsTo(found[i], identity) {
          return Err(ClaimFailure(ClaimConflict));
        }
        i := i + 1;
      }
      if |found| != 2 || {found[0].version, found[1].version} != {1, 2} {
        return Err(ClaimFailure(ClaimConflict));
      }
      var indexed := if found[0].version == 2 then found[0] else found[1];
      var drafts := Take(Select(graphs, ByCase(identity.caseId)), 3);
      if !indexed.indexed || !Reconstructs(indexed, drafts, identity) {
        return Err(ClaimFailure(ClaimConflict));
      }
      result := Ok(true);
    }

    method AcquireLease(request: AcquireRequest, now: int)
      returns (result: Result<AcquireOutcome, StoreError>, ghost page: set<nat>, ghost granted: bool)
      modifies this, quota
      ensures result.Err?
              ==> Contents() == old(Contents())
                  && AcquireTransition(old(Contents()), request, now, page) == Err(result.error)
      ensures result.Ok?
              ==> AcquireTransition(old(Contents()), request, now, page)
                  == Ok(Acquiring(Contents(), result.value, granted))
      ensures granted ==> Quota.Rewrite(old(Contents()).quota, request.clientKeyHash, now).Ok?
                          && Quota.IsOldestStale(Quota.Rewrite(old(Contents()).quota, request.clientKeyHash,
                                                               now).value.table.rows,
                                                 Quota.PruneCutoff(now), page)
    {
      page, granted := {}, false;
      if !SafeTimestamp(now) {
        return Err(ClaimFailure(SchemaRejected)), {}, false;
      }
      var claimId := DeriveClaimId(request.identity);
      var found := FindClaim(claims, request.identity, claimId);
      if found.Err? {
        return Err(found.error), {}, false;
      }
      var existing := found.value;
      var durable := ReadReplay(request.identity);
      if durable.Err? {
        return Err(durable.error), {}, false;
      }
      if durable.value {
        var completed := CompletedReplayClaim(existing, request, now);
        if completed.Err? {
          return Err(ClaimFailure(completed.error)), {}, false;
        }
        var claim := completed.value;
        claims := claims[claimId := claim];
        return Ok(Answered(AlreadyCompleted(claim.claimId, claim.identity, claim.generation))), {}, false;
      }
      if existing.Some? && existing.value.status == Completed {
        return Err(ClaimFailure(ClaimConflict)), {}, false;
      }
      var evaluated := EvaluateClaim(existing, request, now);
      if evaluated.Err? {
        return Err(ClaimFailure(evaluated.error)), {}, false;
      }
      if evaluated.value.quotaRequired {
        var permit;
        permit, page := quota.ConsumePermit(request.clientKeyHash, now);
        if permit.Err? {
          return Err(QuotaFailure(permit.error)), page, false;
        }
        if !permit.value.allowed {
          return Ok(QuotaExceeded(permit.value.retryAfterSeconds)), page, false;
        }
        granted := true;
        claims := claims[claimId := evaluated.value.claim];
      }
      result := Ok(Answered(evaluated.value.response));
    }

    method Heartbeat(fence: Fence, now: int) returns (result: Result<(), StoreError>)
      modifies this
      ensures match HeartbeatClaim(old(Contents()), fence, now)
              case Ok(store) => result == Ok(()) && Contents() == store
              case Err(e) => result == Err(e) && Contents() == old(Contents())
    {
      var existing := FindClaim(claims, fence.identity, DeriveClaimId(fence.identity));
      if existing.Err? {
        return Err(existing.error);
      }
      if existing.value.None? {
        return Err(ClaimFailure(ClaimConflict));
      }
      var t := EvaluateHeartbeat(existing.value.value, fence, now);
      if t.Err? {
        return Err(ClaimFailure(t.error));
      }
      claims := claims[t.value.claim.claimId := t.value.claim];
      result := Ok(());
    }

    method Release(fence: Fence, terminal: bool, failureCode: string, now: int)
      returns (result: Result<bool, StoreError>)
      modifies this
      ensures match ReleaseClaim(old(Contents()), fence, terminal, failureCode, now)
              case Ok(store) => result.Ok? && Contents() == store && (result.value ==> store == old(Contents()))
              case Err(e) => result == Err(e) && Contents() == old(Contents())
    {
      var existing := FindClaim(claims, fence.identity, DeriveClaimId(fence.identity));
      if existing.Err? {
        return Err(existing.error);
      }
      if existing.value.None? {
        return Err(ClaimFailure(ClaimConflict));
      }
      var t := EvaluateRelease(existing.value.value, fence, if terminal then TerminalFailed else RetryableFailed,
                               failureCode, now);
      if t.Err? {
        return Err(ClaimFailure(t.error));
      }
      if t.value.persist {
        claims := claims[t.value.claim.claimId := t.value.claim];
      }
      result := Ok(t.value.replayed);
    }

    /** Completes the claim; used by registration inside its own transaction. */
    method CompleteClaim(fence: Fence, now: int) returns (result: Result<(), StoreError>)
      modifies this
      ensures match CompleteInMutation(old(Contents()), fence, now)
              case Ok(store) => result == Ok(()) && Contents() == store
              case Err(e) => result == Err(e) && Contents() == old(Contents())
    {
      if !SafeTimestamp(now) {
        return Err(ClaimFailure(SchemaRejected));
      }
      var existing := FindClaim(claims, fence.identity, DeriveClaimId(fence.identity));
      if existing.Err? {
        return Err(existing.error);
      }
      if existing.value.None? {
        return Err(ClaimFailure(ClaimConflict));
      }
      var durable := ReadReplay(fence.identity);
      if durable.Err? {
        return Err(durable.error);
      }
      if !durable.value {
        return Err(ClaimFailure(ClaimConflict));
      }
      var t := EvaluateCompletion(existing.value.value, fence, now);
      if t.Err? {
        return Err(ClaimFailure(t.error));
      }
      if t.value.persist {
        claims := claims[t.value.claim.claimId := t.value.claim];
      }
      result := Ok(());
    }

    /** Rejects a registration one of whose segments is already stored. */
    method AnySegmentTaken(segmentIds: seq<string>) returns (taken: bool)
      ensures taken <==> exists i :: 0 <= i < |segmentIds| && SegmentTaken(sources, segmentIds[i])
    {
      var i := 0;
      while i < |segmentIds|
        invariant 0 <= i <= |segmentIds|
        invariant forall j :: 0 <= j < i ==> !SegmentTaken(sources, segmentIds[j])
      {
        if SegmentTaken(sources, segmentIds[i]) {
          return true;
        }
        i := i + 1;
      }
      taken := false;
    }

    /** Inserts the first upload version, the segments one by one, the indexed version and the graph. */
    method InsertDraft(r: RegisterRequest)
      modifies this
      ensures Contents() == Inserted(old(Contents()), r)
    {
      uploads := uploads + [UploadVersion(r, 1)];
      var i := 0;
      while i < |r.segmentIds|
        invariant 0 <= i <= |r.segmentIds|
        invariant uploads == old(uploads) + [UploadVersion(r, 1)] && claims == old(claims) && graphs == old(graphs)
        invariant quota.Contents() == old(quota.Contents())
        invariant sources == old(sources) + SourceRows(r)[..i]
      {
        sources := sources + [SourceRow(r.segmentIds[i], r.fence.identity.uploadId, i)];
        i := i + 1;
      }
      uploads := uploads + [UploadVersion(r, 2)];
      assert uploads == old(uploads) + [UploadVersion(r, 1), UploadVersion(r, 2)];
      graphs := graphs + [DraftRow(r)];
    }

    /** A throw after the inserts rolls them back with the transaction. */
    method InsertAndComplete(r: RegisterRequest, now: int) returns (result: Result<(), StoreError>)
      modifies this
      ensures match CompleteInMutation(Inserted(old(Contents()), r), r.fence, now)
              case Ok(store) => result == Ok(()) && Contents() == store
              case Err(e) => result == Err(e) && Contents() == old(Contents())
    {
      var uploadsBefore, sourcesBefore, graphsBefore := uploads, sources, graphs;
      InsertDraft(r);
      result := CompleteClaim(r.fence, now);
      if result.Err? {
        uploads, sources, graphs := uploadsBefore, sourcesBefore, graphsBefore;
      }
    }

    method CheckRegistration(r: RegisterRequest, stored: Option<StoredObject>)
      returns (result: Result<bool, StoreError>)
      ensures result == RegistrationCheck(Contents(), r, ObjectFault(stored, r))
    {
      if !RequestAccepted(r) {
        return Err(DraftConflict);
      }
      var fault := ObjectFault(stored, r);
      if fault.Some? {
        return Err(fault.value);
      }
      if r.recordBytes > MAX_CASE_GRAPH_RECORD_BYTES {
        return Err(DraftTooLarge);
      }
      var replay := ExactReplay(Store(claims, Quota.Table(map[], 0), uploads, sources, graphs), r);
      if replay.Err? {
        return Err(replay.error);
      }
      if replay.value {
        return Ok(true);
      }
      if Select(graphs, ByCase(r.fence.identity.caseId)) != [] {
        return Err(DraftAlreadyExists);
      }
      var taken := AnySegmentTaken(r.segmentIds);
      if taken {
        return Err(SourceCollision);
      }
      if !r.draftGraphId.DraftGraph? {
        return Err(DraftConflict);
      }
      result := Ok(false);
    }

    method RegisterCompiledDraft(r: RegisterRequest, stored: Option<StoredObject>, now: int)
      returns (result: Result<bool, StoreError>)
      modifies this
      ensures match RegisterTransition(old(Contents()), r, ObjectFault(stored, r), now)
              case Ok(registered) => result == Ok(registered.replayed) && Contents() == registered.store
              case Err(e) => result == Err(e) && Contents() == old(Contents())
    {
      var checked := CheckRegistration(r, stored);
      if checked.Err? {
        return Err(checked.error);
      }
      var completed;
      if checked.value {
        completed := CompleteClaim(r.fence, now);
      } else {
        completed := InsertAndComplete(r, now);
      }
      result := if completed.Ok? then Ok(checked.value) else Err(completed.error);
    }
  }
}
