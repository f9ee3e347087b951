/** The orphan sweeper and the upload cleanup (convex/caseStorageReconciler.ts, convex/caseUploadCleanup.ts).

    A sweep is a chain of scheduled page messages under one lock row. A mutation either commits or throws,
    and a throw changes nothing. `Date.now()` is one reading per mutation. A pagination cursor is the
    position (creation time, id) it stands for; what the platform's `paginate` returns is a parameter. */
module StorageSweep {
  import opened Outcomes
  import opened StorageClaims

  const ORPHAN_GRACE_MS: int := 7 * DAY_MS
  const SWEEP_STALE_MS: int := 3600000
  const PAGE_SIZE: nat := 32

  type ObjectId = nat
  type SweepId = string

  datatype StoredObject = StoredObject(createdAt: Instant, caseContentType: bool, sha256: string, size: nat)

  datatype UploadRow = UploadRow(uploadId: string, version: nat, ownerId: string, storageId: Option<ObjectId>)

  datatype Lock = Lock(activeSweepId: SweepId, generation: int, updatedAt: int)

  datatype Status = Running | Completed | Fenced

  /** A position in the creation-time index. */
  datatype Position = Position(at: Instant, id: ObjectId)

  datatype Counters = Counters(
    scanned: nat, eligible: nat, deleted: nat, dryRunRetained: nat, missing: nat, tooYoung: nat,
    referenced: nat, unsupported: nat, unrecognized: nat, noClaim: nat)

  datatype Sweep = Sweep(
    generation: int, status: Status, deleting: bool, cutoff: int, cursor: Option<Position>,
    pages: nat, counters: Counters, startedAt: int, updatedAt: int, completedAt: Option<int>)

  datatype Audit = Audit(
    sweepId: SweepId, generation: int, storageId: ObjectId, stored: StoredObject, contentDigest: string,
    claim: ClaimRow, deletedAt: int)

  datatype Store = Store(
    objects: map<ObjectId, StoredObject>, uploads: seq<UploadRow>, claims: seq<ClaimRow>,
    lock: Option<Lock>, sweeps: map<SweepId, Sweep>, audits: seq<Audit>)

  datatype SweepError = TimeInvalid | CutoffInvalid | FenceInvalid | StateInvalid

  const ZERO := Counters(0, 0, 0, 0, 0, 0, 0, 0, 0, 0)

  predicate Referenced(uploads: seq<UploadRow>, id: ObjectId) {
    exists i :: 0 <= i < |uploads| && uploads[i].storageId == Some(id)
  }

  // ---------------------------------------------------------------- one candidate

  datatype Decision = DeleteStorage | NotOldEnough | UnsupportedContentType | NoMatchingClaim | IsReferenced | DryRun

  /** `decideCaseStorageReconciliation`. */
  function Decide(createdAt: Instant, caseContentType: bool, cutoff: int, claimAssociated: bool, referenced: bool,
                  deletionEnabled: bool): Decision
  {
    if createdAt >= cutoff as real then NotOldEnough
    else if !caseContentType then UnsupportedContentType
    else if !claimAssociated then NoMatchingClaim
    else if referenced then IsReferenced
    else if !deletionEnabled then DryRun
    else DeleteStorage
  }

  /** What one page run reads besides the objects: digests, the claim lookup, and the reference index. */
  datatype View = View(
    toHex: string -> Option<string>, claimFor: (Instant, string) -> Option<ClaimRow>, referenced: ObjectId -> bool,
    sweepId: SweepId, generation: int, cutoff: int, deleting: bool, now: int)

  /** The claim the loop goes on with: found, and checked once more. */
  function AccountingClaim(created: Instant, digest: string, claims: seq<ClaimRow>): Option<ClaimRow> {
    var claim := FindClaim(created, digest, claims);
    if claim.None? || !Associated(created, digest, claim.value) then None else claim
  }

  /** The branch the page loop takes for one candidate. */
  datatype Verdict =
    | Missing
    | TooYoung
    | Unsupported
    | Unrecognized
    | NoClaim
    | Retained
    | WouldDelete
    | Delete(digest: string, claim: ClaimRow)
    | Uncounted

  function Judge(view: View, objects: map<ObjectId, StoredObject>, id: ObjectId): Verdict {
    if id !in objects then Missing
    else
      var current := objects[id];
      if current.createdAt >= view.cutoff as real then TooYoung
      else if !current.caseContentType then Unsupported
      else
        var digest := view.toHex(current.sha256);
        if digest.None? then Unrecognized
        else
          var claim := view.claimFor(current.createdAt, digest.value);
          if claim.None? then NoClaim
          else
            match Decide(current.createdAt, current.caseContentType, view.cutoff, true,
                         view.referenced(id), view.deleting)
            case IsReferenced => Retained
            case DryRun => WouldDelete
            case DeleteStorage => Delete(digest.value, claim.value)
            case _ => Uncounted
  }

  function Count(counters: Counters, verdict: Verdict): Counters {
    match verdict
    case Missing => counters.(missing := counters.missing + 1)
    case TooYoung => counters.(tooYoung := counters.tooYoung + 1)
    case Unsupported => counters.(unsupported := counters.unsupported + 1)
    case Unrecognized => counters.(unrecognized := counters.unrecognized + 1)
    case NoClaim => counters.(noClaim := counters.noClaim + 1)
    case Retained => counters.(referenced := counters.referenced + 1)
    case WouldDelete =>
      counters.(eligible := counters.eligible + 1, dryRunRetained := counters.dryRunRetained + 1)
    case Delete(_, _) => counters.(eligible := counters.eligible + 1, deleted := counters.deleted + 1)
    case Uncounted => counters
  }

  /** What the page loop updates. */
  datatype Work = Work(objects: map<ObjectId, StoredObject>, audits: seq<Audit>, counters: Counters)

  function Visit(view: View, work: Work, id: ObjectId): Work {
    var verdict := Judge(view, work.objects, id);
    var counted := work.(counters := Count(work.counters, verdict));
    if verdict.Delete? && id in work.objects then
      counted.(
        objects := work.objects - {id},
        audits := work.audits
                  + [Audit(view.sweepId, view.generation, id, work.objects[id], verdict.digest, verdict.claim,
                           view.now)])
    else counted
  }

  function Walk(view: View, work: Work, page: seq<ObjectId>): Work {
    if page == [] then work else Visit(view, Walk(view, work, page[..|page| - 1]), page[|page| - 1])
  }

  // ---------------------------------------------------------------- page messages

  datatype Message = Message(sweepId: SweepId, generation: int, cutoff: int, cursor: Option<Position>)

  /** What `paginate` returned: ids, whether the range is exhausted, and the next cursor if not. */
  datatype Page = Page(ids: seq<ObjectId>, done: bool, next: Position)

  datatype Reply = FencedOff(deletingMode: Option<bool>) | Processed(page: Counters, continued: bool)

  function ResolveCutoff(requested: Option<int>, now: int): Result<int, SweepError> {
    if !SafeTimestamp(now) || now < ORPHAN_GRACE_MS then Err(TimeInvalid)
    else if requested.None? then Ok(now - ORPHAN_GRACE_MS)
    else if !(0 <= requested.value <= MAX_SAFE_INTEGER) || requested.value > now - ORPHAN_GRACE_MS then
      Err(CutoffInvalid)
    else Ok(requested.value)
  }

  predicate FenceMatches(message: Message, lock: Option<Lock>, sweeps: map<SweepId, Sweep>) {
    && lock.Some?
    && message.sweepId in sweeps
    && lock.value.activeSweepId == message.sweepId
    && lock.value.generation == message.generation
    && var sweep := sweeps[message.sweepId];
       && sweep.generation == message.generation
       && sweep.status == Running
       && sweep.cutoff == message.cutoff
       && sweep.cursor == message.cursor
  }

  function AddCounters(a: Counters, b: Counters): Counters {
    Counters(a.scanned + b.scanned, a.eligible + b.eligible, a.deleted + b.deleted,
             a.dryRunRetained + b.dryRunRetained, a.missing + b.missing, a.tooYoung + b.tooYoung,
             a.referenced + b.referenced, a.unsupported + b.unsupported, a.unrecognized + b.unrecognized,
             a.noClaim + b.noClaim)
  }

  /** The sweep row after a page. */
  function Advance(sweep: Sweep, counters: Counters, page: Page, now: int): Sweep {
    sweep.(
      pages := sweep.pages + 1,
      counters := AddCounters(sweep.counters, counters),
      status := if page.done then Completed else Running,
      cursor := if page.done then None else Some(page.next),
      updatedAt := now,
      completedAt := if page.done then Some(now) else None)
  }

  function MessageView(toHex: string -> Option<string>, store: Store, message: Message, now: int): View
    requires message.sweepId in store.sweeps
  {
    View(toHex, (created: Instant, digest: string) => AccountingClaim(created, digest, store.claims),
         (id: ObjectId) => Referenced(store.uploads, id),
         message.sweepId, message.generation, message.cutoff, store.sweeps[message.sweepId].deleting, now)
  }

  function PageWork(toHex: string -> Option<string>, store: Store, message: Message, now: int, page: Page): Work
    requires message.sweepId in store.sweeps
  {
    Walk(MessageView(toHex, store, message, now), Work(store.objects, store.audits, ZERO.(scanned := |page.ids|)),
         page.ids)
  }

  /** What a page commits: its work, the sweep row, and the lock's heartbeat. */
  function Committed(store: Store, sweepId: SweepId, work: Work, page: Page, now: int): Store
    requires sweepId in store.sweeps && store.lock.Some?
  {
    store.(
      objects := work.objects,
      audits := work.audits,
      sweeps := store.sweeps[sweepId := Advance(store.sweeps[sweepId], work.counters, page, now)],
      lock := Some(store.lock.value.(updatedAt := now)))
  }

  /** `reconcileOrphanStoragePage`. */
  function PageStep(toHex: string -> Option<string>, store: Store, message: Message, now: int, page: Page)
    : (Store, Result<Reply, SweepError>)
  {
    var cutoff := ResolveCutoff(Some(message.cutoff), now);
    if cutoff.Err? then (store, Err(cutoff.error))
    else if !(0 < message.generation <= MAX_SAFE_INTEGER) then (store, Err(FenceInvalid))
    else if !FenceMatches(message, store.lock, store.sweeps) then
      var deleting := if message.sweepId in store.sweeps then Some(store.sweeps[message.sweepId].deleting) else None;
      (store, Ok(FencedOff(deleting)))
    else
      var work := PageWork(toHex, store, message, now, page);
      (Committed(store, message.sweepId, work, page, now),
       Ok(Processed(work.counters, !page.done)))
  }

  // ---------------------------------------------------------------- starting a sweep

  datatype StartDecision = Start | AlreadyRunning | Takeover

  /** `caseStorageSweepStartDecision`. */
  function DecideStart(active: Option<Sweep>, now: int): Result<StartDecision, SweepError> {
    if !SafeTimestamp(now) then Err(TimeInvalid)
    else if active.None? || active.value.status != Running then Ok(Start)
    else if !SafeTimestamp(active.value.updatedAt) || active.value.updatedAt > now then Err(StateInvalid)
    else if now - active.value.updatedAt < SWEEP_STALE_MS then Ok(AlreadyRunning)
    else Ok(Takeover)
  }

  datatype StartReply = StartReply(started: bool, sweepId: SweepId, generation: int, deleting: bool)

  function ActiveSweep(store: Store): Option<Sweep> {
    if store.lock.Some? && store.lock.value.activeSweepId in store.sweeps
    then Some(store.sweeps[store.lock.value.activeSweepId]) else None
  }

  function NewSweep(generation: int, deleting: bool, cutoff: int, now: int): Sweep {
    Sweep(generation, Running, deleting, cutoff, None, 0, ZERO, now, now, None)
  }

  function FencedRow(sweep: Sweep, now: int): Sweep {
    sweep.(status := Fenced, updatedAt := now, completedAt := Some(now))
  }

  function NextGeneration(lock: Option<Lock>): int {
    (if lock.Some? then lock.value.generation else 0) + 1
  }

  /** `startOrphanStorageSweep`, with the random sweep id and the deletion switch as parameters. */
  function StartStep(store: Store, now: int, sweepId: SweepId, deleting: bool)
    : (Store, Result<StartReply, SweepError>)
  {
    var cutoff := ResolveCutoff(None, now);
    if cutoff.Err? then (store, Err(cutoff.error))
    else if store.lock.Some? && ActiveSweep(store).None? then (store, Err(StateInvalid))
    else
      var active := ActiveSweep(store);
      var decision := DecideStart(active, now);
      if decision.Err? then (store, Err(decision.error))
      else if decision.value == AlreadyRunning && active.Some? && store.lock.Some? then
        (store,
         Ok(StartReply(false, store.lock.value.activeSweepId, active.value.generation, active.value.deleting)))
      else if NextGeneration(store.lock) > MAX_SAFE_INTEGER then (store, Err(StateInvalid))
      else
        var generation := NextGeneration(store.lock);
        var fenced := if decision.value == Takeover && active.Some? && store.lock.Some?
                      then store.sweeps[store.lock.value.activeSweepId := FencedRow(active.value, now)]
                      else store.sweeps;
        (store.(
           sweeps := fenced[sweepId := NewSweep(generation, deleting, cutoff.value, now)],
           lock := Some(Lock(sweepId, generation, now))),
         Ok(StartReply(true, sweepId, generation, deleting)))
  }

  // ---------------------------------------------------------------- upload rows and cleanup

  datatype CleanupDecision = Unreferenced | MatchingRegistration | Conflict

  /** `decideCaseUploadCleanup`. */
  function DecideCleanup(ownerId: string, uploadId: string, storageReference: Option<UploadRow>,
                         uploadRegistration: Option<UploadRow>): CleanupDecision
  {
    if storageReference.Some? then
      if storageReference.value.ownerId == ownerId && storageReference.value.uploadId == uploadId
      then MatchingRegistration else Conflict
    else if uploadRegistration.Some? then
      if uploadRegistration.value.ownerId == ownerId && uploadRegistration.value.uploadId == uploadId
      then MatchingRegistration else Conflict
    else Unreferenced
  }

  /** First row of an index scan over the upload table. */
  function FirstRow(uploads: seq<UploadRow>, wanted: UploadRow -> bool): Option<UploadRow> {
    if uploads == [] then None
    else if wanted(uploads[0]) then Some(uploads[0])
    else FirstRow(uploads[1..], wanted)
  }

  lemma {:induction false} FirstRowExactly(uploads: seq<UploadRow>, wanted: UploadRow -> bool)
    ensures FirstRow(uploads, wanted).Some? <==> exists i :: 0 <= i < |uploads| && wanted(uploads[i])
    ensures FirstRow(uploads, wanted).Some? ==> FirstRow(uploads, wanted).value in uploads
                                                && wanted(FirstRow(uploads, wanted).value)
  {
    if uploads != [] {
      FirstRowExactly(uploads[1..], wanted);
      assert uploads == [uploads[0]] + uploads[1..];
    }
  }

  /** `cleanupOrphanedStorage`. */
  function CleanupStep(store: Store, ownerId: string, uploadId: string, storageId: ObjectId): (Store, bool) {
    var storageReference := FirstRow(store.uploads, (row: UploadRow) => row.storageId == Some(storageId));
    var registration := FirstRow(store.uploads, (row: UploadRow) => row.uploadId == uploadId);
    if DecideCleanup(ownerId, uploadId, storageReference, registration) != Unreferenced then (store, false)
    else if storageId !in store.objects then (store, false)
    else (store.(objects := store.objects - {storageId}), true)
  }

  /** A cleanup deletes exactly the existing, unreferenced object of an unregistered upload. */
  lemma CleanupDeletesExactly(store: Store, ownerId: string, uploadId: string, storageId: ObjectId)
    ensures var (after, deleted) := CleanupStep(store, ownerId, uploadId, storageId);
            && (deleted <==> && storageId in store.objects && !Referenced(store.uploads, storageId)
                             && forall i :: 0 <= i < |store.uploads| ==> store.uploads[i].uploadId != uploadId)
            && after == store.(objects := if deleted then store.objects - {storageId} else store.objects)
  {
    FirstRowExactly(store.uploads, (row: UploadRow) => row.storageId == Some(storageId));
    FirstRowExactly(store.uploads, (row: UploadRow) => row.uploadId == uploadId);
  }

  /** Latest version of an upload: descending scan of the version index. */
  function Latest(uploads: seq<UploadRow>, uploadId: string): Option<UploadRow> {
    if uploads == [] then None
    else
      var earlier, last := Latest(uploads[..|uploads| - 1], uploadId), uploads[|uploads| - 1];
      if last.uploadId == uploadId && (earlier.None? || earlier.value.version <= last.version) then Some(last)
      else earlier
  }

  lemma {:induction false} LatestIsARow(uploads: seq<UploadRow>, uploadId: string)
    requires Latest(uploads, uploadId).Some?
    ensures Latest(uploads, uploadId).value in uploads
  {
    var earlier := uploads[..|uploads| - 1];
    if Latest(earlier, uploadId).Some? {
      LatestIsARow(earlier, uploadId);
    }
    assert uploads == earlier + [uploads[|uploads| - 1]];
  }

  /** `registerStoredUpload`; `accepted` stands for its size, type and digest checks. */
  function RegisterStep(store: Store, uploadId: string, ownerId: string, storageId: ObjectId, accepted: bool): Store {
    if storageId !in store.objects || !accepted then store
    else store.(uploads := store.uploads + [UploadRow(uploadId, 1, ownerId, Some(storageId))])
  }

  /** The upload rows of `registerCompiledDraft`, behind `assertStoredUpload`; `accepted` stands for its
      other checks, including that the registration is not a replay. */
  function DraftStep(store: Store, uploadId: string, ownerId: string, storageId: ObjectId, accepted: bool): Store {
    if storageId !in store.objects || !accepted then store
    else
      store.(uploads := store.uploads + [UploadRow(uploadId, 1, ownerId, Some(storageId)),
                                         UploadRow(uploadId, 2, ownerId, Some(storageId))])
  }

  /** `completeIndexing` and `rejectUpload`: a further version that keeps the storage id. */
  function VersionStep(store: Store, uploadId: string, expectedVersion: nat, accepted: bool): Store {
    var current := Latest(store.uploads, uploadId);
    if current.None? || current.value.version != expectedVersion || !accepted then store
    else store.(uploads := store.uploads + [current.value.(version := current.value.version + 1)])
  }

  // ---------------------------------------------------------------- the mutations

  class CaseStorage {
    var objects: map<ObjectId, StoredObject>
    var uploads: seq<UploadRow>
    var claims: seq<ClaimRow>
    var lock: Option<Lock>
    var sweeps: map<SweepId, Sweep>
    var audits: seq<Audit>

    function State(): Store
      reads this
    {
      Store(objects, uploads, claims, lock, sweeps, audits)
    }

    constructor ()
      ensures State() == Store(map[], [], [], None, map[], [])
    {
      objects, uploads, claims, lock, sweeps, audits := map[], [], [], None, map[], [];
    }

    method StartOrphanStorageSweep(now: int, sweepId: SweepId, deleting: bool)
      returns (reply: Result<StartReply, SweepError>)
      modifies this
      ensures (State(), reply) == StartStep(old(State()), now, sweepId, deleting)
    {
      var cutoff :- ResolveCutoff(None, now);
      var active: Option<Sweep> := None;
      if lock.Some? {
        if lock.value.activeSweepId !in sweeps {
          return Err(StateInvalid);
        }
        active := Some(sweeps[lock.value.activeSweepId]);
      }
      var decision :- DecideStart(active, now);
      if decision == AlreadyRunning && lock.Some? && active.Some? {
        return Ok(StartReply(false, lock.value.activeSweepId, active.value.generation, active.value.deleting));
      }
      var generation := NextGeneration(lock);
      if generation > MAX_SAFE_INTEGER {
        return Err(StateInvalid);
      }
      if decision == Takeover && lock.Some? && active.Some? {
        sweeps := sweeps[lock.value.activeSweepId := FencedRow(active.value, now)];
      }
      sweeps := sweeps[sweepId := NewSweep(generation, deleting, cutoff, now)];
      lock := Some(Lock(sweepId, generation, now));
      reply := Ok(StartReply(true, sweepId, generation, deleting));
    }

    method FindReference(id: ObjectId) returns (referenced: bool)
      ensures referenced == Referenced(uploads, id)
    {
      var i := 0;
      while i < |uploads|
        invariant 0 <= i <= |uploads|
        invariant forall j :: 0 <= j < i ==> uploads[j].storageId != Some(id)
      {
        if uploads[i].storageId == Some(id) {
          return true;
        }
        i := i + 1;
      }
      referenced := false;
    }

    /** The page loop: judges every candidate and updates objects, audits and counters in place. */
    method WalkPage(view: View, ids: seq<ObjectId>) returns (counters: Counters)
      requires forall created, digest :: view.claimFor(created, digest) == AccountingClaim(created, digest, claims)
      requires forall id :: view.referenced(id) == Referenced(uploads, id)
      modifies `objects, `audits
      ensures Work(objects, audits, counters)
              == Walk(view, Work(old(objects), old(audits), ZERO.(scanned := |ids|)), ids)
    {
      counters := ZERO.(scanned := |ids|);
      ghost var start := Work(objects, audits, counters);
      for i := 0 to |ids|
        invariant Work(objects, audits, counters) == Walk(view, start, ids[..i])
      {
        assert ids[..i + 1][..i] == ids[..i];
        counters := VisitCandidate(view, ids[i], counters);
      }
      assert ids[..|ids|] == ids;
    }

    /** The loop body, branch by branch. */
    method VisitCandidate(view: View, id: ObjectId, before: Counters) returns (counters: Counters)
      requires forall created, digest :: view.claimFor(created, digest) == AccountingClaim(created, digest, claims)
      requires forall id :: view.referenced(id) == Referenced(uploads, id)
      modifies `objects, `audits
      ensures Work(objects, audits, counters) == Visit(view, Work(old(objects), old(audits), before), id)
    {
      counters := before;
      if id !in objects {
        counters := counters.(missing := counters.missing + 1);
        return;
      }
      var current := objects[id];
      if current.createdAt >= view.cutoff as real {
        counters := counters.(tooYoung := counters.tooYoung + 1);
        return;
      }
      if !current.caseContentType {
        counters := counters.(unsupported := counters.unsupported + 1);
        return;
      }
      var digest := view.toHex(current.sha256);
      if digest.None? {
        counters := counters.(unrecognized := counters.unrecognized + 1);
        return;
      }
      var claim := FindClaim(current.createdAt, digest.value, claims);
      if claim.None? || !Associated(current.createdAt, digest.value, claim.value) {
        counters := counters.(noClaim := counters.noClaim + 1);
        return;
      }
      var referenced := FindReference(id);
      var decision := Decide(current.createdAt, current.caseContentType, view.cutoff, true, referenced, view.deleting);
      if decision != DeleteStorage {
        if decision == IsReferenced {
          counters := counters.(referenced := counters.referenced + 1);
        }
        if decision == DryRun {
          counters := counters.(eligible := counters.eligible + 1, dryRunRetained := counters.dryRunRetained + 1);
        }
        return;
      }
      objects := objects - {id};
      audits := audits + [Audit(view.sweepId, view.generation, id, current, digest.value, claim.value, view.now)];
      counters := counters.(eligible := counters.eligible + 1, deleted := counters.deleted + 1);
    }

    method ReconcileOrphanStoragePage(toHex: string -> Option<string>, message: Message, now: int, page: Page)
      returns (reply: Result<Reply, SweepError>)
      modifies this
      ensures (State(), reply) == PageStep(toHex, old(State()), message, now, page)
    {
      var cutoff :- ResolveCutoff(Some(message.cutoff), now);
      if !(0 < message.generation <= MAX_SAFE_INTEGER) {
        return Err(FenceInvalid);
      }
      if !FenceMatches(message, lock, sweeps) {
        return Ok(FencedOff(if message.sweepId in sweeps then Some(sweeps[message.sweepId].deleting) else None));
      }
      var sweep := sweeps[message.sweepId];
      var counters := WalkPage(MessageView(toHex, State(), message, now), page.ids);
      sweeps := sweeps[message.sweepId := Advance(sweep, counters, page, now)];
      lock := Some(lock.value.(updatedAt := now));
      reply := Ok(Processed(counters, !page.done));
    }

    method CleanupOrphanedStorage(ownerId: string, uploadId: string, storageId: ObjectId) returns (deleted: bool)
      modifies `objects
      ensures (State(), deleted) == CleanupStep(old(State()), ownerId, uploadId, storageId)
    {
      var storageReference := FirstRow(uploads, (row: UploadRow) => row.storageId == Some(storageId));
      var registration := FirstRow(uploads, (row: UploadRow) => row.uploadId == uploadId);
      if DecideCleanup(ownerId, uploadId, storageReference, registration) != Unreferenced {
        return false;
      }
      if storageId !in objects {
        return false;
      }
      objects := objects - {storageId};
      deleted := true;
    }
  }
}
