/** What the orphan sweeper guarantees over whole runs (convex/caseStorageReconciler.ts,
    convex/caseUploadCleanup.ts, and the upload writers of convex/caseUploads.ts and convex/caseDrafts.ts).

    Page messages may arrive in any order, late, twice, or with any arguments at all, so a run delivers
    arbitrary messages. Ghost history records which pages were processed and what they scanned. */
module StorageSafety {
  import opened Outcomes
  import opened Sequences
  import opened StorageClaims
  import opened StorageSweep
  import DigestCodec

  // ---------------------------------------------------------------- one page

  lemma JudgeIsLocal(view: View, a: map<ObjectId, StoredObject>, b: map<ObjectId, StoredObject>, id: ObjectId)
    requires (id in a <==> id in b) && (id in a ==> a[id] == b[id])
    ensures Judge(view, a, id) == Judge(view, b, id)
  {
  }

  /** The four conditions of a deletion, and no others. */
  lemma DeleteMeans(view: View, objects: map<ObjectId, StoredObject>, id: ObjectId)
    ensures Judge(view, objects, id).Delete? <==>
              && id in objects
              && objects[id].createdAt < view.cutoff as real
              && objects[id].caseContentType
              && view.toHex(objects[id].sha256).Some?
              && view.claimFor(objects[id].createdAt, view.toHex(objects[id].sha256).value).Some?
              && !view.referenced(id)
              && view.deleting
    ensures var verdict := Judge(view, objects, id);
            verdict.Delete? ==>
              && view.toHex(objects[id].sha256) == Some(verdict.digest)
              && view.claimFor(objects[id].createdAt, verdict.digest) == Some(verdict.claim)
    ensures Judge(view, objects, id) != Uncounted
  {
  }

  ghost predicate Doomed(view: View, objects: map<ObjectId, StoredObject>, id: ObjectId) {
    Judge(view, objects, id).Delete?
  }

  function AuditFor(view: View, objects: map<ObjectId, StoredObject>, id: ObjectId): Audit
    requires id in objects && Judge(view, objects, id).Delete?
  {
    var verdict := Judge(view, objects, id);
    Audit(view.sweepId, view.generation, id, objects[id], verdict.digest, verdict.claim, view.now)
  }

  /** The audit rows a page writes, judged against the objects it started with. */
  function AuditsOf(view: View, objects: map<ObjectId, StoredObject>, ids: seq<ObjectId>): seq<Audit> {
    if ids == [] then []
    else
      var earlier, last := AuditsOf(view, objects, ids[..|ids| - 1]), ids[|ids| - 1];
      if last in objects && Judge(view, objects,
                                  last).Delete? then earlier + [AuditFor(view, objects, last)] else earlier
  }

  function Tallied(c: Counters): nat {
    c.missing + c.tooYoung + c.unsupported + c.unrecognized + c.noClaim + c.referenced + c.dryRunRetained + c.deleted
  }

  /** Deleting as the page goes is the same as judging every candidate against the objects at its start. */
  lemma {:induction false} WalkExactly(view: View, start: Work, ids: seq<ObjectId>)
    requires Distinct(ids)
    ensures var work := Walk(view, start, ids);
            && work.audits == start.audits + AuditsOf(view, start.objects, ids)
            && (forall id :: id in work.objects <==>
                  id in start.objects && !(id in ids && Doomed(view, start.objects, id)))
            && (forall id :: id in work.objects ==> work.objects[id] == start.objects[id])
  {
    if ids != [] {
      var earlier, last := ids[..|ids| - 1], ids[|ids| - 1];
      WalkExactly(view, start, earlier);
      var before := Walk(view, start, earlier);
      assert ids == earlier + [last] && last !in earlier;
      JudgeIsLocal(view, start.objects, before.objects, last);
      DeleteMeans(view, start.objects, last);
    }
  }

  /** Each verdict is counted once, on the counter of its branch. */
  lemma CountBalances(counters: Counters, verdict: Verdict)
    requires verdict != Uncounted
    ensures var c := Count(counters, verdict);
            && c.scanned == counters.scanned && Tallied(c) == Tallied(counters) + 1
            && c.eligible + counters.deleted + counters.dryRunRetained
               == counters.eligible + c.deleted + c.dryRunRetained
            && c.deleted == counters.deleted + (if verdict.Delete? then 1 else 0)
            && c.missing == counters.missing + (if verdict.Missing? then 1 else 0)
            && c.tooYoung == counters.tooYoung + (if verdict.TooYoung? then 1 else 0)
  {
  }

  /** What counting has done since the start of a walk. */
  predicate Balanced(start: Work, work: Work, visited: nat, deleting: bool) {
    var c, d := work.counters, start.counters;
    && c.scanned == d.scanned
    && Tallied(c) == Tallied(d) + visited
    && c.eligible + d.deleted + d.dryRunRetained == d.eligible + c.deleted + c.dryRunRetained
    && |work.audits| + d.deleted == |start.audits| + c.deleted
    && (!deleting ==> c.deleted == d.deleted)
  }

  lemma VisitBalances(view: View, start: Work, before: Work, id: ObjectId, visited: nat)
    requires Balanced(start, before, visited, view.deleting)
    ensures Balanced(start, Visit(view, before, id), visited + 1, view.deleting)
  {
    var verdict := Judge(view, before.objects, id);
    DeleteMeans(view, before.objects, id);
    CountBalances(before.counters, verdict);
  }

  lemma {:induction false} WalkBalances(view: View, start: Work, ids: seq<ObjectId>)
    ensures Balanced(start, Walk(view, start, ids), |ids|, view.deleting)
  {
    if ids != [] {
      WalkBalances(view, start, ids[..|ids| - 1]);
      VisitBalances(view, start, Walk(view, start, ids[..|ids| - 1]), ids[|ids| - 1], |ids| - 1);
    }
  }

  /** The counter of a verdict's branch. */
  function CounterOf(c: Counters, branch: Verdict): nat {
    match branch
    case Missing => c.missing
    case TooYoung => c.tooYoung
    case Unsupported => c.unsupported
    case Unrecognized => c.unrecognized
    case NoClaim => c.noClaim
    case Retained => c.referenced
    case WouldDelete => c.dryRunRetained
    case Delete(_, _) => c.deleted
    case Uncounted => 0
  }

  predicate SameBranch(a: Verdict, b: Verdict) {
    a == b || (a.Delete? && b.Delete?)
  }

  /** How many candidates of a page take a branch, judged against the objects at its start. */
  function InBranch(view: View, objects: map<ObjectId, StoredObject>, ids: seq<ObjectId>, branch: Verdict): nat {
    if ids == [] then 0
    else
      InBranch(view, objects, ids[..|ids| - 1], branch)
      + if SameBranch(Judge(view, objects, ids[|ids| - 1]), branch) then 1 else 0
  }

  /** Each counter of a page counts exactly the candidates of its own branch. */
  lemma {:induction false} WalkCountsBranches(view: View, start: Work, ids: seq<ObjectId>, branch: Verdict)
    requires Distinct(ids) && branch != Uncounted
    ensures CounterOf(Walk(view, start, ids).counters, branch)
            == CounterOf(start.counters, branch) + InBranch(view, start.objects, ids, branch)
  {
    if ids != [] {
      var earlier, last := ids[..|ids| - 1], ids[|ids| - 1];
      WalkCountsBranches(view, start, earlier, branch);
      WalkExactly(view, start, earlier);
      var before := Walk(view, start, earlier);
      JudgeIsLocal(view, start.objects, before.objects, last);
      VisitCounts(view, before, last, branch);
    }
  }

  lemma VisitCounts(view: View, before: Work, id: ObjectId, branch: Verdict)
    requires branch != Uncounted
    ensures CounterOf(Visit(view, before, id).counters, branch)
            == CounterOf(before.counters, branch) + if SameBranch(Judge(view, before.objects, id), branch) then 1 else 0
  {
  }

  lemma {:induction false} AuditsAreSound(view: View, objects: map<ObjectId, StoredObject>, ids: seq<ObjectId>,
                                          a: Audit)
    requires a in AuditsOf(view, objects, ids)
    ensures a.storageId in ids && a.storageId in objects && Doomed(view, objects, a.storageId)
    ensures a == AuditFor(view, objects, a.storageId)
  {
    var earlier := ids[..|ids| - 1];
    if a in AuditsOf(view, objects, earlier) {
      AuditsAreSound(view, objects, earlier, a);
    }
    assert ids == earlier + [ids[|ids| - 1]];
  }

  // ---------------------------------------------------------------- positions and pages

  predicate Before(a: Position, b: Position) {
    a.at < b.at || (a.at == b.at && a.id < b.id)
  }

  predicate After(cursor: Option<Position>, p: Position) {
    cursor.None? || Before(cursor.value, p)
  }

  function PositionOf(objects: map<ObjectId, StoredObject>, id: ObjectId): Position
    requires id in objects
  {
    Position(objects[id].createdAt, id)
  }

  predicate InSweepRange(objects: map<ObjectId, StoredObject>, cutoff: int, cursor: Option<Position>, id: ObjectId) {
    id in objects && objects[id].createdAt < cutoff as real && After(cursor, PositionOf(objects, id))
  }

  /** The platform's promise for `paginate` over the creation-time index below `cutoff`: an ascending run
      of what lies after the cursor, with nothing skipped up to the next cursor. */
  ghost predicate IsPage(objects: map<ObjectId, StoredObject>, cutoff: int, cursor: Option<Position>, page: Page) {
    && |page.ids| <= PAGE_SIZE
    && (forall i :: 0 <= i < |page.ids| ==> InSweepRange(objects, cutoff, cursor, page.ids[i]))
    && (forall i, j :: 0 <= i < j < |page.ids| ==>
          Before(PositionOf(objects, page.ids[i]), PositionOf(objects, page.ids[j])))
    && (forall id :: InSweepRange(objects, cutoff, cursor,
                                  id) && (page.done || !Before(page.next, PositionOf(objects, id)))
          ==> id in page.ids)
    && (!page.done ==>
          && After(cursor, page.next)
          && forall i :: 0 <= i < |page.ids| ==> !Before(page.next, PositionOf(objects, page.ids[i])))
  }

  function Positions(objects: map<ObjectId, StoredObject>, ids: seq<ObjectId>): seq<Position>
    requires forall i :: 0 <= i < |ids| ==> ids[i] in objects
  {
    seq(|ids|, i requires 0 <= i < |ids| => PositionOf(objects, ids[i]))
  }

  ghost predicate Ascending(positions: seq<Position>) {
    forall i, j :: 0 <= i < j < |positions| ==> Before(positions[i], positions[j])
  }

  /** On a page of the index the defensive counters stay at zero: nothing is missing or too young. */
  lemma {:induction false} IndexPagesMissNothing(view: View, start: Work, ids: seq<ObjectId>)
    requires Distinct(ids)
    requires forall i :: 0 <= i < |ids| ==>
              ids[i] in start.objects && start.objects[ids[i]].createdAt < view.cutoff as real
    ensures var c := Walk(view, start, ids).counters;
            c.missing == start.counters.missing && c.tooYoung == start.counters.tooYoung
  {
    if ids != [] {
      var earlier, last := ids[..|ids| - 1], ids[|ids| - 1];
      IndexPagesMissNothing(view, start, earlier);
      WalkExactly(view, start, earlier);
      JudgeIsLocal(view, start.objects, Walk(view, start, earlier).objects, last);
      OldObjectIsCounted(view, Walk(view, start, earlier), last);
    }
  }

  lemma OldObjectIsCounted(view: View, work: Work, id: ObjectId)
    requires !Judge(view, work.objects, id).Missing? && !Judge(view, work.objects, id).TooYoung?
    ensures var c := Visit(view, work, id).counters;
            c.missing == work.counters.missing && c.tooYoung == work.counters.tooYoung
  {
  }

  // ---------------------------------------------------------------- runs

  datatype Step =
    | StartSweep(now: int, sweepId: SweepId, deleting: bool)
    | Deliver(message: Message, now: int, page: Page)
    | Cleanup(ownerId: string, uploadId: string, storageId: ObjectId)
    | Upload(id: ObjectId, stored: StoredObject)
    | Register(uploadId: string, ownerId: string, storageId: ObjectId, accepted: bool)
    | RegisterDraft(uploadId: string, ownerId: string, storageId: ObjectId, accepted: bool)
    | NextVersion(uploadId: string, expectedVersion: nat, accepted: bool)
    | WriteClaims(claims: seq<ClaimRow>)

  /** Pages processed, positions scanned and objects present at the start, by sweep; every id ever used. */
  ghost const EMPTY := World(Store(map[], [], [], None, map[], []), [], map[], map[], {})

  datatype World = World(
    store: Store, processed: seq<(SweepId, Option<Position>)>, scanned: map<SweepId, seq<Position>>,
    present: map<SweepId, set<ObjectId>>, used: set<ObjectId>)

  /** Whether a page message gets past the fence. */
  predicate Passes(store: Store, message: Message, now: int) {
    && ResolveCutoff(Some(message.cutoff), now).Ok?
    && 0 < message.generation <= MAX_SAFE_INTEGER
    && FenceMatches(message, store.lock, store.sweeps)
  }

  /** Hypotheses on the platform: sweep and storage ids are fresh, and pages are pages. */
  ghost predicate Possible(w: World, step: Step) {
    match step
    case StartSweep(_, sweepId, _) => sweepId !in w.store.sweeps
    case Upload(id, _) => id !in w.used
    case Deliver(message, now, page) =>
      Passes(w.store, message, now) ==> IsPage(w.store.objects, message.cutoff, message.cursor, page)
    case _ => true
  }

  ghost function Next(toHex: string -> Option<string>, w: World, step: Step): World
    requires Possible(w, step)
  {
    match step
    case StartSweep(now, sweepId, deleting) =>
      var (store, reply) := StartStep(w.store, now, sweepId, deleting);
      if reply.Ok? && reply.value.started then
        w.(store := store, scanned := w.scanned[sweepId := []], present := w.present[sweepId := w.store.objects.Keys])
      else w.(store := store)
    case Deliver(message, now, page) =>
      var store := PageStep(toHex, w.store, message, now, page).0;
      if Passes(w.store, message, now) then
        w.(store := store,
           processed := w.processed + [(message.sweepId, message.cursor)],
           scanned := w.scanned[message.sweepId :=
             (if message.sweepId in w.scanned then w.scanned[message.sweepId] else [])
             + Positions(w.store.objects, page.ids)])
      else w.(store := store)
    case Cleanup(ownerId, uploadId, storageId) =>
      w.(store := CleanupStep(w.store, ownerId, uploadId, storageId).0)
    case Upload(id, stored) =>
      w.(store := w.store.(objects := w.store.objects[id := stored]), used := w.used + {id})
    case Register(uploadId, ownerId, storageId, accepted) =>
      w.(store := RegisterStep(w.store, uploadId, ownerId, storageId, accepted))
    case RegisterDraft(uploadId, ownerId, storageId, accepted) =>
      w.(store := DraftStep(w.store, uploadId, ownerId, storageId, accepted))
    case NextVersion(uploadId, expectedVersion, accepted) =>
      w.(store := VersionStep(w.store, uploadId, expectedVersion, accepted))
    case WriteClaims(claims) => w.(store := w.store.(claims := claims))
  }

  ghost predicate PossibleRun(toHex: string -> Option<string>, w: World, steps: seq<Step>)
    decreases |steps|
  {
    steps == [] || (Possible(w, steps[0]) && PossibleRun(toHex, Next(toHex, w, steps[0]), steps[1..]))
  }

  ghost function Run(toHex: string -> Option<string>, w: World, steps: seq<Step>): World
    requires PossibleRun(toHex, w, steps)
    decreases |steps|
  {
    if steps == [] then w else Run(toHex, Next(toHex, w, steps[0]), steps[1..])
  }

  // ---------------------------------------------------------------- invariants

  /** At most one sweep runs; it is the lock's, and the lock's generation is the newest. */
  predicate LockInv(store: Store) {
    && (store.lock.None? ==> store.sweeps == map[])
    && (store.lock.Some? ==>
          var active := store.lock.value.activeSweepId;
          && active in store.sweeps
          && store.sweeps[active].generation == store.lock.value.generation
          && (forall id :: id in store.sweeps && id != active ==>
                store.sweeps[id].generation < store.lock.value.generation && store.sweeps[id].status != Running))
    && (forall a, b :: a in store.sweeps && b in store.sweeps && a != b ==>
          store.sweeps[a].generation != store.sweeps[b].generation)
  }

  /** Every upload row's object exists. */
  predicate IntegrityInv(store: Store) {
    forall i :: 0 <= i < |store.uploads| && store.uploads[i].storageId.Some? ==>
      store.uploads[i].storageId.value in store.objects
  }

  predicate HasRow(store: Store, row: UploadRow) {
    row.storageId.Some? ==> row.storageId.value in store.objects
  }

  /** A sweep's counters account for every candidate it scanned and every audit row it wrote. */
  predicate CountersInv(counters: Counters, deleting: bool, scanned: nat, audited: nat) {
    && counters.scanned == scanned == Tallied(counters)
    && counters.eligible == counters.deleted + counters.dryRunRetained
    && counters.deleted == audited
    && (!deleting ==> counters.deleted == 0)
    && counters.missing == 0 && counters.tooYoung == 0
  }

  function AuditsBy(audits: seq<Audit>, sweepId: SweepId): nat {
    if audits == [] then 0
    else AuditsBy(audits[..|audits| - 1], sweepId) + if audits[|audits| - 1].sweepId == sweepId then 1 else 0
  }

  /** Sweeps and ghost history speak of the same ids. */
  predicate Tracked(w: World) {
    w.present.Keys == w.scanned.Keys == w.store.sweeps.Keys
  }

  predicate SweepBalances(store: Store, id: SweepId, scanned: seq<Position>)
    requires id in store.sweeps
  {
    CountersInv(store.sweeps[id].counters, store.sweeps[id].deleting, |scanned|, AuditsBy(store.audits, id))
  }

  predicate AuditsTracked(store: Store) {
    forall i :: 0 <= i < |store.audits| ==> store.audits[i].sweepId in store.sweeps
  }

  ghost predicate BooksInv(w: World) {
    && Tracked(w)
    && (forall id {:trigger w.scanned[id]} :: id in w.store.sweeps ==>
          SweepBalances(w.store, id, w.scanned[id]))
    && AuditsTracked(w.store)
  }

  /** How far a sweep has come: nothing before its first page, up to the cursor while it runs. */
  predicate Reached(sweep: Sweep, p: Position) {
    sweep.status == Completed || (sweep.cursor.Some? && !Before(sweep.cursor.value, p))
  }

  /** Scans ascend, so none repeats, and miss nothing that was there all along. */
  ghost predicate CoverageInv(w: World) {
    && Tracked(w)
    && w.store.objects.Keys <= w.used
    && (forall id :: id in w.store.sweeps ==> w.present[id] <= w.used)
    && (forall id :: id in w.store.sweeps ==> SweepCovers(w.store, w.store.sweeps[id], w.scanned[id], w.present[id]))
  }

  predicate Due(objects: map<ObjectId, StoredObject>, sweep: Sweep, id: ObjectId) {
    id in objects && objects[id].createdAt < sweep.cutoff as real && Reached(sweep, PositionOf(objects, id))
  }

  ghost predicate SweepCovers(store: Store, sweep: Sweep, scanned: seq<Position>, present: set<ObjectId>) {
    && Ascending(scanned)
    && (sweep.status == Running ==> forall i :: 0 <= i < |scanned| ==> Reached(sweep, scanned[i]))
    && (sweep.status != Fenced ==>
          forall id :: id in present && Due(store.objects, sweep, id) ==> PositionOf(store.objects, id) in scanned)
  }

  /** No page of a sweep is processed twice: what was processed lies before the cursor. */
  ghost predicate OnceInv(w: World) {
    && (forall i, j :: 0 <= i < j < |w.processed| ==> w.processed[i] != w.processed[j])
    && (forall i :: 0 <= i < |w.processed| ==>
          && w.processed[i].0 in w.store.sweeps
          && Behind(w.store.sweeps[w.processed[i].0], w.processed[i].1))
  }

  function PagesBy(processed: seq<(SweepId, Option<Position>)>, sweepId: SweepId): nat {
    if processed == [] then 0
    else PagesBy(processed[..|processed| - 1], sweepId) + if processed[|processed| - 1].0 == sweepId then 1 else 0
  }

  /** A sweep counts its processed pages. */
  ghost predicate PagesInv(w: World) {
    forall id :: id in w.store.sweeps ==> PagesCounted(w, id)
  }

  predicate PagesCounted(w: World, id: SweepId)
    requires id in w.store.sweeps
  {
    w.store.sweeps[id].pages == PagesBy(w.processed, id)
  }

  predicate Behind(sweep: Sweep, cursor: Option<Position>) {
    sweep.status == Running ==> sweep.cursor.Some? && After(cursor, sweep.cursor.value)
  }

  /** Each deletion was by a deleting sweep, of an object over seven days old that a claim accounts for. */
  ghost predicate Justified(toHex: string -> Option<string>, sweeps: map<SweepId, Sweep>, a: Audit) {
    && a.sweepId in sweeps && sweeps[a.sweepId].deleting
    && a.stored.createdAt < (a.deletedAt - ORPHAN_GRACE_MS) as real
    && a.stored.createdAt < sweeps[a.sweepId].cutoff as real
    && a.stored.caseContentType
    && toHex(a.stored.sha256) == Some(a.contentDigest)
    && Associated(a.stored.createdAt, a.contentDigest, a.claim)
  }

  ghost predicate AuditInv(toHex: string -> Option<string>, store: Store) {
    forall i :: 0 <= i < |store.audits| ==> Justified(toHex, store.sweeps, store.audits[i])
  }

  ghost predicate SafetyInv(toHex: string -> Option<string>, w: World) {
    && LockInv(w.store) && IntegrityInv(w.store) && BooksInv(w) && CoverageInv(w) && OnceInv(w) && PagesInv(w)
    && AuditInv(toHex, w.store)
  }

  // ---------------------------------------------------------------- a processed page

  ghost function PageView(toHex: string -> Option<string>, store: Store, message: Message, now: int): View
    requires Passes(store, message, now)
  {
    MessageView(toHex, store, message, now)
  }

  lemma AscendingPageIsDistinct(objects: map<ObjectId, StoredObject>, cutoff: int, cursor: Option<Position>, page: Page)
    requires IsPage(objects, cutoff, cursor, page)
    ensures Distinct(page.ids)
  {
  }

  /** A page accounts for every candidate it scanned. */
  predicate PageBalance(counters: Counters, size: nat, audited: int, deleting: bool) {
    && counters.scanned == size == Tallied(counters)
    && counters.missing == counters.tooYoung == 0
    && counters.eligible == counters.deleted + counters.dryRunRetained
    && counters.deleted == audited
    && (!deleting ==> counters.deleted == 0)
  }

  /** What a page does, judged against the objects at its start. */
  ghost predicate PageEffect(view: View, store: Store, ids: seq<ObjectId>, work: Work) {
    && work.audits == store.audits + AuditsOf(view, store.objects, ids)
    && (forall id :: id in work.objects <==> id in store.objects && !(id in ids && Doomed(view, store.objects, id)))
    && (forall id :: id in work.objects ==> work.objects[id] == store.objects[id])
    && PageBalance(work.counters, |ids|, |AuditsOf(view, store.objects, ids)|, view.deleting)
  }

  function FirstWork(store: Store, ids: seq<ObjectId>): Work {
    Work(store.objects, store.audits, ZERO.(scanned := |ids|))
  }

  lemma BalanceFromZero(start: Work, work: Work, size: nat, deleting: bool)
    requires Balanced(start, work, size, deleting) && start.counters == ZERO.(scanned := size)
    requires work.counters.missing == 0 && work.counters.tooYoung == 0
    ensures PageBalance(work.counters, size, |work.audits| - |start.audits|, deleting)
  {
    assert Tallied(start.counters) == 0;
  }

  lemma WalkHasBalance(view: View, store: Store, ids: seq<ObjectId>)
    requires Distinct(ids)
    requires forall i :: 0 <= i < |ids| ==>
              ids[i] in store.objects && store.objects[ids[i]].createdAt < view.cutoff as real
    ensures PageBalance(Walk(view, FirstWork(store, ids), ids).counters, |ids|,
                        |Walk(view, FirstWork(store, ids), ids).audits| - |store.audits|, view.deleting)
  {
    IndexPagesMissNothing(view, FirstWork(store, ids), ids);
    WalkBalances(view, FirstWork(store, ids), ids);
    BalanceFromZero(FirstWork(store, ids), Walk(view, FirstWork(store, ids), ids), |ids|, view.deleting);
  }

  lemma WalkHasEffect(view: View, store: Store, ids: seq<ObjectId>)
    requires Distinct(ids)
    requires forall i :: 0 <= i < |ids| ==>
              ids[i] in store.objects && store.objects[ids[i]].createdAt < view.cutoff as real
    ensures PageEffect(view, store, ids, Walk(view, FirstWork(store, ids), ids))
  {
    WalkHasBalance(view, store, ids);
    WalkExactly(view, FirstWork(store, ids), ids);
  }

  lemma PageHasEffect(toHex: string -> Option<string>, store: Store, message: Message, now: int, page: Page)
    requires Passes(store, message, now) && IsPage(store.objects, message.cutoff, message.cursor, page)
    ensures PageEffect(PageView(toHex, store, message, now), store, page.ids,
                       PageWork(toHex, store, message, now, page))
  {
    AscendingPageIsDistinct(store.objects, message.cutoff, message.cursor, page);
    assert forall i :: 0 <= i < |page.ids| ==> InSweepRange(store.objects, message.cutoff, message.cursor, page.ids[i]);
    WalkHasEffect(PageView(toHex, store, message, now), store, page.ids);
  }

  /** The world after a page that passed the fence. */
  ghost function Delivered(w: World, message: Message, now: int, page: Page, work: Work): World
    requires Passes(w.store, message, now) && message.sweepId in w.scanned
    requires forall i :: 0 <= i < |page.ids| ==> page.ids[i] in w.store.objects
  {
    w.(store := Committed(w.store, message.sweepId, work, page, now),
       processed := w.processed + [(message.sweepId, message.cursor)],
       scanned := w.scanned[message.sweepId := w.scanned[message.sweepId] + Positions(w.store.objects, page.ids)])
  }

  lemma PageIdsExist(objects: map<ObjectId, StoredObject>, cutoff: int, cursor: Option<Position>, page: Page)
    requires IsPage(objects, cutoff, cursor, page)
    ensures forall i :: 0 <= i < |page.ids| ==> page.ids[i] in objects
  {
    assert forall i :: 0 <= i < |page.ids| ==> InSweepRange(objects, cutoff, cursor, page.ids[i]);
  }

  lemma PageStepCommits(toHex: string -> Option<string>, store: Store, message: Message, now: int, page: Page)
    requires Passes(store, message, now)
    ensures PageStep(toHex, store, message, now, page).0
            == Committed(store, message.sweepId, PageWork(toHex, store, message, now, page), page, now)
  {
  }

  lemma DeliverIs(toHex: string -> Option<string>, w: World, message: Message, now: int, page: Page)
    returns (work: Work)
    requires Passes(w.store, message, now) && Possible(w, Deliver(message, now, page)) && message.sweepId in w.scanned
    ensures forall i :: 0 <= i < |page.ids| ==> page.ids[i] in w.store.objects
    ensures Next(toHex, w, Deliver(message, now, page)) == Delivered(w, message, now, page, work)
    ensures PageEffect(PageView(toHex, w.store, message, now), w.store, page.ids, work)
  {
    PageIdsExist(w.store.objects, message.cutoff, message.cursor, page);
    PageStepCommits(toHex, w.store, message, now, page);
    PageHasEffect(toHex, w.store, message, now, page);
    work := PageWork(toHex, w.store, message, now, page);
  }

  /** A message that does not pass the fence changes nothing. */
  lemma FencedMessageChangesNothing(toHex: string -> Option<string>, store: Store, message: Message, now: int,
                                    page: Page)
    ensures PageStep(toHex, store, message, now, page).1.Ok?
            && PageStep(toHex, store, message, now, page).1.value.Processed?
            <==> Passes(store, message, now)
    ensures !Passes(store, message, now) ==> PageStep(toHex, store, message, now, page).0 == store
  {
  }

  // ---------------------------------------------------------------- steps keep the invariants

  predicate TouchesSweeps(step: Step) {
    step.StartSweep? || step.Deliver?
  }

  lemma OtherStepsLeaveSweeps(toHex: string -> Option<string>, w: World, step: Step)
    requires Possible(w, step) && !TouchesSweeps(step)
    ensures var n := Next(toHex, w, step);
            && n.store.lock == w.store.lock && n.store.sweeps == w.store.sweeps && n.store.audits == w.store.audits
            && n.processed == w.processed && n.scanned == w.scanned && n.present == w.present
  {
  }

  /** A started sweep holds the lock and is the only one running; others are as they were or fenced off. */
  ghost predicate StartedAs(store: Store, after: Store, now: int, sweepId: SweepId, deleting: bool) {
    && after.lock == Some(Lock(sweepId, NextGeneration(store.lock), now))
    && (after.sweeps.Keys == store.sweeps.Keys + {sweepId})
    && (exists cutoff :: after.sweeps[sweepId] == NewSweep(NextGeneration(store.lock), deleting, cutoff, now))
    && (forall id :: id in store.sweeps ==>
          after.sweeps[id] == store.sweeps[id] || after.sweeps[id] == FencedRow(store.sweeps[id], now))
    && (forall id :: id in store.sweeps ==> after.sweeps[id].status != Running)
    && after.(lock := store.lock, sweeps := store.sweeps) == store
  }

  lemma StartEffect(store: Store, now: int, sweepId: SweepId, deleting: bool)
    requires LockInv(store) && sweepId !in store.sweeps
    ensures var (after, reply) := StartStep(store, now, sweepId, deleting);
            && (reply.Ok? && reply.value.started ==> StartedAs(store, after, now, sweepId, deleting))
            && (!(reply.Ok? && reply.value.started) ==> after == store)
  {
    var (after, reply) := StartStep(store, now, sweepId, deleting);
    if reply.Ok? && reply.value.started {
      assert after.sweeps[sweepId]
          == NewSweep(NextGeneration(store.lock), deleting, ResolveCutoff(None, now).value, now);
    }
  }

  lemma DeliveredLock(w: World, message: Message, now: int, page: Page, work: Work)
    requires Passes(w.store, message, now) && Tracked(w) && LockInv(w.store)
    requires forall i :: 0 <= i < |page.ids| ==> page.ids[i] in w.store.objects
    ensures var n := Delivered(w, message, now, page, work); LockInv(n.store) && Tracked(n)
  {
  }

  lemma DeliverKeepsLock(toHex: string -> Option<string>, w: World, message: Message, now: int, page: Page)
    requires LockInv(w.store) && Tracked(w) && Possible(w, Deliver(message, now, page))
    ensures var n := Next(toHex, w, Deliver(message, now, page)); LockInv(n.store) && Tracked(n)
  {
    FencedMessageChangesNothing(toHex, w.store, message, now, page);
    if Passes(w.store, message, now) {
      var work := DeliverIs(toHex, w, message, now, page);
      DeliveredLock(w, message, now, page, work);
    }
  }

  lemma StartKeepsLock(w: World, now: int, sweepId: SweepId, deleting: bool)
    requires LockInv(w.store) && sweepId !in w.store.sweeps
    ensures LockInv(StartStep(w.store, now, sweepId, deleting).0)
  {
    StartEffect(w.store, now, sweepId, deleting);
    var after := StartStep(w.store, now, sweepId, deleting).0;
    if after != w.store {
      StartedLock(w.store, after, now, sweepId, deleting);
    }
  }

  lemma StartedLock(store: Store, after: Store, now: int, sweepId: SweepId, deleting: bool)
    requires LockInv(store) && sweepId !in store.sweeps && StartedAs(store, after, now, sweepId, deleting)
    ensures LockInv(after)
  {
  }

  lemma StartKeepsTracked(toHex: string -> Option<string>, w: World, now: int, sweepId: SweepId, deleting: bool)
    requires LockInv(w.store) && Tracked(w) && sweepId !in w.store.sweeps
    ensures Tracked(Next(toHex, w, StartSweep(now, sweepId, deleting)))
  {
    StartEffect(w.store, now, sweepId, deleting);
  }

  lemma LockKept(toHex: string -> Option<string>, w: World, step: Step)
    requires LockInv(w.store) && Tracked(w) && Possible(w, step)
    ensures LockInv(Next(toHex, w, step).store) && Tracked(Next(toHex, w, step))
  {
    match step
    case StartSweep(now, sweepId, deleting) =>
      StartKeepsLock(w, now, sweepId, deleting);
      StartKeepsTracked(toHex, w, now, sweepId, deleting);
    case Deliver(message, now, page) => DeliverKeepsLock(toHex, w, message, now, page);
    case _ => OtherStepsLeaveSweeps(toHex, w, step);
  }

  lemma ReferencedSurvive(view: View, store: Store, ids: seq<ObjectId>, work: Work)
    requires IntegrityInv(store) && PageEffect(view, store, ids, work)
    requires forall id :: view.referenced(id) == Referenced(store.uploads, id)
    ensures IntegrityInv(store.(objects := work.objects))
  {
    forall i | 0 <= i < |store.uploads| && store.uploads[i].storageId.Some?
      ensures store.uploads[i].storageId.value in work.objects
    {
      DeleteMeans(view, store.objects, store.uploads[i].storageId.value);
    }
  }

  lemma IntegrityKept(toHex: string -> Option<string>, w: World, step: Step)
    requires LockInv(w.store) && Tracked(w) && IntegrityInv(w.store) && Possible(w, step)
    ensures IntegrityInv(Next(toHex, w, step).store)
  {
    match step
    case StartSweep(now, sweepId, deleting) => StartEffect(w.store, now, sweepId, deleting);
    case Deliver(message, now, page) =>
      FencedMessageChangesNothing(toHex, w.store, message, now, page);
      if Passes(w.store, message, now) {
        var work := DeliverIs(toHex, w, message, now, page);
        ReferencedSurvive(PageView(toHex, w.store, message, now), w.store, page.ids, work);
      }
    case Cleanup(ownerId, uploadId, storageId) => CleanupDeletesExactly(w.store, ownerId, uploadId, storageId);
    case NextVersion(uploadId, _, _) =>
      if Latest(w.store.uploads, uploadId).Some? {
        LatestIsARow(w.store.uploads, uploadId);
      }
    case _ =>
  }

  lemma {:induction false} AuditsAppended(audits: seq<Audit>, more: seq<Audit>, sweepId: SweepId, writer: SweepId)
    requires forall i :: 0 <= i < |more| ==> more[i].sweepId == writer
    ensures AuditsBy(audits + more, sweepId) == AuditsBy(audits, sweepId) + if sweepId == writer then |more| else 0
  {
    if more == [] {
      assert audits + more == audits;
    } else {
      AuditsAppended(audits, more[..|more| - 1], sweepId, writer);
      assert (audits + more)[..|audits + more| - 1] == audits + more[..|more| - 1];
    }
  }

  lemma {:induction false} NoAuditsBy(audits: seq<Audit>, sweepId: SweepId)
    requires forall i :: 0 <= i < |audits| ==> audits[i].sweepId != sweepId
    ensures AuditsBy(audits, sweepId) == 0
  {
    if audits != [] {
      NoAuditsBy(audits[..|audits| - 1], sweepId);
    }
  }

  lemma AuditsAreTheSweeps(view: View, objects: map<ObjectId, StoredObject>, ids: seq<ObjectId>)
    ensures forall i :: 0 <= i < |AuditsOf(view, objects, ids)| ==>
             AuditsOf(view, objects, ids)[i].sweepId == view.sweepId
  {
    var more := AuditsOf(view, objects, ids);
    forall i | 0 <= i < |more| ensures more[i].sweepId == view.sweepId {
      AuditsAreSound(view, objects, ids, more[i]);
    }
  }

  lemma DeliveredTracked(view: View, w: World, message: Message, now: int, page: Page, work: Work)
    requires Passes(w.store, message, now) && Tracked(w) && AuditsTracked(w.store)
    requires forall i :: 0 <= i < |page.ids| ==> page.ids[i] in w.store.objects
    requires PageEffect(view, w.store, page.ids, work) && view.sweepId == message.sweepId
    ensures var n := Delivered(w, message, now, page, work);
            && n.store.audits == w.store.audits + AuditsOf(view, w.store.objects, page.ids)
            && Tracked(n) && AuditsTracked(n.store)
  {
    AuditsAreTheSweeps(view, w.store.objects, page.ids);
  }

  lemma DeliveredBooks(view: View, w: World, message: Message, now: int, page: Page, work: Work)
    requires Passes(w.store, message, now) && Tracked(w) && BooksInv(w)
    requires forall i :: 0 <= i < |page.ids| ==> page.ids[i] in w.store.objects
    requires PageEffect(view, w.store, page.ids, work)
    requires view.sweepId == message.sweepId && view.deleting == w.store.sweeps[message.sweepId].deleting
    ensures BooksInv(Delivered(w, message, now, page, work))
  {
    var n := Delivered(w, message, now, page, work);
    var more := AuditsOf(view, w.store.objects, page.ids);
    AuditsAreTheSweeps(view, w.store.objects, page.ids);
    DeliveredTracked(view, w, message, now, page, work);
    forall id | id in n.store.sweeps
      ensures SweepBalances(n.store, id, n.scanned[id])
    {
      AuditsAppended(w.store.audits, more, id, message.sweepId);
      assert SweepBalances(w.store, id, w.scanned[id]);
      if id == message.sweepId {
        CountersAdd(w.store.sweeps[id].counters, work.counters, view.deleting, |w.scanned[id]|, |page.ids|,
                    AuditsBy(w.store.audits, id), |more|);
      }
    }
  }

  lemma CountersAdd(a: Counters, b: Counters, deleting: bool, scanned: nat, more: nat, audited: nat, added: nat)
    requires CountersInv(a, deleting, scanned, audited) && PageBalance(b, more, added, deleting)
    ensures CountersInv(AddCounters(a, b), deleting, scanned + more, audited + added)
  {
  }

  lemma FreshSweepHasNoAudits(store: Store, sweepId: SweepId)
    requires sweepId !in store.sweeps && AuditsTracked(store)
    ensures AuditsBy(store.audits, sweepId) == 0
  {
    NoAuditsBy(store.audits, sweepId);
  }

  lemma TrackedAuditsRemain(before: Store, after: Store)
    requires AuditsTracked(before) && after.audits == before.audits && before.sweeps.Keys <= after.sweeps.Keys
    ensures AuditsTracked(after)
  {
  }

  lemma StartedBooks(w: World, n: World, now: int, sweepId: SweepId)
    requires BooksInv(w) && sweepId !in w.store.sweeps && Tracked(n)
    requires n.store.audits == w.store.audits && n.store.sweeps.Keys == w.store.sweeps.Keys + {sweepId}
    requires n.scanned == w.scanned[sweepId := []] && n.store.sweeps[sweepId].counters == ZERO
    requires forall id :: id in w.store.sweeps ==>
               n.store.sweeps[id] == w.store.sweeps[id] || n.store.sweeps[id] == FencedRow(w.store.sweeps[id], now)
    ensures BooksInv(n)
  {
    FreshSweepHasNoAudits(w.store, sweepId);
    TrackedAuditsRemain(w.store, n.store);
    forall id | id in n.store.sweeps
      ensures SweepBalances(n.store, id, n.scanned[id])
    {
      if id == sweepId {
        assert |n.scanned[id]| == 0 && CountersInv(ZERO, n.store.sweeps[id].deleting, 0, 0);
      } else {
        assert id in w.store.sweeps && n.scanned[id] == w.scanned[id];
        assert SweepBalances(w.store, id, w.scanned[id]);
      }
    }
  }

  lemma BooksKept(toHex: string -> Option<string>, w: World, step: Step)
    requires LockInv(w.store) && Tracked(w) && BooksInv(w) && Possible(w, step)
    ensures BooksInv(Next(toHex, w, step))
  {
    match step
    case StartSweep(now, sweepId, deleting) => StartKeepsBooks(toHex, w, now, sweepId, deleting);
    case Deliver(message, now, page) => DeliverKeepsBooks(toHex, w, message, now, page);
    case _ => OtherStepsLeaveSweeps(toHex, w, step);
  }

  lemma StartKeepsBooks(toHex: string -> Option<string>, w: World, now: int, sweepId: SweepId, deleting: bool)
    requires LockInv(w.store) && Tracked(w) && BooksInv(w) && Possible(w, StartSweep(now, sweepId, deleting))
    ensures BooksInv(Next(toHex, w, StartSweep(now, sweepId, deleting)))
  {
    var after := StartStep(w.store, now, sweepId, deleting).0;
    StartEffect(w.store, now, sweepId, deleting);
    if after != w.store {
      StartedBooksKept(w, after, now, sweepId, deleting);
    }
  }

  lemma StartedBooksKept(w: World, after: Store, now: int, sweepId: SweepId, deleting: bool)
    requires Tracked(w) && BooksInv(w) && sweepId !in w.store.sweeps
    requires StartedAs(w.store, after, now, sweepId, deleting)
    ensures BooksInv(w.(store := after, scanned := w.scanned[sweepId := []],
                        present := w.present[sweepId := w.store.objects.Keys]))
  {
    var n := w.(store := after, scanned := w.scanned[sweepId := []],
                present := w.present[sweepId := w.store.objects.Keys]);
    StartedBooks(w, n, now, sweepId);
  }

  lemma DeliverKeepsBooks(toHex: string -> Option<string>, w: World, message: Message, now: int, page: Page)
    requires Tracked(w) && BooksInv(w) && Possible(w, Deliver(message, now, page))
    ensures BooksInv(Next(toHex, w, Deliver(message, now, page)))
  {
    FencedMessageChangesNothing(toHex, w.store, message, now, page);
    if Passes(w.store, message, now) {
      var work := DeliverIs(toHex, w, message, now, page);
      DeliveredBooks(PageView(toHex, w.store, message, now), w, message, now, page, work);
    }
  }

  lemma DeliveredAudits(toHex: string -> Option<string>, w: World, message: Message, now: int, page: Page, work: Work)
    requires Passes(w.store, message, now) && Tracked(w) && AuditInv(toHex, w.store)
    requires forall i :: 0 <= i < |page.ids| ==> page.ids[i] in w.store.objects
    requires PageEffect(PageView(toHex, w.store, message, now), w.store, page.ids, work)
    ensures AuditInv(toHex, Delivered(w, message, now, page, work).store)
  {
    var n := Delivered(w, message, now, page, work);
    var view := PageView(toHex, w.store, message, now);
    var more := AuditsOf(view, w.store.objects, page.ids);
    forall i | 0 <= i < |more| ensures Justified(toHex, n.store.sweeps, more[i]) {
      AuditsAreSound(view, w.store.objects, page.ids, more[i]);
      DeleteMeans(view, w.store.objects, more[i].storageId);
      FoundClaimIsAssociated(more[i].stored.createdAt, more[i].contentDigest, w.store.claims);
    }
    forall i | 0 <= i < |w.store.audits| ensures Justified(toHex, n.store.sweeps, w.store.audits[i]) {
      assert Justified(toHex, w.store.sweeps, w.store.audits[i]);
    }
  }

  lemma AuditsKept(toHex: string -> Option<string>, w: World, step: Step)
    requires LockInv(w.store) && Tracked(w) && AuditInv(toHex, w.store) && Possible(w, step)
    ensures AuditInv(toHex, Next(toHex, w, step).store)
  {
    match step
    case StartSweep(now, sweepId, deleting) => StartEffect(w.store, now, sweepId, deleting);
    case Deliver(message, now, page) =>
      FencedMessageChangesNothing(toHex, w.store, message, now, page);
      if Passes(w.store, message, now) {
        var work := DeliverIs(toHex, w, message, now, page);
        DeliveredAudits(toHex, w, message, now, page, work);
      }
    case _ => OtherStepsLeaveSweeps(toHex, w, step);
  }

  lemma DeliveredOnce(w: World, message: Message, now: int, page: Page, work: Work)
    requires Passes(w.store, message, now) && Tracked(w) && OnceInv(w)
    requires IsPage(w.store.objects, message.cutoff, message.cursor, page)
    requires forall i :: 0 <= i < |page.ids| ==> page.ids[i] in w.store.objects
    ensures OnceInv(Delivered(w, message, now, page, work))
  {
    var n := Delivered(w, message, now, page, work);
    forall i | 0 <= i < |n.processed|
      ensures n.processed[i].0 in n.store.sweeps && Behind(n.store.sweeps[n.processed[i].0], n.processed[i].1)
    {
      if i < |w.processed| {
        assert Behind(w.store.sweeps[w.processed[i].0], w.processed[i].1);
      }
    }
  }

  lemma OnceKept(toHex: string -> Option<string>, w: World, step: Step)
    requires LockInv(w.store) && Tracked(w) && OnceInv(w) && Possible(w, step)
    ensures OnceInv(Next(toHex, w, step))
  {
    match step
    case StartSweep(now, sweepId, deleting) => StartEffect(w.store, now, sweepId, deleting);
    case Deliver(message, now, page) =>
      FencedMessageChangesNothing(toHex, w.store, message, now, page);
      if Passes(w.store, message, now) {
        var work := DeliverIs(toHex, w, message, now, page);
        DeliveredOnce(w, message, now, page, work);
      }
    case _ => OtherStepsLeaveSweeps(toHex, w, step);
  }

  lemma PagesSnoc(processed: seq<(SweepId, Option<Position>)>, entry: (SweepId, Option<Position>), sweepId: SweepId)
    ensures PagesBy(processed + [entry], sweepId) == PagesBy(processed, sweepId) + if entry.0 == sweepId then 1 else 0
  {
    assert (processed + [entry])[..|processed|] == processed;
  }

  lemma {:induction false} NoPagesBy(processed: seq<(SweepId, Option<Position>)>, sweepId: SweepId)
    requires forall i :: 0 <= i < |processed| ==> processed[i].0 != sweepId
    ensures PagesBy(processed, sweepId) == 0
  {
    if processed != [] {
      NoPagesBy(processed[..|processed| - 1], sweepId);
    }
  }

  lemma DeliveredPages(w: World, message: Message, now: int, page: Page, work: Work)
    requires Passes(w.store, message, now) && Tracked(w) && PagesInv(w)
    requires forall i :: 0 <= i < |page.ids| ==> page.ids[i] in w.store.objects
    ensures PagesInv(Delivered(w, message, now, page, work))
  {
    var n := Delivered(w, message, now, page, work);
    forall id | id in n.store.sweeps ensures PagesCounted(n, id) {
      PagesSnoc(w.processed, (message.sweepId, message.cursor), id);
      assert PagesCounted(w, id);
    }
  }

  lemma StartedPages(w: World, n: World, now: int, sweepId: SweepId)
    requires OnceInv(w) && PagesInv(w) && sweepId !in w.store.sweeps && n.processed == w.processed
    requires n.store.sweeps.Keys == w.store.sweeps.Keys + {sweepId} && n.store.sweeps[sweepId].pages == 0
    requires forall id :: id in w.store.sweeps ==>
               n.store.sweeps[id] == w.store.sweeps[id] || n.store.sweeps[id] == FencedRow(w.store.sweeps[id], now)
    ensures PagesInv(n)
  {
    NoPagesBy(w.processed, sweepId);
    forall id | id in n.store.sweeps ensures PagesCounted(n, id) {
      if id != sweepId {
        assert PagesCounted(w, id);
      }
    }
  }

  lemma PagesKept(toHex: string -> Option<string>, w: World, step: Step)
    requires LockInv(w.store) && Tracked(w) && OnceInv(w) && PagesInv(w) && Possible(w, step)
    ensures PagesInv(Next(toHex, w, step))
  {
    match step
    case StartSweep(now, sweepId, deleting) =>
      StartEffect(w.store, now, sweepId, deleting);
      var n := Next(toHex, w, step);
      if sweepId in n.store.sweeps {
        StartedPages(w, n, now, sweepId);
      }
    case Deliver(message, now, page) =>
      FencedMessageChangesNothing(toHex, w.store, message, now, page);
      if Passes(w.store, message, now) {
        var work := DeliverIs(toHex, w, message, now, page);
        DeliveredPages(w, message, now, page, work);
      }
    case _ =>
      OtherStepsLeaveSweeps(toHex, w, step);
      var n := Next(toHex, w, step);
      forall id | id in n.store.sweeps ensures PagesCounted(n, id) {
        assert PagesCounted(w, id);
      }
  }

  /** Coverage survives losing objects and gaining ones that were not present at the start. */
  lemma FewerObjectsCovered(before: Store, after: Store, sweep: Sweep, scanned: seq<Position>, present: set<ObjectId>)
    requires SweepCovers(before, sweep, scanned, present)
    requires forall k :: k in present && k in after.objects ==>
              k in before.objects && after.objects[k] == before.objects[k]
    ensures SweepCovers(after, sweep, scanned, present)
  {
    forall id | sweep.status != Fenced && id in present && Due(after.objects, sweep, id)
      ensures PositionOf(after.objects, id) in scanned
    {
      assert Due(before.objects, sweep, id);
    }
  }

  /** A page extends coverage from the old cursor to the new one, or to the end. */
  lemma PageCovers(w: World, message: Message, now: int, page: Page, counters: Counters, after: Store)
    requires Passes(w.store, message, now) && CoverageInv(w)
    requires IsPage(w.store.objects, message.cutoff, message.cursor, page)
    requires forall k :: k in after.objects ==> k in w.store.objects && after.objects[k] == w.store.objects[k]
    ensures forall i :: 0 <= i < |page.ids| ==> page.ids[i] in w.store.objects
    ensures SweepCovers(after, Advance(w.store.sweeps[message.sweepId], counters, page, now),
                        w.scanned[message.sweepId] + Positions(w.store.objects, page.ids), w.present[message.sweepId])
  {
    PageIdsExist(w.store.objects, message.cutoff, message.cursor, page);
    var sweep, scanned := w.store.sweeps[message.sweepId], w.scanned[message.sweepId];
    var more := Positions(w.store.objects, page.ids);
    var next := Advance(sweep, counters, page, now);
    assert SweepCovers(w.store, sweep, scanned, w.present[message.sweepId]);
    forall i, j | 0 <= i < |scanned| && 0 <= j < |more|
      ensures Before(scanned[i], more[j])
    {
      assert Reached(sweep, scanned[i]);
      assert InSweepRange(w.store.objects, message.cutoff, message.cursor, page.ids[j]);
    }
    forall id | id in w.present[message.sweepId] && Due(after.objects, next, id)
      ensures PositionOf(after.objects, id) in scanned + more
    {
      if Due(w.store.objects, sweep, id) {
      } else {
        assert InSweepRange(w.store.objects, message.cutoff, message.cursor, id);
        var i :| 0 <= i < |page.ids| && page.ids[i] == id;
        assert more[i] == PositionOf(w.store.objects, id);
      }
    }
  }

  lemma DeliveredCoverage(view: View, w: World, message: Message, now: int, page: Page, work: Work)
    requires Passes(w.store, message, now) && Tracked(w) && CoverageInv(w)
    requires IsPage(w.store.objects, message.cutoff, message.cursor, page)
    requires forall i :: 0 <= i < |page.ids| ==> page.ids[i] in w.store.objects
    requires PageEffect(view, w.store, page.ids, work)
    ensures CoverageInv(Delivered(w, message, now, page, work))
  {
    var n := Delivered(w, message, now, page, work);
    PageCovers(w, message, now, page, work.counters, n.store);
    forall id | id in n.store.sweeps && id != message.sweepId
      ensures SweepCovers(n.store, n.store.sweeps[id], n.scanned[id], n.present[id])
    {
      FewerObjectsCovered(w.store, n.store, w.store.sweeps[id], w.scanned[id], w.present[id]);
    }
  }

  lemma QuietCoverage(w: World, n: World)
    requires CoverageInv(w) && n.store.sweeps == w.store.sweeps && n.scanned == w.scanned && n.present == w.present
    requires w.used <= n.used && n.store.objects.Keys <= n.used
    requires forall k :: k in n.store.objects && k in w.used ==>
               k in w.store.objects && n.store.objects[k] == w.store.objects[k]
    ensures CoverageInv(n)
  {
    forall id | id in n.store.sweeps
      ensures SweepCovers(n.store, n.store.sweeps[id], n.scanned[id], n.present[id])
    {
      FewerObjectsCovered(w.store, n.store, w.store.sweeps[id], w.scanned[id], w.present[id]);
    }
  }

  lemma FencingKeepsCoverage(w: World, n: World, now: int, sweepId: SweepId)
    requires CoverageInv(w) && n.store.objects == w.store.objects && n.used == w.used && sweepId !in w.store.sweeps
    requires n.store.sweeps.Keys == w.store.sweeps.Keys + {sweepId}
    requires n.scanned == w.scanned[sweepId := []] && n.present == w.present[sweepId := w.store.objects.Keys]
    requires n.store.sweeps[sweepId].status == Running && n.store.sweeps[sweepId].cursor == None
    requires forall id :: id in w.store.sweeps ==>
               n.store.sweeps[id] == w.store.sweeps[id] || n.store.sweeps[id] == FencedRow(w.store.sweeps[id], now)
    ensures CoverageInv(n)
  {
    forall id | id in w.store.sweeps
      ensures SweepCovers(n.store, n.store.sweeps[id], n.scanned[id], n.present[id])
    {
      assert SweepCovers(w.store, w.store.sweeps[id], w.scanned[id], w.present[id]);
      FewerObjectsCovered(w.store, n.store, w.store.sweeps[id], w.scanned[id], w.present[id]);
    }
  }

  lemma CoverageKept(toHex: string -> Option<string>, w: World, step: Step)
    requires LockInv(w.store) && Tracked(w) && CoverageInv(w) && Possible(w, step)
    ensures CoverageInv(Next(toHex, w, step))
  {
    var n := Next(toHex, w, step);
    match step
    case StartSweep(now, sweepId, deleting) =>
      StartEffect(w.store, now, sweepId, deleting);
      if sweepId in n.store.sweeps {
        FencingKeepsCoverage(w, n, now, sweepId);
      }
    case Deliver(message, now, page) =>
      FencedMessageChangesNothing(toHex, w.store, message, now, page);
      if Passes(w.store, message, now) {
        var work := DeliverIs(toHex, w, message, now, page);
        DeliveredCoverage(PageView(toHex, w.store, message, now), w, message, now, page, work);
      }
    case _ =>
      OtherStepsLeaveSweeps(toHex, w, step);
      QuietCoverage(w, n);
  }

  // ---------------------------------------------------------------- main results

  lemma SafetyKept(toHex: string -> Option<string>, w: World, step: Step)
    requires SafetyInv(toHex, w) && Possible(w, step)
    ensures SafetyInv(toHex, Next(toHex, w, step))
  {
    LockKept(toHex, w, step);
    IntegrityKept(toHex, w, step);
    BooksKept(toHex, w, step);
    CoverageKept(toHex, w, step);
    OnceKept(toHex, w, step);
    PagesKept(toHex, w, step);
    AuditsKept(toHex, w, step);
  }

  lemma {:induction false} RunKeepsSafety(toHex: string -> Option<string>, w: World, steps: seq<Step>)
    requires SafetyInv(toHex, w) && PossibleRun(toHex, w, steps)
    ensures SafetyInv(toHex, Run(toHex, w, steps))
    decreases |steps|
  {
    if steps != [] {
      SafetyKept(toHex, w, steps[0]);
      RunKeepsSafety(toHex, Next(toHex, w, steps[0]), steps[1..]);
    }
  }

  /** Every run from the empty store, under any schedule of messages, keeps all seven invariants. */
  lemma EveryRunIsSafe(toHex: string -> Option<string>, steps: seq<Step>)
    requires PossibleRun(toHex, EMPTY, steps)
    ensures SafetyInv(toHex, Run(toHex, EMPTY, steps))
  {
    assert SafetyInv(toHex, EMPTY);
    RunKeepsSafety(toHex, EMPTY, steps);
  }

  /** A completed sweep scanned every object below its cutoff that was there from its start, exactly once. */
  lemma CompletedSweepScannedAll(toHex: string -> Option<string>, w: World, sweepId: SweepId, id: ObjectId)
    requires SafetyInv(toHex, w) && sweepId in w.store.sweeps && w.store.sweeps[sweepId].status == Completed
    requires id in w.present[sweepId] && id in w.store.objects
    requires w.store.objects[id].createdAt < w.store.sweeps[sweepId].cutoff as real
    ensures exists k :: 0 <= k < |w.scanned[sweepId]| && ScannedOnlyAt(w, sweepId, id, k)
  {
    assert SweepCovers(w.store, w.store.sweeps[sweepId], w.scanned[sweepId], w.present[sweepId]);
    assert Due(w.store.objects, w.store.sweeps[sweepId], id);
    var k :| 0 <= k < |w.scanned[sweepId]| && w.scanned[sweepId][k] == PositionOf(w.store.objects, id);
    assert ScannedOnlyAt(w, sweepId, id, k);
  }

  ghost predicate ScannedOnlyAt(w: World, sweepId: SweepId, id: ObjectId, k: nat)
    requires sweepId in w.scanned && id in w.store.objects
  {
    forall i :: 0 <= i < |w.scanned[sweepId]| ==>
      (w.scanned[sweepId][i] == PositionOf(w.store.objects, id) <==> i == k)
  }

  /** What one delivered page deletes: exactly the old, unreferenced, claim-associated candidates of a
      deleting sweep that passed the fence. */
  lemma PageDeletesExactly(toHex: string -> Option<string>, w: World, message: Message, now: int, page: Page,
                           id: ObjectId)
    requires SafetyInv(toHex, w) && Possible(w, Deliver(message, now, page)) && id in w.store.objects
    ensures var stored := w.store.objects[id];
            id !in Next(toHex, w, Deliver(message, now, page)).store.objects <==>
              && Passes(w.store, message, now) && id in page.ids
              && w.store.sweeps[message.sweepId].deleting
              && stored.caseContentType
              && toHex(stored.sha256).Some?
              && AccountingClaim(stored.createdAt, toHex(stored.sha256).value, w.store.claims).Some?
              && !Referenced(w.store.uploads, id)
    ensures id !in Next(toHex, w, Deliver(message, now, page)).store.objects ==>
              w.store.objects[id].createdAt < (now - ORPHAN_GRACE_MS) as real
  {
    FencedMessageChangesNothing(toHex, w.store, message, now, page);
    if Passes(w.store, message, now) {
      var work := DeliverIs(toHex, w, message, now, page);
      PassedPageDeletes(toHex, w, message, now, page, work, id);
    }
  }

  lemma PassedPageDeletes(toHex: string -> Option<string>, w: World, message: Message, now: int, page: Page, work: Work,
                          id: ObjectId)
    requires Possible(w, Deliver(message, now, page)) && id in w.store.objects && message.sweepId in w.scanned
    requires forall i :: 0 <= i < |page.ids| ==> page.ids[i] in w.store.objects
    requires Passes(w.store, message, now)
    requires PageEffect(PageView(toHex, w.store, message, now), w.store, page.ids, work)
    ensures var stored := w.store.objects[id];
            id !in Delivered(w, message, now, page, work).store.objects <==>
              && id in page.ids && w.store.sweeps[message.sweepId].deleting && stored.caseContentType
              && toHex(stored.sha256).Some?
              && AccountingClaim(stored.createdAt, toHex(stored.sha256).value, w.store.claims).Some?
              && !Referenced(w.store.uploads, id)
    ensures id !in Delivered(w, message, now, page, work).store.objects ==>
              w.store.objects[id].createdAt < (now - ORPHAN_GRACE_MS) as real
  {
    DeleteMeans(PageView(toHex, w.store, message, now), w.store.objects, id);
    if id in page.ids {
      assert InSweepRange(w.store.objects, message.cutoff, message.cursor, id);
    }
  }

  /** A sweep that has finished or was fenced off stays so: no later message moves or revives it. */
  lemma FinishedSweepKept(toHex: string -> Option<string>, w: World, step: Step, sweepId: SweepId)
    requires LockInv(w.store) && Tracked(w) && Possible(w, step)
    requires sweepId in w.store.sweeps && w.store.sweeps[sweepId].status != Running
    ensures var n := Next(toHex, w, step);
            sweepId in n.store.sweeps && n.store.sweeps[sweepId] == w.store.sweeps[sweepId]
            && n.scanned[sweepId] == w.scanned[sweepId]
  {
    match step
    case StartSweep(now, newId, deleting) =>
      FinishedIsNotFenced(w.store, now, newId, deleting, sweepId);
      StartEffect(w.store, now, newId, deleting);
    case Deliver(message, now, page) =>
      FencedMessageChangesNothing(toHex, w.store, message, now, page);
      if Passes(w.store, message, now) {
        var work := DeliverIs(toHex, w, message, now, page);
      }
    case _ => OtherStepsLeaveSweeps(toHex, w, step);
  }

  lemma FinishedIsNotFenced(store: Store, now: int, newId: SweepId, deleting: bool, sweepId: SweepId)
    requires sweepId in store.sweeps && store.sweeps[sweepId].status != Running && newId !in store.sweeps
    ensures var after := StartStep(store, now, newId, deleting).0;
            sweepId in after.sweeps && after.sweeps[sweepId] == store.sweeps[sweepId]
  {
  }

  lemma {:induction false} FinishedForever(toHex: string -> Option<string>, w: World, steps: seq<Step>,
                                           sweepId: SweepId)
    requires SafetyInv(toHex, w) && PossibleRun(toHex, w, steps)
    requires sweepId in w.store.sweeps && w.store.sweeps[sweepId].status != Running
    ensures var n := Run(toHex, w, steps);
            sweepId in n.store.sweeps && n.store.sweeps[sweepId] == w.store.sweeps[sweepId]
            && sweepId in n.scanned && n.scanned[sweepId] == w.scanned[sweepId]
    decreases |steps|
  {
    if steps != [] {
      SafetyKept(toHex, w, steps[0]);
      FinishedSweepKept(toHex, w, steps[0], sweepId);
      FinishedForever(toHex, Next(toHex, w, steps[0]), steps[1..], sweepId);
    }
  }

  /** A started sweep gets a generation above every earlier one and becomes the only running sweep. */
  lemma StartedSweepIsNewest(store: Store, now: int, sweepId: SweepId, deleting: bool)
    requires LockInv(store) && sweepId !in store.sweeps
    ensures var (after, reply) := StartStep(store, now, sweepId, deleting);
            reply.Ok? && reply.value.started ==>
              && (forall id :: id in store.sweeps ==> store.sweeps[id].generation < reply.value.generation)
              && (forall id :: id in after.sweeps && after.sweeps[id].status == Running ==> id == sweepId)
  {
    StartEffect(store, now, sweepId, deleting);
  }

  /** With the source's own digest decoder, the digest of everything ever deleted was spelled in hex or
      base64 and named the claim that accounts for the object. */
  lemma DeletedDigestNamesClaim(w: World, i: nat)
    requires SafetyInv(DigestCodec.StoredSha256ToHex, w) && i < |w.store.audits|
    ensures var a, hex := w.store.audits[i], w.store.audits[i].claim.contentDigest;
            && DigestCodec.IsHex64(hex)
            && (|| (DigestCodec.IsHex64AnyCase(a.stored.sha256) && DigestCodec.ToLower(a.stored.sha256) == hex)
                || a.stored.sha256 == DigestCodec.Sha256HexToBase64(hex)
                || a.stored.sha256 == DigestCodec.Unpad(DigestCodec.Sha256HexToBase64(hex))
                || a.stored.sha256 == DigestCodec.ToUrl(DigestCodec.Unpad(DigestCodec.Sha256HexToBase64(hex))))
  {
    assert Justified(DigestCodec.StoredSha256ToHex, w.store.sweeps, w.store.audits[i]);
    DigestCodec.StoredDigestDecodesExactly(w.store.audits[i].stored.sha256, w.store.audits[i].claim.contentDigest);
  }
}
