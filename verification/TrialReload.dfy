/** Reading a trial back (convex/trialEvents.ts:4941-5046, 5332-5389): the paged reload a client follows, and the
    complete canonical replay. */
module TrialReload {
  import opened Outcomes
  import opened Sequences
  import opened TrialEngine
  import opened TrialCodec
  import opened TrialStore
  import opened TrialSafety

  const MAX_RELOAD_EVENTS: int := 500
  const DEFAULT_RELOAD_EVENTS: int := 100

  datatype ReloadError = ReloadNotFound | AfterSequenceInvalid | LimitInvalid | AfterSequenceAheadOfHead
                       | ReloadGap | ReloadHeadFailed(storeError: StoreError)

  /** One page: the snapshot to start from, the events after it, and where to go on. */
  datatype ReloadPage = ReloadPage(
    projection: Projection, snapshot: Option<Snapshot>, events: seq<Row>, nextAfterSequence: Option<int>)

  /** The newest snapshot beyond `after` and not beyond the head. */
  function SelectSnapshot(snapshots: seq<Snapshot>, after: int, lastSequence: int): Option<Snapshot> {
    if snapshots == [] then None
    else
      var newest := snapshots[|snapshots| - 1];
      if after < newest.lastSequence <= lastSequence then Some(newest)
      else SelectSnapshot(snapshots[..|snapshots| - 1], after, lastSequence)
  }

  /** Sequences run on from `first`. */
  predicate Consecutive(rows: seq<Row>, first: int) {
    forall i :: 0 <= i < |rows| ==> rows[i].sequence == first + i
  }

  function BaseOf(snapshot: Option<Snapshot>, after: int): int {
    if snapshot.Some? then snapshot.value.lastSequence else after
  }

  /** The snapshot and events of a page, once the head has been validated. */
  function PageAfter(projection: Projection, rows: seq<Row>, snapshots: seq<Snapshot>, after: int, size: nat)
    : Result<ReloadPage, ReloadError>
  {
    var snapshot := SelectSnapshot(snapshots, after, projection.lastSequence);
    var base := BaseOf(snapshot, after);
    FillPage(projection, snapshot, RowsAfter(rows, base), base, size)
  }

  /** The first rows of a suffix, checked for gaps; one row more tells whether there are others. */
  function FillPage(projection: Projection, snapshot: Option<Snapshot>, suffix: seq<Row>, base: int, size: nat)
    : Result<ReloadPage, ReloadError>
  {
    var taken := Take(suffix, size + 1);
    var page := Take(taken, size);
    if !Consecutive(page, base + 1) then Err(ReloadGap)
    else
      var last := if page == [] then base else page[|page| - 1].sequence;
      Ok(ReloadPage(projection, snapshot, page, if |taken| > size then Some(last) else None))
  }

  /** `reloadForOwner`. */
  function Reload(server: Server, store: Store, ownerId: string, trialId: string, afterSequence: Option<int>,
                  limit: Option<int>): Result<ReloadPage, ReloadError>
  {
    var after := if afterSequence.Some? then afterSequence.value else 0;
    var size := if limit.Some? then limit.value else DEFAULT_RELOAD_EVENTS;
    if !(0 <= after <= MAX_SAFE_INTEGER) then Err(AfterSequenceInvalid)
    else if !(1 <= size <= MAX_RELOAD_EVENTS) then Err(LimitInvalid)
    else if trialId !in store.projections || store.projections[trialId].ownerId != ownerId then Err(ReloadNotFound)
    else
      var projection := store.projections[trialId];
      if after > projection.lastSequence then Err(AfterSequenceAheadOfHead)
      else
        var head := LoadActiveHead(server, store, projection);
        if head.Err? then Err(ReloadHeadFailed(head.error))
        else PageAfter(projection, RowsOf(store, trialId), SnapshotsOf(store, trialId), after, size)
  }

  // ---------------------------------------------------------------- one page

  lemma SelectsNewestOrNone(snapshots: seq<Snapshot>, after: int, head: nat)
    requires SnapshotIsRecent(snapshots, head)
    requires forall j, k :: 0 <= j < k < |snapshots| ==> snapshots[j].lastSequence < snapshots[k].lastSequence
    ensures var newest := snapshots[|snapshots| - 1];
            SelectSnapshot(snapshots, after, head) == if after < newest.lastSequence then Some(newest) else None
  {
    if after >= snapshots[|snapshots| - 1].lastSequence {
      NoneSelected(snapshots, after, head);
    }
  }

  lemma {:induction false} NoneSelected(snapshots: seq<Snapshot>, after: int, head: int)
    requires forall k :: 0 <= k < |snapshots| ==> snapshots[k].lastSequence <= after
    ensures SelectSnapshot(snapshots, after, head) == None
  {
    if snapshots != [] {
      NoneSelected(snapshots[..|snapshots| - 1], after, head);
    }
  }

  /** Where the events of a reload after `after` begin, and where its page of `size` ends. */
  function ReloadBase(snapshots: seq<Snapshot>, after: int): int {
    if snapshots != [] && after < snapshots[|snapshots| - 1].lastSequence then snapshots[|snapshots| - 1].lastSequence
    else after
  }

  function PageEnd(head: int, base: int, size: int): int {
    if head - base > size then base + size else head
  }

  function ReloadSnapshot(snapshots: seq<Snapshot>, after: int): Option<Snapshot> {
    if snapshots != [] && after < snapshots[|snapshots| - 1].lastSequence then Some(snapshots[|snapshots| - 1])
    else None
  }

  predicate Rising(snapshots: seq<Snapshot>) {
    forall j, k :: 0 <= j < k < |snapshots| ==> snapshots[j].lastSequence < snapshots[k].lastSequence
  }

  lemma PageAfterReturns(projection: Projection, rows: seq<Row>, snapshots: seq<Snapshot>, after: nat, size: nat)
    requires Consecutive(rows, 1) && SnapshotIsRecent(snapshots, |rows|) && projection.lastSequence == |rows|
    requires Rising(snapshots) && after <= |rows| && size >= 1
    ensures var base := ReloadBase(snapshots, after); var end := PageEnd(|rows|, base, size);
            && after <= base <= end <= |rows|
            && PageAfter(projection, rows, snapshots, after, size)
               == Ok(ReloadPage(projection, ReloadSnapshot(snapshots, after), rows[base..end],
                                if end < |rows| then Some(end) else None))
  {
    SelectsNewestOrNone(snapshots, after, |rows|);
    var base := ReloadBase(snapshots, after);
    RowsAfterConsecutive(rows, base);
    FilledPage(projection, ReloadSnapshot(snapshots, after), rows, base, size);
  }

  lemma FilledPage(projection: Projection, snapshot: Option<Snapshot>, rows: seq<Row>, base: nat, size: nat)
    requires Consecutive(rows, 1) && base <= |rows| && size >= 1
    ensures var end := PageEnd(|rows|, base, size);
            && base <= end <= |rows|
            && FillPage(projection, snapshot, rows[base..], base, size)
               == Ok(ReloadPage(projection, snapshot, rows[base..end], if end < |rows| then Some(end) else None))
  {
    PageOfSuffix(rows, base, size);
  }

  lemma {:induction false} RowsAfterConsecutive(rows: seq<Row>, k: nat)
    requires Consecutive(rows, 1)
    ensures RowsAfter(rows, k) == if k <= |rows| then rows[k..] else []
  {
    if rows != [] {
      var earlier := rows[..|rows| - 1];
      RowsAfterConsecutive(earlier, k);
      if k < |rows| {
        assert rows[k..] == earlier[k..] + [rows[|rows| - 1]];
      }
    }
  }

  lemma PageOfSuffix(rows: seq<Row>, base: nat, size: nat)
    requires Consecutive(rows, 1) && base <= |rows| && size >= 1
    ensures var taken := Take(rows[base..], size + 1); var page := Take(taken, size);
            var end := PageEnd(|rows|, base, size);
            && page == rows[base..end] && (|taken| > size <==> end < |rows|)
            && Consecutive(page, base + 1)
            && (if page == [] then base else page[|page| - 1].sequence) == end
  {
    var end := PageEnd(|rows|, base, size);
    assert Take(Take(rows[base..], size + 1), size) == rows[base..end];
  }

  /** What reading a trial of the owner relies on; it holds in every reachable store. */
  predicate Servable(server: Server, store: Store, ownerId: string, trialId: string) {
    && trialId in store.streams && trialId in store.projections && trialId in store.snapshots
    && store.projections[trialId].ownerId == ownerId
    && store.projections[trialId].lastSequence == |store.streams[trialId]| >= 1
    && Consecutive(store.streams[trialId], 1)
    && SnapshotIsRecent(store.snapshots[trialId], |store.streams[trialId]|) && Rising(store.snapshots[trialId])
    && HeadIsLoaded(server, store, store.projections[trialId])
  }

  predicate HeadIsLoaded(server: Server, store: Store, projection: Projection) {
    LoadActiveHead(server, store, projection) == Ok(projection.state)
  }

  lemma ReachableIsServable(server: Server, store: Store, trialId: string)
    requires TrialsInv(server, store) && trialId in store.projections
    ensures Servable(server, store, store.projections[trialId].ownerId, trialId)
  {
    assert TrialHolds(server, store, trialId);
    HeadIsTheFold(server, store, trialId);
    GaplessIsConsecutive(server, store.streams[trialId]);
  }

  lemma GaplessIsConsecutive(server: Server, rows: seq<Row>)
    requires Gapless(server, rows)
    ensures Consecutive(rows, 1)
  {
    forall i | 0 <= i < |rows| ensures rows[i].sequence == 1 + i {
      assert RowInPlace(server, rows[i], i);
    }
  }

  predicate ValidReload(store: Store, trialId: string, after: nat, size: nat)
    requires trialId in store.projections
  {
    after <= store.projections[trialId].lastSequence <= MAX_SAFE_INTEGER && 1 <= size <= MAX_RELOAD_EVENTS
  }

  lemma ReloadIsPageAfter(server: Server, store: Store, ownerId: string, trialId: string, after: nat, size: nat)
    requires Servable(server, store, ownerId, trialId) && ValidReload(store, trialId, after, size)
    ensures Reload(server, store, ownerId, trialId, Some(after), Some(size))
            == PageAfter(store.projections[trialId], store.streams[trialId], store.snapshots[trialId], after, size)
  {
    assert HeadIsLoaded(server, store, store.projections[trialId]);
  }

  /** A valid request on a trial of the owner never fails, and returns the newest snapshot ahead of the client,
      if any, and the next events in order. */
  lemma ReloadReturns(server: Server, store: Store, ownerId: string, trialId: string, after: nat, size: nat)
    requires Servable(server, store, ownerId, trialId) && ValidReload(store, trialId, after, size)
    ensures var rows := store.streams[trialId]; var snapshots := store.snapshots[trialId];
            var base := ReloadBase(snapshots, after); var end := PageEnd(|rows|, base, size);
            && after <= base <= end <= |rows|
            && Reload(server, store, ownerId, trialId, Some(after), Some(size))
               == Ok(ReloadPage(store.projections[trialId], ReloadSnapshot(snapshots, after), rows[base..end],
                                if end < |rows| then Some(end) else None))
  {
    ReloadIsPageAfter(server, store, ownerId, trialId, after, size);
    PageAfterReturns(store.projections[trialId], store.streams[trialId], store.snapshots[trialId], after, size);
  }

  // ---------------------------------------------------------------- following the pages

  /** A client that asks again from `nextAfterSequence` until there is none, on a quiescent trial: every event
      it is sent. */
  function Follow(server: Server, store: Store, ownerId: string, trialId: string, after: nat, size: nat): seq<Row>
    requires Servable(server, store, ownerId, trialId) && ValidReload(store, trialId, after, size)
    decreases store.projections[trialId].lastSequence - after
  {
    ReloadReturns(server, store, ownerId, trialId, after, size);
    var page := Reload(server, store, ownerId, trialId, Some(after), Some(size)).value;
    if page.nextAfterSequence.None? then page.events
    else page.events + Follow(server, store, ownerId, trialId, page.nextAfterSequence.value, size)
  }

  lemma FollowUnfolds(server: Server, store: Store, ownerId: string, trialId: string, after: nat, size: nat)
    requires Servable(server, store, ownerId, trialId) && ValidReload(store, trialId, after, size)
    ensures var rows := store.streams[trialId];
            var base := ReloadBase(store.snapshots[trialId], after); var end := PageEnd(|rows|, base, size);
            && after <= base <= end <= |rows|
            && Follow(server, store, ownerId, trialId, after, size)
               == if end < |rows| then rows[base..end] + Follow(server, store, ownerId, trialId, end,
                                                                size) else rows[base..end]
  {
    ReloadReturns(server, store, ownerId, trialId, after, size);
  }

  /** Following terminates, and the pages together are exactly the events after the base. */
  lemma {:induction false} FollowIsTheSuffix(server: Server, store: Store, ownerId: string, trialId: string,
                                             after: nat, size: nat)
    requires Servable(server, store, ownerId, trialId) && ValidReload(store, trialId, after, size)
    ensures var base := ReloadBase(store.snapshots[trialId], after);
            && 0 <= base <= |store.streams[trialId]|
            && Follow(server, store, ownerId, trialId, after, size) == store.streams[trialId][base..]
    decreases store.projections[trialId].lastSequence - after
  {
    FollowUnfolds(server, store, ownerId, trialId, after, size);
    var rows := store.streams[trialId];
    var base := ReloadBase(store.snapshots[trialId], after);
    var end := PageEnd(|rows|, base, size);
    Joined(rows, base, end);
    if end < |rows| {
      NextPageHasNoSnapshot(store.snapshots[trialId], after, size, |rows|);
      FollowIsTheSuffix(server, store, ownerId, trialId, end, size);
    }
  }

  lemma Joined(rows: seq<Row>, base: nat, end: nat)
    requires base <= end <= |rows|
    ensures rows[base..] == rows[base..end] + rows[end..]
    ensures end == |rows| ==> rows[base..] == rows[base..end]
  {
  }

  /** After the first page a client is at the newest snapshot or beyond, so it is sent no other. */
  lemma NextPageHasNoSnapshot(snapshots: seq<Snapshot>, after: int, size: nat, head: nat)
    requires SnapshotIsRecent(snapshots, head) && size >= 1
    ensures var end := PageEnd(head, ReloadBase(snapshots, after), size);
            end < head ==> ReloadBase(snapshots, end) == end && ReloadSnapshot(snapshots, end).None?
  {
  }

  /** What the client does with what it was sent: replay the events on the snapshot, or on its own state. */
  function ClientState(server: Server, snapshot: Option<Snapshot>, own: Option<TrialState>, events: seq<Row>)
    : Result<Option<TrialState>, EngineError>
    requires Readable(server, events)
  {
    ReplayFrom(server.rules, if snapshot.Some? then Some(snapshot.value.state) else own, EventsOf(server, events))
  }

  /** Snapshot and pages fold into the projection; without a snapshot, so do the pages on top of the client's
      own state at `after`. */
  lemma ReloadRebuildsProjection(server: Server, store: Store, ownerId: string, trialId: string, after: nat, size: nat,
                                 own: Option<TrialState>)
    requires TrialsInv(server, store) && trialId in store.projections && store.projections[trialId].ownerId == ownerId
    requires ValidReload(store, trialId, after, size) && Servable(server, store, ownerId, trialId)
    requires Readable(server, store.streams[trialId])
    requires ReloadSnapshot(store.snapshots[trialId], after).None?
             ==> Fold(server, store.streams[trialId], after) == Ok(own)
    ensures var events := Follow(server, store, ownerId, trialId, after, size);
            && Readable(server, events)
            && ClientState(server, ReloadSnapshot(store.snapshots[trialId], after), own, events)
               == Ok(Some(store.projections[trialId].state))
  {
    FollowIsTheSuffix(server, store, ownerId, trialId, after, size);
    FoldsToProjection(server, store, trialId);
    RebuildsFrom(server, trialId, store.streams[trialId], store.snapshots[trialId], after, own,
                 store.projections[trialId].state);
  }

  /** What the rows up to the base fold to: the snapshot's state, or the client's own. */
  lemma BaseFolds(server: Server, trialId: string, rows: seq<Row>, snapshots: seq<Snapshot>, after: nat,
                  own: Option<TrialState>)
    returns (middle: Option<TrialState>)
    requires Readable(server, rows) && after <= |rows|
    requires snapshots != [] && SnapshotFolds(server, trialId, rows, snapshots[|snapshots| - 1])
    requires ReloadSnapshot(snapshots, after).None? ==> Fold(server, rows, after) == Ok(own)
    ensures var snapshot := ReloadSnapshot(snapshots, after);
            && 0 <= ReloadBase(snapshots, after) <= |rows|
            && middle == (if snapshot.Some? then Some(snapshot.value.state) else own)
            && Fold(server, rows, ReloadBase(snapshots, after)) == Ok(middle)
  {
    middle := if ReloadSnapshot(snapshots, after).Some? then Some(snapshots[|snapshots| - 1].state) else own;
  }

  lemma RebuildsFrom(server: Server, trialId: string, rows: seq<Row>, snapshots: seq<Snapshot>, after: nat,
                     own: Option<TrialState>, head: TrialState)
    requires Readable(server, rows) && after <= |rows| && Fold(server, rows, |rows|) == Ok(Some(head))
    requires snapshots != [] && SnapshotFolds(server, trialId, rows, snapshots[|snapshots| - 1])
    requires ReloadSnapshot(snapshots, after).None? ==> Fold(server, rows, after) == Ok(own)
    ensures var base := ReloadBase(snapshots, after);
            && 0 <= base <= |rows| && Readable(server, rows[base..])
            && ClientState(server, ReloadSnapshot(snapshots, after), own, rows[base..]) == Ok(Some(head))
  {
    var base := ReloadBase(snapshots, after);
    var middle := BaseFolds(server, trialId, rows, snapshots, after, own);
    SuffixFolds(server, rows, base, middle, head);
    EventsOfSuffix(server, rows, base);
  }

  lemma FoldsToProjection(server: Server, store: Store, trialId: string)
    requires TrialsInv(server, store) && trialId in store.projections
    ensures trialId in store.streams && trialId in store.snapshots && Readable(server, store.streams[trialId])
    ensures var rows := store.streams[trialId]; Fold(server, rows, |rows|) == Ok(Some(store.projections[trialId].state))
    ensures var s := store.snapshots[trialId];
            s != [] && SnapshotFolds(server, trialId, store.streams[trialId], s[|s| - 1])
  {
    assert TrialHolds(server, store, trialId);
  }

  // ---------------------------------------------------------------- the canonical replay

  /** `loadCanonicalTrialReplayForOwner`: the whole stream from event one. */
  function CanonicalReplay(server: Server, store: Store, ownerId: string, trialId: string)
    : Result<seq<Event>, StoreError>
  {
    if trialId !in store.projections || store.projections[trialId].ownerId != ownerId then Err(TrialNotFound)
    else
      var claimed :- LoadActiveHead(server, store, store.projections[trialId]);
      FullReplay(server, store.projections[trialId].lastSequence, claimed, RowsOf(store, trialId))
  }

  function FullReplay(server: Server, lastSequence: int, claimed: TrialState, all: seq<Row>)
    : Result<seq<Event>, StoreError>
  {
    var rows := Take(all, MAX_REPLAY_EVENTS + 1);
    if |rows| == 0 || |rows| > MAX_REPLAY_EVENTS || |rows| != lastSequence then Err(ReplayLimitExceeded)
    else
      var events :- ReadEvents(server, rows);
      var replayed := Reduce(server.rules, events);
      if replayed.Err? then Err(EngineFailed(replayed.error))
      else if replayed.value != claimed then Err(ProjectionMismatch)
      else Ok(events)
  }

  lemma FullReplayExactly(server: Server, claimed: TrialState, rows: seq<Row>)
    requires Readable(server, rows) && rows != [] && Fold(server, rows, |rows|) == Ok(Some(claimed))
    ensures FullReplay(server, |rows|, claimed, rows)
            == if |rows| <= MAX_REPLAY_EVENTS then Ok(EventsOf(server, rows)) else Err(ReplayLimitExceeded)
  {
    ReadEventsIsEventsOf(server, rows);
    ReducesToHead(server, rows, claimed);
  }

  lemma {:induction false} ReadEventsIsEventsOf(server: Server, rows: seq<Row>)
    requires Readable(server, rows)
    ensures ReadEvents(server, rows) == Ok(EventsOf(server, rows))
  {
    if rows == [] {
      assert EventsOf(server, rows) == [];
    } else {
      var earlier := rows[..|rows| - 1];
      ReadEventsIsEventsOf(server, earlier);
      assert EventsOf(server, rows) == EventsOf(server, earlier) + [ReadEvent(server, rows[|rows| - 1]).value];
    }
  }

  /** The head always loads, from a snapshot at most 24 events old; the canonical replay succeeds exactly as
      long as the trial has at most 5000 events, and then returns all of them. */
  lemma CanonicalReplayExactly(server: Server, store: Store, ownerId: string, trialId: string)
    requires TrialsInv(server, store) && Servable(server, store, ownerId, trialId)
    requires Readable(server, store.streams[trialId])
    ensures var rows := store.streams[trialId];
            CanonicalReplay(server, store, ownerId, trialId)
            == if |rows| <= MAX_REPLAY_EVENTS then Ok(EventsOf(server, rows)) else Err(ReplayLimitExceeded)
  {
    FoldsToProjection(server, store, trialId);
    FullReplayExactly(server, store.projections[trialId].state, store.streams[trialId]);
    CanonicalIsFull(server, store, ownerId, trialId);
  }

  lemma CanonicalIsFull(server: Server, store: Store, ownerId: string, trialId: string)
    requires Servable(server, store, ownerId, trialId)
    ensures CanonicalReplay(server, store, ownerId, trialId)
            == FullReplay(server, |store.streams[trialId]|, store.projections[trialId].state, store.streams[trialId])
  {
    assert HeadIsLoaded(server, store, store.projections[trialId]);
  }

  lemma ReducesToHead(server: Server, rows: seq<Row>, head: TrialState)
    requires Readable(server, rows) && rows != [] && Fold(server, rows, |rows|) == Ok(Some(head))
    ensures Reduce(server.rules, EventsOf(server, rows)) == Ok(head)
  {
    assert EventsOf(server, rows)[..|rows|] == EventsOf(server, rows);
  }
}
