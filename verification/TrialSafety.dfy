/** What the trial store guarantees over every run (convex/trialEvents.ts:2350-2433, 2533-2840): projections and
    snapshots are folds of the committed events, every action commits at most once, and retries replay. */
module TrialSafety {
  import opened Outcomes
  import opened TrialEngine
  import opened TrialCodec
  import opened TrialStore

  // ---------------------------------------------------------------- one trial

  predicate Readable(server: Server, rows: seq<Row>) {
    forall i :: 0 <= i < |rows| ==> ReadEvent(server, rows[i]).Ok?
  }

  function EventsOf(server: Server, rows: seq<Row>): seq<Event>
    requires Readable(server, rows)
  {
    seq(|rows|, i requires 0 <= i < |rows| => ReadEvent(server, rows[i]).value)
  }

  /** The engine's fold over the first `n` rows. */
  function Fold(server: Server, rows: seq<Row>, n: nat): Result<Option<TrialState>, EngineError>
    requires Readable(server, rows) && n <= |rows|
  {
    ReplayFrom(server.rules, None, EventsOf(server, rows)[..n])
  }

  /** Row columns and the event they decode to agree, and rows are numbered without gaps. */
  predicate RowInPlace(server: Server, row: Row, i: nat) {
    && ReadEvent(server, row).Ok?
    && var event := ReadEvent(server, row).value;
       && row.sequence == row.stateVersion == event.sequence == event.stateVersion == i + 1
       && row.actionId == event.envelope.actionId && row.trialId == event.envelope.trialId
       && row.eventId == event.eventId == EventIdFor(row.actionId)
       && RebuiltAction(server.texts, row) == Ok(ActionFrom(event))
  }

  predicate Gapless(server: Server, rows: seq<Row>) {
    forall i :: 0 <= i < |rows| ==> RowInPlace(server, rows[i], i)
  }

  /** The projection is the fold of every row. */
  predicate ProjectionFolds(server: Server, trialId: string, rows: seq<Row>, projection: Projection) {
    && rows != [] && Gapless(server, rows) && Readable(server, rows)
    && Fold(server, rows, |rows|) == Ok(Some(projection.state))
    && projection.trialId == trialId && StateMatches(projection.state, projection)
    && projection.lastSequence == |rows|
    && Shape(EventsOf(server, rows), projection.state)
  }

  /** A snapshot is the fold of its prefix. */
  predicate SnapshotFolds(server: Server, trialId: string, rows: seq<Row>, s: Snapshot)
    requires Readable(server, rows)
  {
    && 1 <= s.lastSequence <= |rows| && s.stateVersion == s.lastSequence == s.state.version == s.state.lastSequence
    && s.state.trialId == trialId
    && Fold(server, rows, s.lastSequence) == Ok(Some(s.state))
  }

  predicate SnapshotsFold(server: Server, trialId: string, rows: seq<Row>, snapshots: seq<Snapshot>)
    requires Readable(server, rows)
  {
    && (forall k :: 0 <= k < |snapshots| ==> SnapshotFolds(server, trialId, rows, snapshots[k]))
    && (forall j, k :: 0 <= j < k < |snapshots| ==> snapshots[j].lastSequence < snapshots[k].lastSequence)
  }

  /** The newest snapshot is within its interval of the head. */
  predicate SnapshotIsRecent(snapshots: seq<Snapshot>, head: nat) {
    && snapshots != [] && 1 <= snapshots[|snapshots| - 1].lastSequence <= head
    && head / SNAPSHOT_INTERVAL * SNAPSHOT_INTERVAL <= snapshots[|snapshots| - 1].lastSequence
  }

  predicate TrialInv(server: Server, trialId: string, rows: seq<Row>, projection: Projection,
                     snapshots: seq<Snapshot>) {
    && ProjectionFolds(server, trialId, rows, projection)
    && SnapshotsFold(server, trialId, rows, snapshots)
    && SnapshotIsRecent(snapshots, |rows|)
  }

  // ---------------------------------------------------------------- replay from a snapshot

  lemma {:induction false} RowsAfterIsSuffix(server: Server, rows: seq<Row>, k: nat)
    requires Gapless(server, rows) && k <= |rows|
    ensures RowsAfter(rows, k) == rows[k..]
  {
    if |rows| == k {
      NoRowsAfter(server, rows, k);
    } else {
      var earlier := rows[..|rows| - 1];
      assert Gapless(server, earlier);
      RowsAfterIsSuffix(server, earlier, k);
      assert RowInPlace(server, rows[|rows| - 1], |rows| - 1);
      assert rows[k..] == earlier[k..] + [rows[|rows| - 1]];
    }
  }

  lemma {:induction false} NoRowsAfter(server: Server, rows: seq<Row>, k: nat)
    requires Gapless(server, rows) && |rows| <= k
    ensures RowsAfter(rows, k) == []
  {
    if rows != [] {
      var earlier := rows[..|rows| - 1];
      assert Gapless(server, earlier);
      NoRowsAfter(server, earlier, k);
      assert RowInPlace(server, rows[|rows| - 1], |rows| - 1);
    }
  }

  /** The row loop computes the engine's replay when rows are gapless from the state's next sequence. */
  lemma {:induction false} RowLoopIsReplay(server: Server, state: TrialState, rows: seq<Row>, first: int)
    requires Readable(server, rows)
    requires forall i :: 0 <= i < |rows| ==> rows[i].sequence == first + i
    requires ReplayFrom(server.rules, Some(state), EventsOf(server, rows)).Ok?
    ensures ReplayFrom(server.rules, Some(state), EventsOf(server, rows)).value.Some?
    ensures ReplayRows(server, state, rows, first)
            == Ok(ReplayFrom(server.rules, Some(state), EventsOf(server, rows)).value.value)
  {
    if rows != [] {
      var earlier := rows[..|rows| - 1];
      var events := EventsOf(server, rows);
      assert EventsOf(server, earlier) == events[..|events| - 1];
      RowLoopIsReplay(server, state, earlier, first);
    }
  }

  lemma SuffixFolds(server: Server, rows: seq<Row>, k: nat, middle: Option<TrialState>, head: TrialState)
    requires Readable(server, rows) && k <= |rows|
    requires Fold(server, rows, k) == Ok(middle) && Fold(server, rows, |rows|) == Ok(Some(head))
    ensures ReplayFrom(server.rules, middle, EventsOf(server, rows)[k..]) == Ok(Some(head))
  {
    var events := EventsOf(server, rows);
    assert events[..|rows|] == events;
    SuffixOfFold(server.rules, events, k, middle);
  }

  lemma EventsOfSuffix(server: Server, rows: seq<Row>, k: nat)
    requires Readable(server, rows) && k <= |rows|
    ensures Readable(server, rows[k..]) && EventsOf(server, rows[k..]) == EventsOf(server, rows)[k..]
  {
  }

  lemma SuffixRows(server: Server, rows: seq<Row>, k: nat)
    requires Readable(server, rows) && Gapless(server, rows) && k <= |rows|
    ensures Readable(server, rows[k..]) && EventsOf(server, rows[k..]) == EventsOf(server, rows)[k..]
    ensures forall i :: 0 <= i < |rows| - k ==> rows[k..][i].sequence == k + 1 + i
  {
    forall i | 0 <= i < |rows| - k ensures rows[k..][i].sequence == k + 1 + i {
      assert RowInPlace(server, rows[k + i], k + i);
    }
  }

  /** From any snapshot, the suffix replays to exactly the fold of all rows. */
  lemma SnapshotPlusSuffixIsFold(server: Server, trialId: string, rows: seq<Row>, s: Snapshot, head: TrialState)
    requires Readable(server, rows) && Gapless(server, rows) && SnapshotFolds(server, trialId, rows, s)
    requires Fold(server, rows, |rows|) == Ok(Some(head))
    ensures RowsAfter(rows, s.lastSequence) == rows[s.lastSequence..]
    ensures ReplayRows(server, s.state, rows[s.lastSequence..], s.lastSequence + 1) == Ok(head)
  {
    RowsAfterIsSuffix(server, rows, s.lastSequence);
    SuffixFolds(server, rows, s.lastSequence, Some(s.state), head);
    SuffixRows(server, rows, s.lastSequence);
    RowLoopIsReplay(server, s.state, rows[s.lastSequence..], s.lastSequence + 1);
  }

  lemma HeadFromSnapshot(server: Server, trialId: string, rows: seq<Row>, s: Snapshot, projection: Projection)
    requires ProjectionFolds(server, trialId, rows, projection) && SnapshotFolds(server, trialId, rows, s)
    requires |rows| - s.lastSequence <= MAX_REPLAY_EVENTS
    ensures ReplayedHead(server, rows, Some(s), projection) == Ok(projection.state)
  {
    SnapshotPlusSuffixIsFold(server, trialId, rows, s, projection.state);
    HeadOfSuffix(server, rows, s, projection);
  }

  lemma HeadOfSuffix(server: Server, rows: seq<Row>, s: Snapshot, projection: Projection)
    requires s.state.trialId == projection.trialId && s.state.version == s.stateVersion
             && s.state.lastSequence == s.lastSequence
    requires |RowsAfter(rows, s.lastSequence)| <= MAX_REPLAY_EVENTS
    ensures ReplayedHead(server, rows, Some(s), projection)
            == ReplayRows(server, s.state, RowsAfter(rows, s.lastSequence), s.lastSequence + 1)
  {
  }

  lemma NewestIsFound(snapshots: seq<Snapshot>, head: nat)
    requires SnapshotIsRecent(snapshots, head)
    ensures FindSnapshot(snapshots, head) == Some(snapshots[|snapshots| - 1])
    ensures head - snapshots[|snapshots| - 1].lastSequence <= SNAPSHOT_INTERVAL - 1
  {
  }

  /** `loadActiveHead` never fails on a store that keeps the invariant, and returns the full fold. */
  lemma HeadIsTheFold(server: Server, store: Store, trialId: string)
    requires trialId in store.projections
    requires TrialInv(server, trialId, RowsOf(store, trialId), store.projections[trialId], SnapshotsOf(store, trialId))
    ensures LoadActiveHead(server, store, store.projections[trialId]) == Ok(store.projections[trialId].state)
  {
    var rows, projection, snapshots := RowsOf(store, trialId), store.projections[trialId], SnapshotsOf(store, trialId);
    NewestIsFound(snapshots, |rows|);
    HeadFromSnapshot(server, trialId, rows, snapshots[|snapshots| - 1], projection);
  }

  // ---------------------------------------------------------------- one commit

  /** The fold a commit builds on: nothing yet, or every row so far. */
  predicate Head(server: Server, trialId: string, rows: seq<Row>, state: Option<TrialState>) {
    && Readable(server, rows) && Gapless(server, rows)
    && Fold(server, rows, |rows|) == Ok(state)
    && (state.None? <==> rows == [])
    && (state.Some? ==> state.value.version == state.value.lastSequence == |rows| && Numbered(state)
                        && state.value.trialId == trialId)
  }

  /** A row just encoded reads back as the committed event, in the next place. */
  lemma CommittedRow(server: Server, trialId: string, rows: seq<Row>, state: Option<TrialState>, action: Action,
                     now: int)
    requires Head(server, trialId, rows, state) && CommitAction(server.rules, state, action).Ok?
    requires Encode(server.texts, CommitAction(server.rules, state, action).value.event, now).Ok?
    ensures var commit := CommitAction(server.rules, state, action).value;
            var row := Encode(server.texts, commit.event, now).value;
            && ReadEvent(server, row) == Ok(commit.event) && RowInPlace(server, row, |rows|)
            && row.actionId == action.envelope.actionId && row.trialId == action.envelope.trialId
            && commit.state.version == commit.state.lastSequence == |rows| + 1
            && commit.event.sequence == commit.event.stateVersion == |rows| + 1
            && action.expectedStateVersion == |rows|
  {
    var commit := CommitAction(server.rules, state, action).value;
    CommitNumbers(server.rules, state, action);
    RowRoundTrip(server.texts, commit.event, now);
  }

  lemma FoldGrows(server: Server, rows: seq<Row>, row: Row, n: nat)
    requires Readable(server, rows) && ReadEvent(server, row).Ok? && n <= |rows|
    ensures Readable(server, rows + [row])
    ensures EventsOf(server, rows + [row]) == EventsOf(server, rows) + [ReadEvent(server, row).value]
    ensures Fold(server, rows + [row], n) == Fold(server, rows, n)
  {
    assert EventsOf(server, rows + [row])[..n] == EventsOf(server, rows)[..n];
  }

  lemma FoldOfCommit(server: Server, trialId: string, rows: seq<Row>, state: Option<TrialState>, action: Action,
                     row: Row)
    requires Head(server, trialId, rows, state) && CommitAction(server.rules, state, action).Ok?
    requires ReadEvent(server, row) == Ok(CommitAction(server.rules, state, action).value.event)
    ensures Readable(server, rows + [row])
    ensures Fold(server, rows + [row], |rows| + 1) == Ok(Some(CommitAction(server.rules, state, action).value.state))
  {
    var commit := CommitAction(server.rules, state, action).value;
    FoldGrows(server, rows, row, |rows|);
    ReplayInvertsCommit(server.rules, state, action);
    var events := EventsOf(server, rows);
    assert events[..|rows|] == events;
    OneMore(server.rules, None, events, commit.event);
    assert EventsOf(server, rows + [row])[..|rows| + 1] == events + [commit.event];
  }

  lemma GaplessGrows(server: Server, rows: seq<Row>, row: Row)
    requires Gapless(server, rows) && RowInPlace(server, row, |rows|)
    ensures Gapless(server, rows + [row])
  {
    forall i | 0 <= i < |rows + [row]| ensures RowInPlace(server, (rows + [row])[i], i) {
      if i < |rows| {
        assert RowInPlace(server, rows[i], i);
      }
    }
  }

  lemma ShapeOfFold(server: Server, rows: seq<Row>, head: TrialState)
    requires Readable(server, rows) && rows != [] && Fold(server, rows, |rows|) == Ok(Some(head))
    ensures Shape(EventsOf(server, rows), head)
  {
    var events := EventsOf(server, rows);
    assert events[..|rows|] == events;
    ReplayedShape(server.rules, events);
  }

  /** The projection after a commit is the fold of the longer stream. */
  lemma ProjectionOfCommit(server: Server, trialId: string, rows: seq<Row>, state: Option<TrialState>, action: Action,
                           now: int, projection: Projection)
    requires Head(server, trialId, rows, state) && CommitAction(server.rules, state, action).Ok?
    requires Encode(server.texts, CommitAction(server.rules, state, action).value.event, now).Ok?
    requires projection.state == CommitAction(server.rules, state, action).value.state
    requires projection.trialId == trialId == projection.state.trialId && StateMatches(projection.state, projection)
    ensures var row := Encode(server.texts, CommitAction(server.rules, state, action).value.event, now).value;
            ProjectionFolds(server, trialId, rows + [row], projection)
  {
    var row := Encode(server.texts, CommitAction(server.rules, state, action).value.event, now).value;
    CommittedRow(server, trialId, rows, state, action, now);
    FoldOfCommit(server, trialId, rows, state, action, row);
    GaplessGrows(server, rows, row);
    ShapeOfFold(server, rows + [row], projection.state);
  }

  lemma OldSnapshotsFold(server: Server, trialId: string, rows: seq<Row>, row: Row, snapshots: seq<Snapshot>)
    requires Readable(server, rows) && ReadEvent(server, row).Ok? && SnapshotsFold(server, trialId, rows, snapshots)
    ensures Readable(server, rows + [row]) && SnapshotsFold(server, trialId, rows + [row], snapshots)
    ensures forall k :: 0 <= k < |snapshots| ==> snapshots[k].lastSequence < |rows| + 1
  {
    FoldGrows(server, rows, row, 0);
    forall k | 0 <= k < |snapshots| ensures SnapshotFolds(server, trialId, rows + [row], snapshots[k]) {
      assert SnapshotFolds(server, trialId, rows, snapshots[k]);
      FoldGrows(server, rows, row, snapshots[k].lastSequence);
    }
  }

  /** With a snapshot at every 25th event at the latest, the newest stays within 24 of the head. */
  lemma RecentAfterCommit(before: seq<Snapshot>, after: seq<Snapshot>, head: nat, written: bool)
    requires if head == 0 then before == [] && written else SnapshotIsRecent(before, head)
    requires (head + 1) % SNAPSHOT_INTERVAL == 0 ==> written
    requires if written then |after| >= 1 && after[|after| - 1].lastSequence == head + 1 else after == before
    ensures SnapshotIsRecent(after, head + 1)
  {
  }

  lemma NewSnapshotFolds(server: Server, trialId: string, rows: seq<Row>, snapshots: seq<Snapshot>, s: Snapshot,
                         written: bool)
    requires Readable(server, rows) && SnapshotsFold(server, trialId, rows, snapshots)
    requires SnapshotFolds(server, trialId, rows, s) && s.lastSequence == |rows|
    requires forall k :: 0 <= k < |snapshots| ==> snapshots[k].lastSequence < |rows|
    ensures SnapshotsFold(server, trialId, rows, snapshots + if written then [s] else [])
  {
    assert !written ==> snapshots + (if written then [s] else []) == snapshots;
  }

  /** The newest row's snapshot, if one is written, joins those that already fold. */
  lemma SnapshotsAfterCommit(server: Server, trialId: string, rows: seq<Row>, snapshots: seq<Snapshot>,
                             state: TrialState, written: bool)
    requires Readable(server, rows) && rows != [] && SnapshotsFold(server, trialId, rows, snapshots)
    requires Fold(server, rows, |rows|) == Ok(Some(state))
    requires forall k :: 0 <= k < |snapshots| ==> snapshots[k].lastSequence < |rows|
    requires state.trialId == trialId && state.version == state.lastSequence == |rows|
    ensures SnapshotsFold(server, trialId, rows,
                          snapshots + if written then [Snapshot(state.version, state.lastSequence, state)] else [])
  {
    HeadSnapshotFolds(server, trialId, rows, state);
    NewSnapshotFolds(server, trialId, rows, snapshots, Snapshot(state.version, state.lastSequence, state), written);
  }

  lemma HeadSnapshotFolds(server: Server, trialId: string, rows: seq<Row>, state: TrialState)
    requires Readable(server, rows) && rows != [] && Fold(server, rows, |rows|) == Ok(Some(state))
    requires state.trialId == trialId && state.version == state.lastSequence == |rows|
    ensures SnapshotFolds(server, trialId, rows, Snapshot(state.version, state.lastSequence, state))
  {
  }

  lemma NewestAfterCommit(snapshots: seq<Snapshot>, s: Snapshot, head: nat, written: bool)
    requires if head == 0 then snapshots == [] && written else SnapshotIsRecent(snapshots, head)
    requires (head + 1) % SNAPSHOT_INTERVAL == 0 ==> written
    requires s.lastSequence == head + 1
    ensures SnapshotIsRecent(snapshots + if written then [s] else [], head + 1)
  {
    assert !written ==> snapshots + (if written then [s] else []) == snapshots;
    RecentAfterCommit(snapshots, snapshots + if written then [s] else [], head, written);
  }

  /** The snapshots after one more row, and its own if one is written. */
  lemma SnapshotsGrow(server: Server, trialId: string, rows: seq<Row>, row: Row, snapshots: seq<Snapshot>,
                      s: TrialState, written: bool)
    requires Readable(server, rows) && ReadEvent(server, row).Ok? && SnapshotsFold(server, trialId, rows, snapshots)
    requires Readable(server, rows + [row]) && Fold(server, rows + [row], |rows| + 1) == Ok(Some(s))
    requires if rows == [] then snapshots == [] && written else SnapshotIsRecent(snapshots, |rows|)
    requires (|rows| + 1) % SNAPSHOT_INTERVAL == 0 ==> written
    requires s.trialId == trialId && s.version == s.lastSequence == |rows| + 1
    ensures var after := snapshots + if written then [Snapshot(s.version, s.lastSequence, s)] else [];
            SnapshotsFold(server, trialId, rows + [row], after) && SnapshotIsRecent(after, |rows| + 1)
  {
    OldSnapshotsFold(server, trialId, rows, row, snapshots);
    SnapshotsAfterCommit(server, trialId, rows + [row], snapshots, s, written);
    NewestAfterCommit(snapshots, Snapshot(s.version, s.lastSequence, s), |rows|, written);
  }

  /** All of a trial's tables after a commit. */
  lemma TrialAfterCommit(server: Server, trialId: string, rows: seq<Row>, state: Option<TrialState>,
                         snapshots: seq<Snapshot>, action: Action, now: int, projection: Projection, written: bool)
    requires Head(server, trialId, rows, state) && CommitAction(server.rules, state, action).Ok?
    requires Encode(server.texts, CommitAction(server.rules, state, action).value.event, now).Ok?
    requires projection.state == CommitAction(server.rules, state, action).value.state
    requires projection.trialId == trialId == projection.state.trialId && StateMatches(projection.state, projection)
    requires SnapshotsFold(server, trialId, rows, snapshots)
    requires if rows == [] then snapshots == [] && written else SnapshotIsRecent(snapshots, |rows|)
    requires (|rows| + 1) % SNAPSHOT_INTERVAL == 0 ==> written
    ensures var row := Encode(server.texts, CommitAction(server.rules, state, action).value.event, now).value;
            var s := projection.state;
            TrialInv(server, trialId, rows + [row], projection,
                     snapshots + if written then [Snapshot(s.version, s.lastSequence, s)] else [])
  {
    var row := Encode(server.texts, CommitAction(server.rules, state, action).value.event, now).value;
    CommittedRow(server, trialId, rows, state, action, now);
    ProjectionOfCommit(server, trialId, rows, state, action, now, projection);
    SnapshotsGrow(server, trialId, rows, row, snapshots, projection.state, written);
  }

  // ---------------------------------------------------------------- the whole store

  /** The receipt a row stands for. */
  function ReceiptOf(server: Server, row: Row): Receipt
    requires ReadEvent(server, row).Ok?
  {
    var event := ReadEvent(server, row).value;
    Receipt(row.actionId, row.trialId, event.stateVersion - 1, event.stateVersion, event.sequence, [event.eventId],
            server.hash(ActionFrom(event)))
  }

  predicate RowHasReceipt(server: Server, receipts: map<string, Receipt>, trialId: string, row: Row) {
    && ReadEvent(server, row).Ok? && row.trialId == trialId
    && row.actionId in receipts && receipts[row.actionId] == ReceiptOf(server, row)
  }

  predicate StreamHasReceipts(server: Server, receipts: map<string, Receipt>, trialId: string, rows: seq<Row>) {
    forall i :: 0 <= i < |rows| ==> RowHasReceipt(server, receipts, trialId, rows[i])
  }

  predicate ReceiptHasRow(store: Store, id: string)
    requires id in store.receipts
  {
    var r := store.receipts[id];
    && r.actionId == id && r.trialId in store.streams
    && 1 <= r.sequence <= |store.streams[r.trialId]|
    && store.streams[r.trialId][r.sequence - 1].actionId == id
  }

  /** Receipts and event rows are in one-to-one correspondence. */
  predicate ReceiptsInv(server: Server, store: Store) {
    && (forall t :: t in store.streams ==> StreamHasReceipts(server, store.receipts, t, store.streams[t]))
    && (forall id :: id in store.receipts ==> ReceiptHasRow(store, id))
  }

  predicate TrialsInv(server: Server, store: Store) {
    && store.streams.Keys == store.projections.Keys == store.snapshots.Keys
    && (forall t :: t in store.projections ==> TrialHolds(server, store, t))
  }

  predicate TrialHolds(server: Server, store: Store, trialId: string) {
    && trialId in store.streams && trialId in store.projections && trialId in store.snapshots
    && TrialInv(server, trialId, store.streams[trialId], store.projections[trialId], store.snapshots[trialId])
  }

  lemma OtherTrialHolds(server: Server, before: Store, after: Store, t: string)
    requires TrialHolds(server, before, t)
    requires t in after.streams && t in after.projections && t in after.snapshots
    requires after.streams[t] == before.streams[t] && after.projections[t] == before.projections[t]
    requires after.snapshots[t] == before.snapshots[t]
    ensures TrialHolds(server, after, t)
  {
  }

  predicate StoreInv(server: Server, store: Store) {
    TrialsInv(server, store) && ReceiptsInv(server, store)
  }

  /** The head a trial's next commit builds on. */
  function HeadOf(store: Store, trialId: string): Option<TrialState> {
    if trialId in store.projections then Some(store.projections[trialId].state) else None
  }

  lemma HeadHolds(server: Server, store: Store, trialId: string)
    requires TrialsInv(server, store)
    ensures Head(server, trialId, RowsOf(store, trialId), HeadOf(store, trialId))
  {
    if trialId in store.projections {
      assert TrialHolds(server, store, trialId);
    } else {
      assert EventsOf(server, []) == [];
    }
  }

  lemma WrittenTrial(server: Server, store: Store, trialId: string, row: Row, projection: Projection,
                     snapshot: Option<Snapshot>, receipt: Receipt)
    requires TrialInv(server, trialId, RowsOf(store, trialId) + [row], projection,
                      SnapshotsOf(store, trialId) + if snapshot.Some? then [snapshot.value] else [])
    ensures TrialHolds(server, Written(store, trialId, row, projection, snapshot, receipt), trialId)
  {
  }

  lemma TrialsExcept(server: Server, before: Store, after: Store, trialId: string)
    requires TrialsInv(server, before) && TrialHolds(server, after, trialId)
    requires after.streams.Keys == before.streams.Keys + {trialId}
    requires after.projections.Keys == before.projections.Keys + {trialId}
    requires after.snapshots.Keys == before.snapshots.Keys + {trialId}
    requires forall t :: t in before.projections && t != trialId ==> OtherTrialSame(before, after, t)
    ensures TrialsInv(server, after)
  {
    forall t | t in after.projections
      ensures TrialHolds(server, after, t)
    {
      if t != trialId {
        assert TrialHolds(server, before, t) && OtherTrialSame(before, after, t);
        OtherTrialHolds(server, before, after, t);
      }
    }
  }

  predicate OtherTrialSame(before: Store, after: Store, t: string) {
    && t in before.streams && t in before.projections && t in before.snapshots
    && t in after.streams && t in after.projections && t in after.snapshots
    && after.streams[t] == before.streams[t] && after.projections[t] == before.projections[t]
    && after.snapshots[t] == before.snapshots[t]
  }

  lemma WrittenOthers(store: Store, trialId: string, row: Row, projection: Projection, snapshot: Option<Snapshot>,
                      receipt: Receipt)
    requires store.streams.Keys == store.projections.Keys == store.snapshots.Keys
    ensures var after := Written(store, trialId, row, projection, snapshot, receipt);
            && after.streams.Keys == store.streams.Keys + {trialId}
            && after.projections.Keys == store.projections.Keys + {trialId}
            && after.snapshots.Keys == store.snapshots.Keys + {trialId}
            && forall t :: t in store.projections && t != trialId ==> OtherTrialSame(store, after, t)
  {
  }

  lemma WrittenTrials(server: Server, store: Store, trialId: string, row: Row, projection: Projection,
                      snapshot: Option<Snapshot>, receipt: Receipt)
    requires TrialsInv(server, store)
    requires TrialHolds(server, Written(store, trialId, row, projection, snapshot, receipt), trialId)
    ensures TrialsInv(server, Written(store, trialId, row, projection, snapshot, receipt))
  {
    WrittenOthers(store, trialId, row, projection, snapshot, receipt);
    TrialsExcept(server, store, Written(store, trialId, row, projection, snapshot, receipt), trialId);
  }

  lemma StreamKeepsReceipts(server: Server, receipts: map<string, Receipt>, t: string, rows: seq<Row>, row: Row,
                            receipt: Receipt)
    requires StreamHasReceipts(server, receipts, t, rows) && row.actionId !in receipts
    requires ReadEvent(server, row).Ok? && receipt == ReceiptOf(server, row)
    ensures StreamHasReceipts(server, receipts[receipt.actionId := receipt], t, rows)
    ensures row.trialId == t ==> StreamHasReceipts(server, receipts[receipt.actionId := receipt], t, rows + [row])
  {
    forall i | 0 <= i < |rows| ensures RowHasReceipt(server, receipts[receipt.actionId := receipt], t, rows[i]) {
      assert RowHasReceipt(server, receipts, t, rows[i]);
    }
  }

  lemma WrittenReceipts(server: Server, store: Store, trialId: string, row: Row, projection: Projection,
                        snapshot: Option<Snapshot>, receipt: Receipt)
    requires ReceiptsInv(server, store) && row.actionId !in store.receipts
    requires ReadEvent(server, row).Ok? && row.trialId == trialId && receipt == ReceiptOf(server, row)
    requires receipt.sequence == |RowsOf(store, trialId)| + 1
    ensures ReceiptsInv(server, Written(store, trialId, row, projection, snapshot, receipt))
  {
    var after := Written(store, trialId, row, projection, snapshot, receipt);
    forall t | t in after.streams
      ensures StreamHasReceipts(server, after.receipts, t, after.streams[t])
    {
      if t in store.streams {
        assert StreamHasReceipts(server, store.receipts, t, store.streams[t]);
      }
      StreamKeepsReceipts(server, store.receipts, t, RowsOf(store, t), row, receipt);
    }
    forall id | id in after.receipts
      ensures ReceiptHasRow(after, id)
    {
      if id != row.actionId {
        assert ReceiptHasRow(store, id);
        OldReceiptHasRow(store, after, trialId, row, id);
      }
    }
  }

  lemma OldReceiptHasRow(store: Store, after: Store, trialId: string, row: Row, id: string)
    requires id in store.receipts && ReceiptHasRow(store, id)
    requires id in after.receipts && after.receipts[id] == store.receipts[id]
    requires after.streams == store.streams[trialId := RowsOf(store, trialId) + [row]]
    ensures ReceiptHasRow(after, id)
  {
  }

  /** What a successful commit wrote. */
  lemma PersistMeans(server: Server, store: Store, ownerId: string, graphId: string, action: Action, commit: Commit,
                     writeSnapshot: bool, now: int)
    returns (row: Row, projection: Projection)
    requires PersistCommit(server, store, ownerId, graphId, action, commit, writeSnapshot, now).Ok?
    ensures Encode(server.texts, commit.event, now) == Ok(row)
    ensures projection
            == if action.envelope.trialId in store.projections
               then store.projections[action.envelope.trialId].(stateVersion := commit.state.version,
                                                                lastSequence := commit.state.lastSequence,
                                                                state := commit.state)
               else ProjectionFor(ownerId, graphId, commit.state)
    ensures var s := commit.state;
            PersistCommit(server, store, ownerId, graphId, action, commit, writeSnapshot, now).value
            == (Written(store, action.envelope.trialId, row, projection,
                        if writeSnapshot then Some(Snapshot(s.version, s.lastSequence, s)) else None,
                        ReceiptFor(server, action, commit)),
                Reply(ReceiptFor(server, action, commit), false))
  {
    row := Encode(server.texts, commit.event, now).value;
    projection := if action.envelope.trialId in store.projections
    then store.projections[action.envelope.trialId].(stateVersion := commit.state.version,
                                                     lastSequence := commit.state.lastSequence,
                                                     state := commit.state)
    else ProjectionFor(ownerId, graphId, commit.state);
  }

  /** A commit onto the head keeps every invariant. */
  lemma CommitKeepsStore(server: Server, store: Store, ownerId: string, graphId: string, action: Action, commit: Commit,
                         writeSnapshot: bool, now: int)
    requires StoreInv(server, store) && action.envelope.actionId !in store.receipts
    requires CommitAction(server.rules, HeadOf(store, action.envelope.trialId), action) == Ok(commit)
    requires action.envelope.trialId !in store.projections ==> writeSnapshot
    requires commit.event.sequence % SNAPSHOT_INTERVAL == 0 ==> writeSnapshot
    requires PersistCommit(server, store, ownerId, graphId, action, commit, writeSnapshot, now).Ok?
    ensures StoreInv(server, PersistCommit(server, store, ownerId, graphId, action, commit, writeSnapshot, now).value.0)
  {
    var trialId, s := action.envelope.trialId, commit.state;
    var row, projection := PersistMeans(server, store, ownerId, graphId, action, commit, writeSnapshot, now);
    ProjectionMatches(server, store, ownerId, graphId, action, commit, projection);
    CommitFacts(server, store, action, commit, writeSnapshot, now, row, projection);
    StoreAfterCommit(server, store, trialId, row, projection,
                     if writeSnapshot then Some(Snapshot(s.version, s.lastSequence, s)) else None,
                     ReceiptFor(server, action, commit));
  }

  /** The projection a commit writes is of its trial and matches its state. */
  lemma ProjectionMatches(server: Server, store: Store, ownerId: string, graphId: string, action: Action,
                          commit: Commit, projection: Projection)
    requires TrialsInv(server, store)
    requires CommitAction(server.rules, HeadOf(store, action.envelope.trialId), action) == Ok(commit)
    requires projection
             == if action.envelope.trialId in store.projections
                then store.projections[action.envelope.trialId].(stateVersion := commit.state.version,
                                                                 lastSequence := commit.state.lastSequence,
                                                                 state := commit.state)
                else ProjectionFor(ownerId, graphId, commit.state)
    ensures projection.state == commit.state && projection.trialId == action.envelope.trialId
    ensures StateMatches(projection.state, projection)
  {
    var trialId := action.envelope.trialId;
    HeadHolds(server, store, trialId);
    CommitNumbers(server.rules, HeadOf(store, trialId), action);
    if trialId in store.projections {
      assert TrialHolds(server, store, trialId);
    }
  }

  /** The trial's tables and the receipt of a commit onto the head. */
  lemma CommitFacts(server: Server, store: Store, action: Action, commit: Commit, writeSnapshot: bool, now: int,
                    row: Row, projection: Projection)
    requires TrialsInv(server, store)
    requires CommitAction(server.rules, HeadOf(store, action.envelope.trialId), action) == Ok(commit)
    requires action.envelope.trialId !in store.projections ==> writeSnapshot
    requires commit.event.sequence % SNAPSHOT_INTERVAL == 0 ==> writeSnapshot
    requires Encode(server.texts, commit.event, now) == Ok(row) && projection.state == commit.state
    requires projection.trialId == action.envelope.trialId && StateMatches(projection.state, projection)
    ensures var trialId, s := action.envelope.trialId, commit.state;
            && TrialInv(server, trialId, RowsOf(store, trialId) + [row], projection,
                        SnapshotsOf(store, trialId)
                        + if writeSnapshot then [Snapshot(s.version, s.lastSequence, s)] else [])
            && row.actionId == action.envelope.actionId && row.trialId == trialId && ReadEvent(server, row).Ok?
            && ReceiptFor(server, action, commit) == ReceiptOf(server, row)
            && ReceiptFor(server, action, commit).sequence == |RowsOf(store, trialId)| + 1
  {
    var trialId := action.envelope.trialId;
    HeadHolds(server, store, trialId);
    CommittedRow(server, trialId, RowsOf(store, trialId), HeadOf(store, trialId), action, now);
    ReceiptOfCommit(server, HeadOf(store, trialId), action, commit, row);
    TrialOfCommit(server, store, action, commit, writeSnapshot, now, row, projection);
  }

  /** The receipt of a commit is the one its row stands for. */
  lemma ReceiptOfCommit(server: Server, state: Option<TrialState>, action: Action, commit: Commit, row: Row)
    requires CommitAction(server.rules, state, action) == Ok(commit) && ReadEvent(server, row) == Ok(commit.event)
    requires row.actionId == action.envelope.actionId && row.trialId == action.envelope.trialId
    requires commit.event.stateVersion == commit.state.version
    ensures ReceiptFor(server, action, commit) == ReceiptOf(server, row)
  {
    ReplayInvertsCommit(server.rules, state, action);
  }

  lemma TrialOfCommit(server: Server, store: Store, action: Action, commit: Commit, writeSnapshot: bool, now: int,
                      row: Row, projection: Projection)
    requires TrialsInv(server, store)
    requires CommitAction(server.rules, HeadOf(store, action.envelope.trialId), action) == Ok(commit)
    requires action.envelope.trialId !in store.projections ==> writeSnapshot
    requires commit.event.sequence % SNAPSHOT_INTERVAL == 0 ==> writeSnapshot
    requires Encode(server.texts, commit.event, now) == Ok(row) && projection.state == commit.state
    requires projection.trialId == action.envelope.trialId && StateMatches(projection.state, projection)
    ensures var trialId, s := action.envelope.trialId, commit.state;
            TrialInv(server, trialId, RowsOf(store, trialId) + [row], projection,
                     SnapshotsOf(store, trialId)
                     + if writeSnapshot then [Snapshot(s.version, s.lastSequence, s)] else [])
  {
    var trialId := action.envelope.trialId;
    var rows, snapshots, state := RowsOf(store, trialId), SnapshotsOf(store, trialId), HeadOf(store, trialId);
    HeadHolds(server, store, trialId);
    SnapshotsHold(server, store, trialId);
    CommitNumbers(server.rules, state, action);
    TrialAfterCommit(server, trialId, rows, state, snapshots, action, now, projection, writeSnapshot);
  }

  lemma SnapshotsHold(server: Server, store: Store, trialId: string)
    requires TrialsInv(server, store)
    ensures Readable(server, RowsOf(store, trialId))
    ensures SnapshotsFold(server, trialId, RowsOf(store, trialId), SnapshotsOf(store, trialId))
    ensures if trialId in store.projections
            then RowsOf(store, trialId) != [] && SnapshotIsRecent(SnapshotsOf(store, trialId), |RowsOf(store, trialId)|)
            else RowsOf(store, trialId) == [] && SnapshotsOf(store, trialId) == []
  {
    if trialId in store.projections {
      assert TrialHolds(server, store, trialId);
    }
  }

  /** The whole store after a commit of one trial. */
  lemma StoreAfterCommit(server: Server, store: Store, trialId: string, row: Row, projection: Projection,
                         snapshot: Option<Snapshot>, receipt: Receipt)
    requires StoreInv(server, store) && row.actionId !in store.receipts
    requires TrialInv(server, trialId, RowsOf(store, trialId) + [row], projection,
                      SnapshotsOf(store, trialId) + if snapshot.Some? then [snapshot.value] else [])
    requires ReadEvent(server, row).Ok? && row.trialId == trialId && receipt == ReceiptOf(server, row)
    requires receipt.sequence == |RowsOf(store, trialId)| + 1
    ensures StoreInv(server, Written(store, trialId, row, projection, snapshot, receipt))
  {
    WrittenTrial(server, store, trialId, row, projection, snapshot, receipt);
    WrittenTrials(server, store, trialId, row, projection, snapshot, receipt);
    WrittenReceipts(server, store, trialId, row, projection, snapshot, receipt);
  }
}
