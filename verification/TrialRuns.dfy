/** Runs of the trial store: any interleaving of new, retried and conflicting creations and appends, for any
    engine, on any number of trials (convex/trialEvents.ts:2533-2547, 2665-2840, 3978-4089;
    convex/hearingRuntime.ts:4863-4876). */
module TrialRuns {
  import opened Outcomes
  import opened TrialEngine
  import opened TrialCodec
  import opened TrialStore
  import opened TrialSafety

  // ---------------------------------------------------------------- no spurious failures

  /** An action that has no receipt has no event row either, in any trial. */
  lemma NoReceiptNoEvent(server: Server, store: Store, actionId: string)
    requires StoreInv(server, store) && actionId !in store.receipts
    ensures !HasEventId(store.streams, EventIdFor(actionId))
  {
    forall t, i | t in store.streams && 0 <= i < |store.streams[t]|
      ensures store.streams[t][i].eventId != EventIdFor(actionId)
    {
      RowFacts(server, store, t, i);
      RowOfOtherAction(server, store.receipts, t, store.streams[t][i], i, actionId);
    }
  }

  lemma RowOfOtherAction(server: Server, receipts: map<string, Receipt>, t: string, row: Row, i: nat, actionId: string)
    requires RowInPlace(server, row, i) && RowHasReceipt(server, receipts, t, row) && actionId !in receipts
    ensures row.eventId != EventIdFor(actionId)
  {
    EventIdsAreInjective(row.actionId, actionId);
  }

  /** Any row of a store that keeps the invariant: its place, and its receipt. */
  lemma RowFacts(server: Server, store: Store, t: string, i: nat)
    requires StoreInv(server, store) && t in store.streams && i < |store.streams[t]|
    ensures RowInPlace(server, store.streams[t][i], i)
    ensures RowHasReceipt(server, store.receipts, t, store.streams[t][i])
  {
    assert StreamHasReceipts(server, store.receipts, t, store.streams[t]);
    StreamIsGapless(server, store, t);
  }

  lemma StreamIsGapless(server: Server, store: Store, t: string)
    requires TrialsInv(server, store) && t in store.streams
    ensures Gapless(server, store.streams[t])
  {
    assert TrialHolds(server, store, t);
  }

  lemma NoSnapshotAhead(server: Server, store: Store, trialId: string, version: int)
    requires TrialsInv(server, store) && version == |RowsOf(store, trialId)| + 1
    ensures !HasSnapshotVersion(SnapshotsOf(store, trialId), version)
  {
    if trialId in store.projections {
      assert TrialHolds(server, store, trialId);
      forall k | 0 <= k < |store.snapshots[trialId]| ensures store.snapshots[trialId][k].stateVersion != version {
        assert SnapshotFolds(server, trialId, store.streams[trialId], store.snapshots[trialId][k]);
      }
    }
  }

  /** The tables and reply of a commit when nothing but size and encoding can refuse it. */
  function PlainCommit(server: Server, store: Store, ownerId: string, graphId: string, action: Action, commit: Commit,
                       writeSnapshot: bool, now: int): Result<(Store, Reply), StoreError>
  {
    var s, trialId := commit.state, action.envelope.trialId;
    var row := Encode(server.texts, commit.event, now);
    if server.stateLength(s) > MAX_JSON_CHARACTERS then Err(StateTooLarge)
    else if row.Err? then Err(CodecFailed(row.error))
    else
      var projection := if trialId in store.projections
                        then store.projections[trialId].(stateVersion := s.version, lastSequence := s.lastSequence,
                                                         state := s)
                        else ProjectionFor(ownerId, graphId, s);
      Ok((Written(store, trialId, row.value, projection,
                  if writeSnapshot then Some(Snapshot(s.version, s.lastSequence, s)) else None,
                  ReceiptFor(server, action, commit)),
          Reply(ReceiptFor(server, action, commit), false)))
  }

  lemma PersistIsPlain(server: Server, store: Store, ownerId: string, graphId: string, action: Action, commit: Commit,
                       writeSnapshot: bool, now: int)
    requires StoreInv(server, store) && action.envelope.actionId !in store.receipts
    requires CommitAction(server.rules, HeadOf(store, action.envelope.trialId), action) == Ok(commit)
    ensures PersistCommit(server, store, ownerId, graphId, action, commit, writeSnapshot, now)
            == PlainCommit(server, store, ownerId, graphId, action, commit, writeSnapshot, now)
  {
    var trialId := action.envelope.trialId;
    HeadHolds(server, store, trialId);
    CommitNumbers(server.rules, HeadOf(store, trialId), action);
    NoReceiptNoEvent(server, store, action.envelope.actionId);
    NoSnapshotAhead(server, store, trialId, commit.state.version);
  }

  /** A new action's append as its promise reads: no replay, no integrity check. */
  function PlainAppend(server: Server, store: Store, projection: Projection, request: AppendRequest, now: int)
    : Result<(Store, Reply), StoreError>
  {
    var committed := CommitAction(server.rules, Some(projection.state), request.action);
    if committed.Err? then Err(EngineFailed(committed.error))
    else
      PlainCommit(server, store, projection.ownerId, projection.graphId, request.action, committed.value,
                  SnapshotDue(request, committed.value.event), now)
  }

  lemma HeadLoads(server: Server, store: Store, trialId: string)
    requires TrialsInv(server, store) && trialId in store.projections
    ensures store.projections[trialId].trialId == trialId
    ensures LoadActiveHead(server, store, store.projections[trialId]) == Ok(store.projections[trialId].state)
  {
    assert TrialHolds(server, store, trialId);
    HeadIsTheFold(server, store, trialId);
  }

  /** In every reachable store the checks against replay never fire: an append that rebuilds the head from
      snapshot and suffix, and looks for duplicates, does what one that trusts the projection would do. */
  lemma AppendIsPlain(server: Server, store: Store, request: AppendRequest, now: int)
    requires StoreInv(server, store) && request.action.envelope.trialId in store.projections
    requires request.action.envelope.actionId !in store.receipts
    ensures var projection := store.projections[request.action.envelope.trialId];
            CommitOnHead(server, store, projection, request, now)
              == PlainAppend(server, store, projection, request, now)
  {
    var trialId := request.action.envelope.trialId;
    var projection := store.projections[trialId];
    HeadLoads(server, store, trialId);
    var committed := CommitAction(server.rules, Some(projection.state), request.action);
    if committed.Ok? {
      PersistIsPlain(server, store, projection.ownerId, projection.graphId, request.action, committed.value,
                     SnapshotDue(request, committed.value.event), now);
    }
  }

  // ---------------------------------------------------------------- steps and runs

  datatype Step =
    | Create(ownerId: string, graphId: string, graph: Option<GraphRef>, start: Action, now: int)
    | Append(request: AppendRequest, appendGraph: Option<GraphRef>, appendNow: int)

  function Outcome(server: Server, store: Store, step: Step): Result<(Store, Reply), StoreError> {
    match step
    case Create(ownerId, graphId, graph, start, now) => CreateTrial(server, store, ownerId, graphId, graph, start, now)
    case Append(request, graph, now) => AppendAction(server, store, request, graph, now)
  }

  function Next(server: Server, store: Store, step: Step): Store {
    var r := Outcome(server, store, step);
    if r.Err? then store else r.value.0
  }

  function Run(server: Server, store: Store, steps: seq<Step>): Store
    decreases |steps|
  {
    if steps == [] then store else Run(server, Next(server, store, steps[0]), steps[1..])
  }

  function StepAction(step: Step): Action {
    if step.Create? then step.start else step.request.action
  }

  /** A commit that a step made: onto its trial's head, with a snapshot when one is due. */
  predicate Committed(server: Server, store: Store, action: Action, commit: Commit, written: bool) {
    && action.envelope.actionId !in store.receipts
    && CommitAction(server.rules, HeadOf(store, action.envelope.trialId), action) == Ok(commit)
    && (action.envelope.trialId !in store.projections ==> written)
    && (commit.event.sequence % SNAPSHOT_INTERVAL == 0 ==> written)
  }

  lemma CreateCommits(server: Server, store: Store, step: Step) returns (commit: Commit)
    requires step.Create? && Outcome(server, store, step).Ok? && !Outcome(server, store, step).value.1.replayed
    ensures Committed(server, store, step.start, commit, true)
    ensures Outcome(server, store, step)
            == PersistCommit(server, store, step.ownerId, step.graphId, step.start, commit, true, step.now)
  {
    commit := CommitAction(server.rules, None, step.start).value;
  }

  lemma NewAppendReachesHead(server: Server, store: Store, request: AppendRequest, graph: Option<GraphRef>, now: int)
    requires AppendAction(server, store, request, graph, now).Ok?
    requires !AppendAction(server, store, request, graph, now).value.1.replayed
    ensures request.action.envelope.trialId in store.projections && request.action.envelope.actionId !in store.receipts
    ensures AppendAction(server, store, request, graph, now)
            == CommitOnHead(server, store, store.projections[request.action.envelope.trialId], request, now)
  {
  }

  lemma HeadCommits(server: Server, store: Store, request: AppendRequest, now: int) returns (commit: Commit)
    requires TrialsInv(server, store) && request.action.envelope.trialId in store.projections
    requires request.action.envelope.actionId !in store.receipts
    requires CommitOnHead(server, store, store.projections[request.action.envelope.trialId], request, now).Ok?
    ensures Committed(server, store, request.action, commit, SnapshotDue(request, commit.event))
    ensures var projection := store.projections[request.action.envelope.trialId];
            CommitOnHead(server, store, projection, request, now)
            == PersistCommit(server, store, projection.ownerId, projection.graphId, request.action, commit,
                             SnapshotDue(request, commit.event), now)
  {
    var projection := store.projections[request.action.envelope.trialId];
    HeadLoads(server, store, request.action.envelope.trialId);
    commit := CommitAction(server.rules, Some(projection.state), request.action).value;
  }

  /** What a step that changes the store did. */
  lemma ChangedMeansCommitted(server: Server, store: Store, step: Step)
    returns (commit: Commit, ownerId: string, graphId: string, written: bool, at: int)
    requires StoreInv(server, store) && Outcome(server, store, step).Ok?
    requires !Outcome(server, store, step).value.1.replayed
    ensures Committed(server, store, StepAction(step), commit, written)
    ensures Outcome(server, store, step)
            == PersistCommit(server, store, ownerId, graphId, StepAction(step), commit, written, at)
  {
    if step.Create? {
      commit := CreateCommits(server, store, step);
      ownerId, graphId, written, at := step.ownerId, step.graphId, true, step.now;
    } else {
      NewAppendReachesHead(server, store, step.request, step.appendGraph, step.appendNow);
      var projection := store.projections[step.request.action.envelope.trialId];
      commit := HeadCommits(server, store, step.request, step.appendNow);
      ownerId, graphId, at := projection.ownerId, projection.graphId, step.appendNow;
      written := SnapshotDue(step.request, commit.event);
    }
  }

  lemma ReplayedChangesNothing(server: Server, store: Store, step: Step)
    requires Outcome(server, store, step).Ok? && Outcome(server, store, step).value.1.replayed
    ensures Outcome(server, store, step).value.0 == store
    ensures var action := StepAction(step);
            && action.envelope.actionId in store.receipts
            && Outcome(server, store, step).value.1 == Reply(store.receipts[action.envelope.actionId], true)
  {
    match step
    case Create(ownerId, graphId, graph, start, now) =>
      ReplayedCreate(server, store, ownerId, graphId, graph, start, now);
    case Append(request, graph, now) => ReplayedAppend(server, store, request, graph, now);
  }

  lemma ReplayedCreate(server: Server, store: Store, ownerId: string, graphId: string, graph: Option<GraphRef>,
                       action: Action, now: int)
    requires var r := CreateTrial(server, store, ownerId, graphId, graph, action, now); r.Ok? && r.value.1.replayed
    ensures action.envelope.actionId in store.receipts
    ensures CreateTrial(server, store, ownerId, graphId, graph, action, now)
            == Ok((store, Reply(store.receipts[action.envelope.actionId], true)))
  {
  }

  lemma ReplayedAppend(server: Server, store: Store, request: AppendRequest, graph: Option<GraphRef>, now: int)
    requires var r := AppendAction(server, store, request, graph, now); r.Ok? && r.value.1.replayed
    ensures request.action.envelope.actionId in store.receipts
    ensures AppendAction(server, store, request, graph, now)
            == Ok((store, Reply(store.receipts[request.action.envelope.actionId], true)))
  {
  }

  lemma StepKeepsStore(server: Server, store: Store, step: Step)
    requires StoreInv(server, store)
    ensures StoreInv(server, Next(server, store, step))
  {
    var r := Outcome(server, store, step);
    if r.Ok? {
      if r.value.1.replayed {
        ReplayedChangesNothing(server, store, step);
      } else {
        ChangeKeepsStore(server, store, step);
      }
    }
  }

  lemma ChangeKeepsStore(server: Server, store: Store, step: Step)
    requires StoreInv(server, store) && Outcome(server, store, step).Ok?
             && !Outcome(server, store, step).value.1.replayed
    ensures StoreInv(server, Outcome(server, store, step).value.0)
  {
    var commit, ownerId, graphId, written, at := ChangedMeansCommitted(server, store, step);
    CommitKeepsStore(server, store, ownerId, graphId, StepAction(step), commit, written, at);
  }

  lemma {:induction false} RunKeepsStore(server: Server, store: Store, steps: seq<Step>)
    requires StoreInv(server, store)
    ensures StoreInv(server, Run(server, store, steps))
    decreases |steps|
  {
    if steps != [] {
      StepKeepsStore(server, store, steps[0]);
      RunKeepsStore(server, Next(server, store, steps[0]), steps[1..]);
    }
  }

  /** In every reachable store each projection is the fold of all events, each snapshot the fold of its prefix,
      events are gapless, and receipts and events correspond one to one. */
  lemma EveryRunKeepsStore(server: Server, steps: seq<Step>)
    ensures StoreInv(server, Run(server, EMPTY, steps))
  {
    RunKeepsStore(server, EMPTY, steps);
  }

  // ---------------------------------------------------------------- exactly once

  /** The row a receipt points at. */
  predicate PointsAtRow(store: Store, r: Receipt) {
    r.trialId in store.streams && 1 <= r.sequence <= |store.streams[r.trialId]|
  }

  /** The action is the one its id was committed with, as its event row records it. */
  predicate CommittedAs(server: Server, store: Store, action: Action) {
    && action.envelope.actionId in store.receipts
    && var r := store.receipts[action.envelope.actionId];
       && PointsAtRow(store, r)
       && var event := ReadEvent(server, store.streams[r.trialId][r.sequence - 1]);
          event.Ok? && ActionFrom(event.value) == action
  }

  /** No action id is committed twice, in one trial or in two. */
  lemma ActionsCommitOnce(server: Server, store: Store, t: string, i: nat, u: string, j: nat)
    requires StoreInv(server, store) && t in store.streams && u in store.streams
    requires i < |store.streams[t]| && j < |store.streams[u]|
    requires store.streams[t][i].actionId == store.streams[u][j].actionId
    ensures t == u && i == j
  {
    RowFacts(server, store, t, i);
    RowFacts(server, store, u, j);
  }

  /** What a row and its receipt say of each other. */
  lemma ReceiptOfRow(server: Server, receipts: map<string, Receipt>, t: string, row: Row, i: nat)
    requires RowInPlace(server, row, i) && RowHasReceipt(server, receipts, t, row)
    ensures var event, r := ReadEvent(server, row).value, receipts[row.actionId];
            && event.envelope.actionId == row.actionId && event.envelope.trialId == t == r.trialId
            && r.expectedStateVersion == event.stateVersion - 1 && r.requestHash == server.hash(ActionFrom(event))
            && r.sequence == i + 1 && r.actionId == row.actionId
  {
  }

  lemma ReceiptPoints(server: Server, store: Store, id: string)
    requires ReceiptsInv(server, store) && id in store.receipts
    ensures PointsAtRow(store, store.receipts[id])
    ensures store.streams[store.receipts[id].trialId][store.receipts[id].sequence - 1].actionId == id
  {
    assert ReceiptHasRow(store, id);
  }

  /** The event a receipt was issued for. */
  predicate Issued(server: Server, store: Store, id: string, event: Event) {
    && id in store.receipts
    && var r := store.receipts[id];
       && r.actionId == id && PointsAtRow(store, r)
       && ReadEvent(server, store.streams[r.trialId][r.sequence - 1]) == Ok(event)
       && event.envelope.actionId == id && event.envelope.trialId == r.trialId
       && r.expectedStateVersion == event.stateVersion - 1 && r.requestHash == server.hash(ActionFrom(event))
  }

  lemma IssuedForRow(server: Server, store: Store, id: string) returns (event: Event)
    requires id in store.receipts && PointsAtRow(store, store.receipts[id])
    requires var r := store.receipts[id]; var row := store.streams[r.trialId][r.sequence - 1];
             row.actionId == id && RowInPlace(server, row, r.sequence - 1)
             && RowHasReceipt(server, store.receipts, r.trialId, row)
    ensures Issued(server, store, id, event)
  {
    var r := store.receipts[id];
    ReceiptOfRow(server, store.receipts, r.trialId, store.streams[r.trialId][r.sequence - 1], r.sequence - 1);
    event := ReadEvent(server, store.streams[r.trialId][r.sequence - 1]).value;
  }

  lemma IssuedFor(server: Server, store: Store, id: string) returns (event: Event)
    requires StoreInv(server, store) && id in store.receipts
    ensures Issued(server, store, id, event)
  {
    ReceiptPoints(server, store, id);
    RowFacts(server, store, store.receipts[id].trialId, store.receipts[id].sequence - 1);
    event := IssuedForRow(server, store, id);
  }

  lemma IssuedMatches(server: Server, store: Store, action: Action, event: Event)
    requires HashInjective(server) && Issued(server, store, action.envelope.actionId, event)
    ensures ReplayReceipt(server, store.receipts[action.envelope.actionId], action).Ok?
            <==> CommittedAs(server, store, action)
  {
    SameHashSameAction(server, ActionFrom(event), action);
    ReplayMatches(server, store.receipts[action.envelope.actionId], event, action);
    CommittedAsEvent(server, store, action, event);
  }

  /** A receipt is found again by exactly the action it was issued for. */
  lemma ReceiptMatchesExactly(server: Server, store: Store, action: Action)
    requires StoreInv(server, store) && action.envelope.actionId in store.receipts
    requires HashInjective(server)
    ensures ReplayReceipt(server, store.receipts[action.envelope.actionId], action).Ok?
            <==> CommittedAs(server, store, action)
  {
    var event := IssuedFor(server, store, action.envelope.actionId);
    IssuedMatches(server, store, action, event);
  }

  lemma SameHashSameAction(server: Server, a: Action, b: Action)
    requires HashInjective(server)
    ensures server.hash(a) == server.hash(b) <==> a == b
  {
  }

  lemma CommittedAsEvent(server: Server, store: Store, action: Action, event: Event)
    requires action.envelope.actionId in store.receipts && PointsAtRow(store, store.receipts[action.envelope.actionId])
    requires var r := store.receipts[action.envelope.actionId];
             ReadEvent(server, store.streams[r.trialId][r.sequence - 1]) == Ok(event)
    ensures CommittedAs(server, store, action) <==> ActionFrom(event) == action
  {
  }

  lemma ReplayMatches(server: Server, r: Receipt, event: Event, action: Action)
    requires r.trialId == event.envelope.trialId && r.expectedStateVersion == event.stateVersion - 1
    requires r.requestHash == server.hash(ActionFrom(event))
    requires server.hash(ActionFrom(event)) == server.hash(action) <==> ActionFrom(event) == action
    ensures ReplayReceipt(server, r, action).Ok? <==> ActionFrom(event) == action
  {
  }

  ghost predicate HashInjective(server: Server) {
    forall a, b :: server.hash(a) == server.hash(b) ==> a == b
  }

  lemma UsedIdNeedsReceipt(server: Server, store: Store, step: Step)
    requires StepAction(step).envelope.actionId in store.receipts
    requires ReplayReceipt(server, store.receipts[StepAction(step).envelope.actionId], StepAction(step)).Err?
    ensures Outcome(server, store, step).Err?
  {
  }

  /** A different action under a used id is refused by creation and append alike, and changes nothing. */
  lemma UsedIdIsRefused(server: Server, store: Store, step: Step)
    requires StoreInv(server, store) && HashInjective(server)
    requires StepAction(step).envelope.actionId in store.receipts && !CommittedAs(server, store, StepAction(step))
    ensures Outcome(server, store, step).Err? && Next(server, store, step) == store
  {
    ReceiptMatchesExactly(server, store, StepAction(step));
    UsedIdNeedsReceipt(server, store, step);
  }

  /** Who a trial belongs to and which case it plays never change. */
  predicate SameTrial(before: Projection, after: Projection) {
    && after.ownerId == before.ownerId && after.graphId == before.graphId && after.trialId == before.trialId
    && after.caseRef == before.caseRef && after.state.caseRef == before.state.caseRef
  }

  /** Nothing is forgotten: receipts stay as they were issued, rows stay where they are, trials keep identity. */
  ghost predicate Extends(before: Store, after: Store) {
    && (forall id :: id in before.receipts ==> id in after.receipts && after.receipts[id] == before.receipts[id])
    && (forall t :: t in before.streams ==> t in after.streams && before.streams[t] <= after.streams[t])
    && (forall t :: t in before.projections ==>
          t in after.projections && SameTrial(before.projections[t], after.projections[t]))
  }

  lemma WrittenExtends(store: Store, trialId: string, row: Row, projection: Projection, snapshot: Option<Snapshot>,
                       receipt: Receipt)
    requires receipt.actionId !in store.receipts && store.streams.Keys == store.projections.Keys
    requires trialId in store.projections ==> SameTrial(store.projections[trialId], projection)
    ensures Extends(store, Written(store, trialId, row, projection, snapshot, receipt))
  {
  }

  lemma ExtendsItself(store: Store)
    ensures Extends(store, store)
  {
  }

  lemma CaseRefStays(server: Server, store: Store, action: Action, commit: Commit)
    requires TrialsInv(server, store) && action.envelope.trialId in store.projections
    requires CommitAction(server.rules, HeadOf(store, action.envelope.trialId), action) == Ok(commit)
    ensures commit.state.caseRef == store.projections[action.envelope.trialId].state.caseRef
  {
    HeadHolds(server, store, action.envelope.trialId);
    CommitNumbers(server.rules, HeadOf(store, action.envelope.trialId), action);
  }

  lemma PersistExtends(server: Server, store: Store, ownerId: string, graphId: string, action: Action, commit: Commit,
                       written: bool, now: int)
    requires TrialsInv(server, store) && Committed(server, store, action, commit, written)
    requires PersistCommit(server, store, ownerId, graphId, action, commit, written, now).Ok?
    ensures Extends(store, PersistCommit(server, store, ownerId, graphId, action, commit, written, now).value.0)
  {
    var trialId, s := action.envelope.trialId, commit.state;
    var row, projection := PersistMeans(server, store, ownerId, graphId, action, commit, written, now);
    if trialId in store.projections {
      CaseRefStays(server, store, action, commit);
    }
    WrittenExtends(store, trialId, row, projection,
                   if written then Some(Snapshot(s.version, s.lastSequence, s)) else None,
                   ReceiptFor(server, action, commit));
  }

  lemma StepExtends(server: Server, store: Store, step: Step)
    requires StoreInv(server, store)
    ensures Extends(store, Next(server, store, step))
  {
    var r := Outcome(server, store, step);
    if r.Err? {
      ExtendsItself(store);
    } else if r.value.1.replayed {
      ReplayedChangesNothing(server, store, step);
      ExtendsItself(store);
    } else {
      var commit, ownerId, graphId, written, at := ChangedMeansCommitted(server, store, step);
      PersistExtends(server, store, ownerId, graphId, StepAction(step), commit, written, at);
    }
  }

  lemma ExtendsIsTransitive(a: Store, b: Store, c: Store)
    requires Extends(a, b) && Extends(b, c)
    ensures Extends(a, c)
  {
    forall t | t in a.streams ensures t in c.streams && a.streams[t] <= c.streams[t] {
      assert a.streams[t] <= b.streams[t] <= c.streams[t];
    }
  }

  lemma {:induction false} RunExtends(server: Server, store: Store, steps: seq<Step>)
    requires StoreInv(server, store)
    ensures StoreInv(server, Run(server, store, steps)) && Extends(store, Run(server, store, steps))
    decreases |steps|
  {
    if steps == [] {
      ExtendsItself(store);
    } else {
      var next := Next(server, store, steps[0]);
      StepKeepsStore(server, store, steps[0]);
      StepExtends(server, store, steps[0]);
      RunExtends(server, next, steps[1..]);
      ExtendsIsTransitive(store, next, Run(server, next, steps[1..]));
    }
  }

  // ---------------------------------------------------------------- retries

  /** The gate an append passes before its receipt is looked for does not close as the trial goes on: owner,
      case and the player's side stay. */
  lemma AdmissionLasts(server: Server, before: Store, after: Store, request: AppendRequest, graph: Option<GraphRef>)
    requires Admitted(before, request, graph).Ok? && Extends(before, after) && TrialsInv(server, after)
    ensures Admitted(after, request, graph).Ok?
  {
    var t := request.action.envelope.trialId;
    assert SameTrial(before.projections[t], after.projections[t]);
    ProjectionMatches(server, after, t);
    AdmittedAlike(before, after, request, graph);
  }

  lemma ProjectionMatches(server: Server, store: Store, t: string)
    requires TrialsInv(server, store) && t in store.projections
    ensures StateMatches(store.projections[t].state, store.projections[t])
  {
    assert TrialHolds(server, store, t);
  }

  lemma AdmittedAlike(before: Store, after: Store, request: AppendRequest, graph: Option<GraphRef>)
    requires Admitted(before, request, graph).Ok?
    requires var t := request.action.envelope.trialId;
             t in after.projections && SameTrial(before.projections[t], after.projections[t])
             && StateMatches(after.projections[t].state, after.projections[t])
    ensures Admitted(after, request, graph).Ok?
  {
  }

  /** A committed action's receipt matches the action, now and in every later store. */
  lemma CommittedReceiptMatches(server: Server, store: Store, step: Step)
    requires StoreInv(server, store) && Outcome(server, store, step).Ok?
    ensures var (after, reply) := Outcome(server, store, step).value; var id := StepAction(step).envelope.actionId;
            && id in after.receipts && after.receipts[id] == reply.receipt
            && ReplayReceipt(server, reply.receipt, StepAction(step)) == Ok(Reply(reply.receipt, true))
  {
    var action := StepAction(step);
    if Outcome(server, store, step).value.1.replayed {
      ReplayedMatches(server, store, step);
    } else {
      var commit, ownerId, graphId, written, at := ChangedMeansCommitted(server, store, step);
      var row, projection := PersistMeans(server, store, ownerId, graphId, action, commit, written, at);
    }
  }

  lemma ReplayedMatches(server: Server, store: Store, step: Step)
    requires Outcome(server, store, step).Ok? && Outcome(server, store, step).value.1.replayed
    ensures var (after, reply) := Outcome(server, store, step).value; var id := StepAction(step).envelope.actionId;
            && after == store && id in store.receipts && store.receipts[id] == reply.receipt
            && ReplayReceipt(server, reply.receipt, StepAction(step)) == Ok(Reply(reply.receipt, true))
  {
  }

  /** Retrying a successful append after any further steps returns the original receipt and changes nothing. */
  lemma RetryReturnsOriginal(server: Server, store: Store, request: AppendRequest, graph: Option<GraphRef>, now: int,
                             steps: seq<Step>, later: int)
    requires StoreInv(server, store) && AppendAction(server, store, request, graph, now).Ok?
    ensures var (after, reply) := AppendAction(server, store, request, graph, now).value;
            var end := Run(server, after, steps);
            AppendAction(server, end, request, graph, later) == Ok((end, Reply(reply.receipt, true)))
  {
    var step := Append(request, graph, now);
    var after := AppendAction(server, store, request, graph, now).value.0;
    var reply := AppendAction(server, store, request, graph, now).value.1;
    assert Outcome(server, store, step) == AppendAction(server, store, request, graph, now);
    assert Next(server, store, step) == after;
    StepKeepsStore(server, store, step);
    StepExtends(server, store, step);
    CommittedReceiptMatches(server, store, step);
    RunExtends(server, after, steps);
    var end := Run(server, after, steps);
    ExtendsIsTransitive(store, after, end);
    AppendWasAdmitted(server, store, request, graph, now);
    AdmissionLasts(server, store, end, request, graph);
    ReceiptAnswers(server, end, request, graph, later, reply.receipt);
  }

  lemma AppendWasAdmitted(server: Server, store: Store, request: AppendRequest, graph: Option<GraphRef>, now: int)
    requires AppendAction(server, store, request, graph, now).Ok?
    ensures Admitted(store, request, graph).Ok?
  {
  }

  /** An admitted append whose id has a matching receipt is answered by it. */
  lemma ReceiptAnswers(server: Server, store: Store, request: AppendRequest, graph: Option<GraphRef>, now: int,
                       receipt: Receipt)
    requires Admitted(store, request, graph).Ok?
    requires request.action.envelope.actionId in store.receipts
    requires store.receipts[request.action.envelope.actionId] == receipt
    requires ReplayReceipt(server, receipt, request.action) == Ok(Reply(receipt, true))
    ensures AppendAction(server, store, request, graph, now) == Ok((store, Reply(receipt, true)))
  {
  }

  /** The action rebuilt from any stored row is the one committed, so appending it again is recognised as a
      replay and is never an id conflict. */
  lemma RebuiltActionReplays(server: Server, store: Store, t: string, i: nat, request: AppendRequest,
                             graph: Option<GraphRef>, now: int)
    requires StoreInv(server, store) && t in store.streams && i < |store.streams[t]|
    requires RebuiltAction(server.texts, store.streams[t][i]) == Ok(request.action)
    requires Admitted(store, request, graph).Ok?
    ensures store.streams[t][i].actionId in store.receipts
    ensures AppendAction(server, store, request, graph, now)
            == Ok((store, Reply(store.receipts[store.streams[t][i].actionId], true)))
  {
    var row := store.streams[t][i];
    RowFacts(server, store, t, i);
    ReceiptOfRow(server, store.receipts, t, row, i);
    RebuiltIsCommitted(server, row, i, request.action);
    ReceiptAnswers(server, store, request, graph, now, store.receipts[row.actionId]);
  }

  /** Every stored row can be rebuilt, into its event's action. */
  lemma RebuiltIsCommitted(server: Server, row: Row, i: nat, action: Action)
    requires RowInPlace(server, row, i)
    ensures RebuiltAction(server.texts, row).Ok?
    ensures RebuiltAction(server.texts, row) == Ok(action) ==> action == ActionFrom(ReadEvent(server, row).value)
  {
  }

  lemma CreatedBelongsTo(server: Server, store: Store, step: Step)
    requires StoreInv(server, store) && step.Create? && Outcome(server, store, step).Ok?
    ensures step.graph.Some?
    ensures var after := Outcome(server, store, step).value.0; var t := step.start.envelope.trialId;
            t in after.projections && after.projections[t].ownerId == step.ownerId
  {
    var t := step.start.envelope.trialId;
    if t !in store.projections {
      NewTrialIsNotReplayed(server, store, step);
      var commit := CreateCommits(server, store, step);
      PersistedBelongsTo(server, store, step.ownerId, step.graphId, step.start, commit, step.now);
    } else {
      CreatedBefore(server, store, step.ownerId, step.graphId, step.graph, step.start, step.now);
    }
  }

  /** Creating a trial that exists only answers its owner, and changes nothing. */
  lemma CreatedBefore(server: Server, store: Store, ownerId: string, graphId: string, graph: Option<GraphRef>,
                      action: Action, now: int)
    requires CreateTrial(server, store, ownerId, graphId, graph, action, now).Ok?
             && action.envelope.trialId in store.projections
    ensures CreateTrial(server, store, ownerId, graphId, graph, action, now).value.0 == store
    ensures store.projections[action.envelope.trialId].ownerId == ownerId
  {
  }

  lemma NewTrialIsNotReplayed(server: Server, store: Store, step: Step)
    requires step.Create? && Outcome(server, store, step).Ok? && step.start.envelope.trialId !in store.projections
    ensures !Outcome(server, store, step).value.1.replayed
  {
  }

  lemma PersistedBelongsTo(server: Server, store: Store, ownerId: string, graphId: string, action: Action,
                           commit: Commit, now: int)
    requires PersistCommit(server, store, ownerId, graphId, action, commit, true, now).Ok?
    requires action.envelope.trialId !in store.projections
    ensures var after := PersistCommit(server, store, ownerId, graphId, action, commit, true, now).value.0;
            action.envelope.trialId in after.projections
              && after.projections[action.envelope.trialId].ownerId == ownerId
  {
    var row, projection := PersistMeans(server, store, ownerId, graphId, action, commit, true, now);
  }

  /** Retrying a successful creation after any further steps returns the original receipt and changes nothing. */
  lemma CreateRetryReturnsOriginal(server: Server, store: Store, step: Step, steps: seq<Step>, later: int)
    requires StoreInv(server, store) && step.Create? && Outcome(server, store, step).Ok?
    ensures var (after, reply) := Outcome(server, store, step).value;
            var end := Run(server, after, steps);
            Outcome(server, end, step.(now := later)) == Ok((end, Reply(reply.receipt, true)))
  {
    var after, reply := Outcome(server, store, step).value.0, Outcome(server, store, step).value.1;
    StepKeepsStore(server, store, step);
    CommittedReceiptMatches(server, store, step);
    CreatedBelongsTo(server, store, step);
    RunExtends(server, after, steps);
    CreateAnswered(server, after, Run(server, after, steps), step.(now := later), reply.receipt);
  }

  lemma CreateAnswered(server: Server, after: Store, end: Store, step: Step, receipt: Receipt)
    requires step.Create? && step.graph.Some? && Extends(after, end)
    requires var t := step.start.envelope.trialId;
             t in after.projections && after.projections[t].ownerId == step.ownerId
    requires var id := step.start.envelope.actionId; id in after.receipts && after.receipts[id] == receipt
    requires ReplayReceipt(server, receipt, step.start) == Ok(Reply(receipt, true))
    ensures Outcome(server, end, step) == Ok((end, Reply(receipt, true)))
  {
    assert SameTrial(after.projections[step.start.envelope.trialId], end.projections[step.start.envelope.trialId]);
  }
}
