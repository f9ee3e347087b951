/** The event-sourced trial store (convex/trialEvents.ts:2307-2840): append-only event rows, one projection per
    trial, snapshots, and action receipts.

    Rows and snapshots of a trial are kept in insertion order; TrialSafety shows that this is the order of
    their indexes. Stored state texts are represented by the states they parse to. */
module TrialStore {
  import opened Outcomes
  import opened Sequences
  import opened TrialEngine
  import opened TrialCodec

  const MAX_REPLAY_EVENTS: nat := 5000
  const SNAPSHOT_INTERVAL: nat := 25

  datatype Receipt = Receipt(
    actionId: string, trialId: string, expectedStateVersion: int, committedStateVersion: int, sequence: int,
    eventIds: seq<string>, requestHash: string)

  datatype Projection = Projection(
    ownerId: string, graphId: string, trialId: string, caseRef: CaseRef, stateVersion: int, lastSequence: int,
    state: TrialState)

  datatype Snapshot = Snapshot(stateVersion: int, lastSequence: int, state: TrialState)

  datatype Store = Store(
    streams: map<string, seq<Row>>, projections: map<string, Projection>, snapshots: map<string, seq<Snapshot>>,
    receipts: map<string, Receipt>)

  const EMPTY := Store(map[], map[], map[], map[])

  /** The engine, the text functions, the request hash and the length of a state's JSON. */
  datatype Server = Server(rules: Rules, texts: Texts, hash: Action -> string, stateLength: TrialState -> nat)

  /** The published case graph a request can read. */
  datatype GraphRef = GraphRef(caseId: string, version: int)

  datatype StoreError =
    | TrialNotFound
    | GraphNotFound
    | CaseGraphMismatch
    | ProjectionMetadataMismatch
    | PlayerActionNotPermitted
    | ActionIdConflict
    | TrialAlreadyExists
    | StaleStateVersion
    | ReplayLimitExceeded
    | SnapshotMetadataMismatch
    | EventSequenceGap
    | ProjectionMismatch
    | StateTooLarge
    | DuplicateEventId
    | DuplicateSnapshotVersion
    | EngineFailed(engineError: EngineError)
    | CodecFailed(codecError: CodecError)

  datatype Reply = Reply(receipt: Receipt, replayed: bool)

  function RowsOf(store: Store, trialId: string): seq<Row> {
    if trialId in store.streams then store.streams[trialId] else []
  }

  function SnapshotsOf(store: Store, trialId: string): seq<Snapshot> {
    if trialId in store.snapshots then store.snapshots[trialId] else []
  }

  // ---------------------------------------------------------------- reading and replaying rows

  /** `storedEventToV3` with its schema check. */
  function ReadEvent(server: Server, row: Row): Result<Event, StoreError> {
    var event := Decode(server.texts, row);
    if event.Err? then Err(CodecFailed(event.error))
    else if !server.rules.eventFits(event.value) || !MetadataFits(event.value.envelope.metadata) then
      Err(EngineFailed(Refused))
    else Ok(event.value)
  }

  function ReadEvents(server: Server, rows: seq<Row>): Result<seq<Event>, StoreError> {
    if rows == [] then Ok([])
    else
      var earlier :- ReadEvents(server, rows[..|rows| - 1]);
      var last :- ReadEvent(server, rows[|rows| - 1]);
      Ok(earlier + [last])
  }

  function ReplayRow(server: Server, state: TrialState, row: Row, expected: int): Result<TrialState, StoreError> {
    if row.sequence != expected then Err(EventSequenceGap)
    else
      var event :- ReadEvent(server, row);
      var after := ReplayOne(server.rules, Some(state), event);
      if after.Err? then Err(EngineFailed(after.error)) else Ok(after.value)
  }

  /** The replay loop over the rows after a snapshot. */
  function ReplayRows(server: Server, state: TrialState, rows: seq<Row>, expected: int)
    : Result<TrialState, StoreError>
  {
    if rows == [] then Ok(state)
    else
      var before :- ReplayRows(server, state, rows[..|rows| - 1], expected);
      ReplayRow(server, before, rows[|rows| - 1], expected + |rows| - 1)
  }

  /** Rows with a sequence beyond `after`, in index order. */
  function RowsAfter(rows: seq<Row>, after: int): seq<Row> {
    if rows == [] then []
    else
      var earlier, last := RowsAfter(rows[..|rows| - 1], after), rows[|rows| - 1];
      if last.sequence > after then earlier + [last] else earlier
  }

  /** The newest snapshot not beyond the head: the first in descending order. */
  function FindSnapshot(snapshots: seq<Snapshot>, lastSequence: int): Option<Snapshot> {
    if snapshots == [] then None
    else
      var newest := snapshots[|snapshots| - 1];
      if newest.lastSequence <= lastSequence then Some(newest)
      else FindSnapshot(snapshots[..|snapshots| - 1], lastSequence)
  }

  predicate StateMatches(state: TrialState, projection: Projection) {
    && state.trialId == projection.trialId && state.version == projection.stateVersion
    && state.lastSequence == projection.lastSequence
    && state.caseRef.caseId == projection.caseRef.caseId && state.caseRef.caseVersion == projection.caseRef.caseVersion
  }

  /** The replayed head, from a snapshot or from event one. */
  function ReplayedHead(server: Server, rows: seq<Row>, snapshot: Option<Snapshot>, projection: Projection)
    : Result<TrialState, StoreError>
  {
    if snapshot.Some? then
      var s := snapshot.value;
      if s.state.trialId != projection.trialId || s.state.version != s.stateVersion
         || s.state.lastSequence != s.lastSequence
      then Err(SnapshotMetadataMismatch)
      else
        var suffix := Take(RowsAfter(rows, s.lastSequence), MAX_REPLAY_EVENTS + 1);
        if |suffix| > MAX_REPLAY_EVENTS then Err(ReplayLimitExceeded)
        else ReplayRows(server, s.state, suffix, s.lastSequence + 1)
    else
      var first := Take(rows, MAX_REPLAY_EVENTS + 1);
      if |first| == 0 || |first| > MAX_REPLAY_EVENTS then Err(ReplayLimitExceeded)
      else
        var events :- ReadEvents(server, first);
        var reduced := Reduce(server.rules, events);
        if reduced.Err? then Err(EngineFailed(reduced.error)) else Ok(reduced.value)
  }

  /** `loadActiveHead`. */
  function LoadActiveHead(server: Server, store: Store, projection: Projection): Result<TrialState, StoreError> {
    if !StateMatches(projection.state, projection) then Err(ProjectionMetadataMismatch)
    else
      var snapshot := FindSnapshot(SnapshotsOf(store, projection.trialId), projection.lastSequence);
      var replayed :- ReplayedHead(server, RowsOf(store, projection.trialId), snapshot, projection);
      if replayed.lastSequence != projection.lastSequence || replayed.version != projection.stateVersion
         || replayed != projection.state
      then Err(ProjectionMismatch)
      else Ok(projection.state)
  }

  // ---------------------------------------------------------------- committing

  predicate HasEventId(streams: map<string, seq<Row>>, eventId: string) {
    exists t :: t in streams && StreamHasEventId(streams[t], eventId)
  }

  predicate StreamHasEventId(rows: seq<Row>, eventId: string) {
    exists i :: 0 <= i < |rows| && rows[i].eventId == eventId
  }

  predicate HasSnapshotVersion(snapshots: seq<Snapshot>, version: int) {
    exists i :: 0 <= i < |snapshots| && snapshots[i].stateVersion == version
  }

  function ReceiptFor(server: Server, action: Action, commit: Commit): Receipt {
    Receipt(action.envelope.actionId, action.envelope.trialId, action.expectedStateVersion, commit.state.version,
            commit.event.sequence, [commit.event.eventId], server.hash(action))
  }

  function ProjectionFor(ownerId: string, graphId: string, state: TrialState): Projection {
    Projection(ownerId, graphId, state.trialId, state.caseRef, state.version, state.lastSequence, state)
  }

  /** The tables after a commit. */
  function Written(store: Store, trialId: string, row: Row, projection: Projection, snapshot: Option<Snapshot>,
                   receipt: Receipt): Store
  {
    Store(
      store.streams[trialId := RowsOf(store, trialId) + [row]],
      store.projections[trialId := projection],
      store.snapshots[trialId := SnapshotsOf(store, trialId) + if snapshot.Some? then [snapshot.value] else []],
      store.receipts[receipt.actionId := receipt])
  }

  /** `persistCommit`. */
  function PersistCommit(server: Server, store: Store, ownerId: string, graphId: string, action: Action, commit: Commit,
                         writeSnapshot: bool, now: int): Result<(Store, Reply), StoreError>
  {
    var trialId, state := action.envelope.trialId, commit.state;
    if server.stateLength(state) > MAX_JSON_CHARACTERS then Err(StateTooLarge)
    else if HasEventId(store.streams, commit.event.eventId) then Err(DuplicateEventId)
    else
      var row := Encode(server.texts, commit.event, now);
      if row.Err? then Err(CodecFailed(row.error))
      else if writeSnapshot && HasSnapshotVersion(SnapshotsOf(store, trialId), state.version) then
        Err(DuplicateSnapshotVersion)
      else
        var projection := if trialId in store.projections
                          then store.projections[trialId].(stateVersion := state.version,
                                                           lastSequence := state.lastSequence, state := state)
                          else ProjectionFor(ownerId, graphId, state);
        var snapshot := if writeSnapshot then Some(Snapshot(state.version, state.lastSequence, state)) else None;
        var receipt := ReceiptFor(server, action, commit);
        Ok((Written(store, trialId, row.value, projection, snapshot, receipt), Reply(receipt, false)))
  }

  /** `replayExistingReceipt`. */
  function ReplayReceipt(server: Server, receipt: Receipt, action: Action): Result<Reply, StoreError> {
    if receipt.trialId != action.envelope.trialId || receipt.expectedStateVersion != action.expectedStateVersion
       || receipt.requestHash != server.hash(action)
    then Err(ActionIdConflict)
    else Ok(Reply(receipt, true))
  }

  /** `createTrialForOwner`, given the START_TRIAL action built from the graph. */
  function CreateTrial(server: Server, store: Store, ownerId: string, graphId: string, graph: Option<GraphRef>,
                       action: Action, now: int): Result<(Store, Reply), StoreError>
  {
    var id, trialId := action.envelope.actionId, action.envelope.trialId;
    if graph.None? then Err(GraphNotFound)
    else if trialId in store.projections then
      if store.projections[trialId].ownerId != ownerId then Err(TrialNotFound)
      else if id in store.receipts then
        var reply :- ReplayReceipt(server, store.receipts[id], action);
        Ok((store, reply))
      else Err(TrialAlreadyExists)
    else if id in store.receipts then Err(ActionIdConflict)
    else
      var committed := CommitAction(server.rules, None, action);
      if committed.Err? then Err(EngineFailed(committed.error))
      else PersistCommit(server, store, ownerId, graphId, action, committed.value, true, now)
  }

  /** An append: an owner to check unless the service is trusted, and whether only the player's own actions pass. */
  datatype AppendRequest = AppendRequest(action: Action, ownerId: Option<string>, writeSnapshot: bool, playerOnly: bool)

  /** `assertPlayerControlledAction`. */
  predicate PlayerControlled(state: TrialState, action: Action) {
    var role := if state.caseRef.userSide == "user" then "user_counsel" else "opposing_counsel";
    && (action.envelope.source == "user" || action.envelope.source == "speech")
    && action.envelope.actor.role == role && action.envelope.actor.side == state.caseRef.userSide
  }

  /** What an append checks before it looks for a receipt. */
  function Admitted(store: Store, request: AppendRequest, graph: Option<GraphRef>): Result<Projection, StoreError> {
    var trialId := request.action.envelope.trialId;
    if trialId !in store.projections then Err(TrialNotFound)
    else
      var projection := store.projections[trialId];
      if request.ownerId.Some? && projection.ownerId != request.ownerId.value then Err(TrialNotFound)
      else if graph.None? then Err(GraphNotFound)
      else if graph.value.caseId != projection.caseRef.caseId
              || graph.value.version != projection.caseRef.caseVersion then
        Err(CaseGraphMismatch)
      else if !StateMatches(projection.state, projection) then Err(ProjectionMetadataMismatch)
      else if request.playerOnly && !PlayerControlled(projection.state,
                                                      request.action) then Err(PlayerActionNotPermitted)
      else Ok(projection)
  }

  predicate SnapshotDue(request: AppendRequest, event: Event) {
    request.writeSnapshot || event.sequence % SNAPSHOT_INTERVAL == 0
  }

  /** The rest of an append once the action is known to be new: reload the head, commit onto it, persist. */
  function CommitOnHead(server: Server, store: Store, projection: Projection, request: AppendRequest, now: int)
    : Result<(Store, Reply), StoreError>
  {
    var state :- LoadActiveHead(server, store, projection);
    var committed := CommitAction(server.rules, Some(state), request.action);
    if committed.Err? then Err(EngineFailed(committed.error))
    else
      PersistCommit(server, store, projection.ownerId, projection.graphId, request.action, committed.value,
                    SnapshotDue(request, committed.value.event), now)
  }

  /** `appendActiveAction`. */
  function AppendAction(server: Server, store: Store, request: AppendRequest, graph: Option<GraphRef>, now: int)
    : Result<(Store, Reply), StoreError>
  {
    var action := request.action;
    var projection :- Admitted(store, request, graph);
    if action.envelope.actionId in store.receipts then
      var reply :- ReplayReceipt(server, store.receipts[action.envelope.actionId], action);
      Ok((store, reply))
    else if action.expectedStateVersion != projection.stateVersion then Err(StaleStateVersion)
    else CommitOnHead(server, store, projection, request, now)
  }

  // ---------------------------------------------------------------- the mutations

  class TrialTables {
    const server: Server
    var streams: map<string, seq<Row>>
    var projections: map<string, Projection>
    var snapshots: map<string, seq<Snapshot>>
    var receipts: map<string, Receipt>

    function State(): Store
      reads this
    {
      Store(streams, projections, snapshots, receipts)
    }

    constructor (server: Server)
      ensures this.server == server && State() == EMPTY
    {
      this.server := server;
      streams, projections, snapshots, receipts := map[], map[], map[], map[];
    }

    method NewestSnapshot(trialId: string, lastSequence: int) returns (found: Option<Snapshot>)
      ensures found == FindSnapshot(SnapshotsOf(State(), trialId), lastSequence)
    {
      var all := if trialId in snapshots then snapshots[trialId] else [];
      var i := |all|;
      assert all[..i] == all;
      while i > 0
        invariant 0 <= i <= |all|
        invariant FindSnapshot(all, lastSequence) == FindSnapshot(all[..i], lastSequence)
      {
        i := i - 1;
        assert all[..i + 1][..i] == all[..i];
        if all[i].lastSequence <= lastSequence {
          return Some(all[i]);
        }
      }
      found := None;
    }

    /** The replay loop. */
    method ReplaySuffix(start: TrialState, suffix: seq<Row>, firstSequence: int)
      returns (result: Result<TrialState, StoreError>)
      ensures result == ReplayRows(server, start, suffix, firstSequence)
    {
      var replayed := start;
      var expectedSequence := firstSequence;
      for i := 0 to |suffix|
        invariant ReplayRows(server, start, suffix[..i], firstSequence) == Ok(replayed)
        invariant expectedSequence == firstSequence + i
      {
        assert suffix[..i + 1][..i] == suffix[..i];
        var step := ReplayRow(server, replayed, suffix[i], expectedSequence);
        if step.Err? {
          ReplayFails(server, start, suffix, firstSequence, i + 1);
          return step;
        }
        replayed := step.value;
        expectedSequence := expectedSequence + 1;
      }
      assert suffix[..|suffix|] == suffix;
      result := Ok(replayed);
    }

    method LoadHead(projection: Projection) returns (result: Result<TrialState, StoreError>)
      ensures result == LoadActiveHead(server, State(), projection)
    {
      if !StateMatches(projection.state, projection) {
        return Err(ProjectionMetadataMismatch);
      }
      var rows := RowsOf(State(), projection.trialId);
      var snapshot := NewestSnapshot(projection.trialId, projection.lastSequence);
      var replayed: TrialState;
      if snapshot.Some? {
        var s := snapshot.value;
        if s.state.trialId != projection.trialId || s.state.version != s.stateVersion
           || s.state.lastSequence != s.lastSequence
        {
          return Err(SnapshotMetadataMismatch);
        }
        var suffix := Take(RowsAfter(rows, s.lastSequence), MAX_REPLAY_EVENTS + 1);
        if |suffix| > MAX_REPLAY_EVENTS {
          return Err(ReplayLimitExceeded);
        }
        replayed :- ReplaySuffix(s.state, suffix, s.lastSequence + 1);
      } else {
        replayed :- ReplayedHead(server, rows, None, projection);
      }
      if replayed.lastSequence != projection.lastSequence || replayed.version != projection.stateVersion
         || replayed != projection.state
      {
        return Err(ProjectionMismatch);
      }
      result := Ok(projection.state);
    }

    method Persist(ownerId: string, graphId: string, action: Action, commit: Commit, writeSnapshot: bool, now: int)
      returns (reply: Result<Reply, StoreError>)
      modifies this
      ensures var step := PersistCommit(server, old(State()), ownerId, graphId, action, commit, writeSnapshot, now);
              if step.Err? then State() == old(State()) && reply == Err(step.error)
              else State() == step.value.0 && reply == Ok(step.value.1)
    {
      var trialId, state, event := action.envelope.trialId, commit.state, commit.event;
      if server.stateLength(state) > MAX_JSON_CHARACTERS {
        return Err(StateTooLarge);
      }
      if HasEventId(streams, event.eventId) {
        return Err(DuplicateEventId);
      }
      var row := Encode(server.texts, event, now);
      if row.Err? {
        return Err(CodecFailed(row.error));
      }
      var earlier := SnapshotsOf(State(), trialId);
      if writeSnapshot && HasSnapshotVersion(earlier, state.version) {
        return Err(DuplicateSnapshotVersion);
      }
      streams := streams[trialId := RowsOf(State(), trialId) + [row.value]];
      if trialId in projections {
        projections := projections[trialId := projections[trialId].(
          stateVersion := state.version, lastSequence := state.lastSequence, state := state)];
      } else {
        projections := projections[trialId := ProjectionFor(ownerId, graphId, state)];
      }
      snapshots := snapshots[trialId := earlier
                                        + if writeSnapshot then [Snapshot(state.version, state.lastSequence, state)]
                                          else []];
      var receipt := ReceiptFor(server, action, commit);
      receipts := receipts[receipt.actionId := receipt];
      reply := Ok(Reply(receipt, false));
    }

    method Create(ownerId: string, graphId: string, graph: Option<GraphRef>, action: Action, now: int)
      returns (reply: Result<Reply, StoreError>)
      modifies this
      ensures var step := CreateTrial(server, old(State()), ownerId, graphId, graph, action, now);
              if step.Err? then State() == old(State()) && reply == Err(step.error)
              else State() == step.value.0 && reply == Ok(step.value.1)
    {
      var id, trialId := action.envelope.actionId, action.envelope.trialId;
      if graph.None? {
        return Err(GraphNotFound);
      }
      if trialId in projections {
        if projections[trialId].ownerId != ownerId {
          return Err(TrialNotFound);
        }
        if id in receipts {
          reply := ReplayReceipt(server, receipts[id], action);
          return;
        }
        return Err(TrialAlreadyExists);
      }
      if id in receipts {
        return Err(ActionIdConflict);
      }
      var committed := CommitAction(server.rules, None, action);
      if committed.Err? {
        return Err(EngineFailed(committed.error));
      }
      reply := Persist(ownerId, graphId, action, committed.value, true, now);
    }

    method Append(request: AppendRequest, graph: Option<GraphRef>, now: int) returns (reply: Result<Reply, StoreError>)
      modifies this
      ensures var step := AppendAction(server, old(State()), request, graph, now);
              if step.Err? then State() == old(State()) && reply == Err(step.error)
              else State() == step.value.0 && reply == Ok(step.value.1)
    {
      var action := request.action;
      var projection :- Admitted(State(), request, graph);
      if action.envelope.actionId in receipts {
        reply := ReplayReceipt(server, receipts[action.envelope.actionId], action);
        return;
      }
      if action.expectedStateVersion != projection.stateVersion {
        return Err(StaleStateVersion);
      }
      var state :- LoadHead(projection);
      var committed := CommitAction(server.rules, Some(state), action);
      if committed.Err? {
        return Err(EngineFailed(committed.error));
      }
      reply := Persist(projection.ownerId, projection.graphId, action, committed.value,
                       SnapshotDue(request, committed.value.event), now);
    }
  }

  /** A row that fails fails the replay. */
  lemma {:induction false} ReplayFails(server: Server, state: TrialState, rows: seq<Row>, expected: int, n: nat)
    requires n <= |rows| && ReplayRows(server, state, rows[..n], expected).Err?
    ensures ReplayRows(server, state, rows, expected) == ReplayRows(server, state, rows[..n], expected)
    decreases |rows|
  {
    if n == |rows| {
      assert rows[..n] == rows;
    } else {
      var earlier := rows[..|rows| - 1];
      assert earlier[..n] == rows[..n];
      ReplayFails(server, state, earlier, expected, n);
    }
  }
}
