/** A trial that the canonical replay can no longer read (convex/trialEvents.ts:5332-5389): pausing and resuming
    a trial has no limit, and its ids alone stay far below the size limit of a state.

    The courtroom rules are here the two that this takes (src/domain/trial-engine/validator.ts:1523-1555,
    permissions.ts:46-48, reducer.ts:978-990): the system or the judge may pause an active trial and
    resume a paused one. */
module TrialLimits {
  import opened Outcomes
  import opened TrialEngine
  import opened TrialCodec
  import opened TrialStore
  import opened TrialSafety
  import opened TrialRuns
  import opened TrialReload
  import ReviewIds

  // ---------------------------------------------------------------- the engine

  const NO_CITATIONS := Citations([], [], [], [], [])
  const CASE := CaseRef("case:1", 2, "user")

  /** The body of a state is its status. */
  function PausingRules(): Rules {
    Rules(
      (state: Option<TrialState>, action: Action) =>
        && (action.envelope.actor.role == "system" || action.envelope.actor.role == "judge")
        && (state.None? || (state.value.body == "active" && action.envelope.kind == "PAUSE_TRIAL")
            || (state.value.body == "paused" && action.envelope.kind == "RESUME_TRIAL")),
      (event: Event) => true,
      (action: Action) => NO_CITATIONS,
      (event: Event) => CASE,
      (state: Option<TrialState>, event: Event) => if event.envelope.kind == "PAUSE_TRIAL" then "paused" else "active")
  }

  /** Two quotes and a comma for every id. */
  function IdsLength(ids: seq<string>): nat {
    if ids == [] then 0 else IdsLength(ids[..|ids| - 1]) + |ids[|ids| - 1]| + 3
  }

  /** `rest` is the length of a state's JSON text besides its two lists of ids. */
  function PausingServer(rest: nat): Server {
    Server(PausingRules(), Texts((s: string) => Some(0), (t: int) => "", (s: string) => s == "", (s: string) => []),
           (action: Action) => action.envelope.actionId,
           (state: TrialState) => rest + IdsLength(state.eventIds) + IdsLength(state.committedActionIds))
  }

  // ---------------------------------------------------------------- the run

  const TRIAL := "trial:1"
  const OWNER := "owner:1"

  function ActionId(k: nat): string {
    "a:" + ReviewIds.Decimal(k)
  }

  function Kind(k: nat): string {
    if k == 0 then START_TRIAL else if k % 2 == 1 then "PAUSE_TRIAL" else "RESUME_TRIAL"
  }

  /** The start, a pause, a resumption, a pause, and so on. */
  function Toggle(k: nat): Action {
    Action(Envelope(TRIAL, ActionId(k), ActorRef("system", "system", "neutral", None), "system", "2024-01-01T00:00:00Z",
                    if k == 0 then None else Some(EventIdFor(ActionId(k - 1))), Some(TRIAL), None, None, None, Kind(k),
                    "{}"),
           k)
  }

  function StepAt(k: nat): Step {
    var graph := Some(GraphRef(CASE.caseId, CASE.caseVersion));
    if k == 0 then Create(OWNER, "graph:1", graph, Toggle(0), 0)
    else Append(AppendRequest(Toggle(k), None, false, false), graph, 0)
  }

  function Steps(n: nat): seq<Step> {
    if n == 0 then [] else Steps(n - 1) + [StepAt(n - 1)]
  }

  predicate StateAt(state: TrialState, n: nat) {
    && state.trialId == TRIAL && state.caseRef == CASE && state.version == state.lastSequence == n
    && |state.eventIds| == |state.committedActionIds| == n
    && (forall k :: 0 <= k < n ==>
          state.committedActionIds[k] == ActionId(k) && state.eventIds[k] == EventIdFor(ActionId(k)))
    && state.body == if n % 2 == 0 then "paused" else "active"
  }

  ghost predicate Reached(store: Store, n: nat) {
    && TRIAL in store.projections && StateAt(store.projections[TRIAL].state, n) && TRIAL in store.streams
    && |store.streams[TRIAL]| == n
    && store.projections[TRIAL].ownerId == OWNER && store.projections[TRIAL].caseRef == CASE
    && forall k: nat :: k >= n ==> ActionId(k) !in store.receipts
  }

  lemma ActionIdsDiffer(j: nat, k: nat)
    requires ActionId(j) == ActionId(k)
    ensures j == k
  {
    assert ActionId(j)[2..] == ReviewIds.Decimal(j) && ActionId(k)[2..] == ReviewIds.Decimal(k);
    ReviewIds.ValueOfDecimal(j);
    ReviewIds.ValueOfDecimal(k);
  }

  lemma ActionIdIsShort(k: nat)
    requires k <= 5000
    ensures |ActionId(k)| <= 6 && |EventIdFor(ActionId(k))| <= 12
  {
    ReviewIds.DecimalLength(k);
  }

  /** Neither the id of the next action nor its event's is in the state. */
  lemma ToggleIsNew(state: TrialState, n: nat)
    requires StateAt(state, n)
    ensures ActionId(n) !in state.committedActionIds && EventIdFor(ActionId(n)) !in state.eventIds
  {
    if ActionId(n) in state.committedActionIds {
      var k :| 0 <= k < n && state.committedActionIds[k] == ActionId(n);
      ActionIdsDiffer(k, n);
    }
    if EventIdFor(ActionId(n)) in state.eventIds {
      var k :| 0 <= k < n && state.eventIds[k] == EventIdFor(ActionId(n));
      EventIdsAreInjective(ActionId(k), ActionId(n));
      ActionIdsDiffer(k, n);
    }
  }

  /** The next action commits onto the state. */
  lemma ToggleCommits(state: TrialState, n: nat)
    requires n >= 1 && StateAt(state, n)
    ensures CommitAction(PausingRules(), Some(state), Toggle(n)).Ok?
    ensures var c := CommitAction(PausingRules(), Some(state), Toggle(n)).value;
            && StateAt(c.state, n + 1) && c.event.envelope == Toggle(n).envelope && c.event.citations == NO_CITATIONS
  {
    ToggleIsNew(state, n);
  }

  lemma {:induction false} IdsAreShort(ids: seq<string>, most: nat)
    requires forall k :: 0 <= k < |ids| ==> |ids[k]| <= most
    ensures IdsLength(ids) <= |ids| * (most + 3)
  {
    if ids != [] {
      IdsAreShort(ids[..|ids| - 1], most);
    }
  }

  lemma IdListsAreShort(state: TrialState, n: nat)
    requires n <= 5001 && StateAt(state, n)
    ensures IdsLength(state.eventIds) <= n * 15 && IdsLength(state.committedActionIds) <= n * 9
  {
    forall k | 0 <= k < n ensures |state.committedActionIds[k]| <= 6 && |state.eventIds[k]| <= 12 {
      ActionIdIsShort(k);
    }
    IdsAreShort(state.eventIds, 12);
    IdsAreShort(state.committedActionIds, 6);
  }

  lemma StateIsSmall(rest: nat, state: TrialState, n: nat)
    requires rest <= 600000 && n <= 5001 && StateAt(state, n)
    ensures PausingServer(rest).stateLength(state) <= MAX_JSON_CHARACTERS
  {
    IdListsAreShort(state, n);
  }

  lemma EventEncodes(rest: nat, event: Event)
    requires event.envelope.payload == "{}" && event.citations == NO_CITATIONS
    ensures Encode(PausingServer(rest).texts, event, 0).Ok?
  {
  }

  lemma StartReaches(rest: nat)
    requires rest <= 600000
    ensures Reached(Next(PausingServer(rest), EMPTY, StepAt(0)), 1)
  {
    var server := PausingServer(rest);
    var commit := CommitAction(server.rules, None, Toggle(0));
    assert commit.Ok? && StateAt(commit.value.state, 1);
    StateIsSmall(rest, commit.value.state, 1);
    EventEncodes(rest, commit.value.event);
    forall k: nat | k >= 1 ensures ActionId(k) != ActionId(0) {
      if ActionId(k) == ActionId(0) {
        ActionIdsDiffer(k, 0);
      }
    }
  }

  /** The server commits the n-th action onto such a state, within its limits. */
  ghost predicate Commits(server: Server, state: TrialState, n: nat) {
    var commit := CommitAction(server.rules, Some(state), Toggle(n));
    && commit.Ok? && StateAt(commit.value.state, n + 1)
    && server.stateLength(commit.value.state) <= MAX_JSON_CHARACTERS && Encode(server.texts, commit.value.event, 0).Ok?
  }

  lemma PausingCommits(rest: nat, state: TrialState, n: nat)
    requires rest <= 600000 && 1 <= n <= 5000 && StateAt(state, n)
    ensures Commits(PausingServer(rest), state, n)
  {
    ToggleCommits(state, n);
    var commit := CommitAction(PausingRules(), Some(state), Toggle(n)).value;
    StateIsSmall(rest, commit.state, n + 1);
    EventEncodes(rest, commit.event);
  }

  /** A plain append that the server commits, by what it writes. */
  lemma PlainAppendWrites(server: Server, store: Store, projection: Projection, request: AppendRequest, n: nat)
    requires TRIAL in store.projections && store.projections[TRIAL] == projection && TRIAL in store.streams
    requires request.action == Toggle(n) && Commits(server, projection.state, n)
    ensures var r := PlainAppend(server, store, projection, request, 0);
            && r.Ok? && Advances(store, r.value.0, n)
  {
  }

  ghost predicate Advances(store: Store, next: Store, n: nat)
    requires TRIAL in store.projections && TRIAL in store.streams
  {
    && TRIAL in next.streams && |next.streams[TRIAL]| == |store.streams[TRIAL]| + 1
    && TRIAL in next.projections && StateAt(next.projections[TRIAL].state, n + 1)
    && next.projections[TRIAL].ownerId == store.projections[TRIAL].ownerId
    && next.projections[TRIAL].caseRef == store.projections[TRIAL].caseRef
    && next.receipts.Keys == store.receipts.Keys + {ActionId(n)}
  }

  lemma AdvanceReaches(store: Store, next: Store, n: nat)
    requires Reached(store, n) && Advances(store, next, n)
    ensures Reached(next, n + 1)
  {
    forall k: nat | k >= n + 1 ensures ActionId(k) !in next.receipts {
      if ActionId(k) == ActionId(n) {
        ActionIdsDiffer(k, n);
      }
    }
  }

  lemma ToggleAdmitted(server: Server, store: Store, n: nat)
    requires n >= 1 && StoreInv(server, store) && Reached(store, n)
    ensures Admitted(store, StepAt(n).request, StepAt(n).appendGraph) == Ok(store.projections[TRIAL])
    ensures store.projections[TRIAL].stateVersion == n
  {
    assert TrialHolds(server, store, TRIAL);
  }

  /** An admitted new action goes to the head. */
  lemma NewActionGoesToHead(server: Server, store: Store, request: AppendRequest, graph: Option<GraphRef>,
                            projection: Projection)
    requires Admitted(store, request, graph) == Ok(projection) && request.action.envelope.actionId !in store.receipts
    requires request.action.expectedStateVersion == projection.stateVersion
    ensures AppendAction(server, store, request, graph, 0) == CommitOnHead(server, store, projection, request, 0)
  {
  }

  lemma AppendAdvances(server: Server, store: Store, request: AppendRequest, graph: Option<GraphRef>, n: nat)
    returns (next: Store)
    requires StoreInv(server, store) && TRIAL in store.projections && TRIAL in store.streams
    requires Admitted(store, request, graph) == Ok(store.projections[TRIAL])
    requires request.action == Toggle(n) && ActionId(n) !in store.receipts && store.projections[TRIAL].stateVersion == n
    requires Commits(server, store.projections[TRIAL].state, n)
    ensures AppendAction(server, store, request, graph, 0).Ok?
            && AppendAction(server, store, request, graph, 0).value.0 == next
    ensures Advances(store, next, n)
  {
    var projection := store.projections[TRIAL];
    NewActionGoesToHead(server, store, request, graph, projection);
    AppendIsPlain(server, store, request, 0);
    PlainAppendWrites(server, store, projection, request, n);
    next := PlainAppend(server, store, projection, request, 0).value.0;
  }

  lemma ToggleReaches(server: Server, store: Store, n: nat)
    requires n >= 1 && StoreInv(server, store) && Reached(store, n)
             && Commits(server, store.projections[TRIAL].state, n)
    ensures Reached(Next(server, store, StepAt(n)), n + 1)
  {
    ToggleAdmitted(server, store, n);
    var next := AppendAdvances(server, store, StepAt(n).request, StepAt(n).appendGraph, n);
    AdvanceReaches(store, next, n);
  }

  lemma {:induction false} RunSnoc(server: Server, store: Store, steps: seq<Step>, last: Step)
    ensures Run(server, store, steps + [last]) == Next(server, Run(server, store, steps), last)
    decreases |steps|
  {
    if steps == [] {
      assert steps + [last] == [last];
      assert [last][1..] == [];
    } else {
      RunSnoc(server, Next(server, store, steps[0]), steps[1..], last);
      assert (steps + [last])[1..] == steps[1..] + [last];
    }
  }

  lemma OneMoreStep(server: Server, n: nat)
    requires n >= 1 && Reached(Run(server, EMPTY, Steps(n)), n)
    requires Commits(server, Run(server, EMPTY, Steps(n)).projections[TRIAL].state, n)
    ensures Reached(Run(server, EMPTY, Steps(n + 1)), n + 1)
  {
    EveryRunKeepsStore(server, Steps(n));
    ToggleReaches(server, Run(server, EMPTY, Steps(n)), n);
    RunSnoc(server, EMPTY, Steps(n), StepAt(n));
  }

  /** The server takes every step of the run. */
  ghost predicate TakesEveryStep(server: Server) {
    && Reached(Next(server, EMPTY, StepAt(0)), 1)
    && forall state, n: nat :: 1 <= n <= 5000 && StateAt(state, n) ==> Commits(server, state, n)
  }

  lemma PausingTakesEveryStep(rest: nat)
    requires rest <= 600000
    ensures TakesEveryStep(PausingServer(rest))
  {
    StartReaches(rest);
    forall state, n: nat | 1 <= n <= 5000 && StateAt(state, n) ensures Commits(PausingServer(rest), state, n) {
      PausingCommits(rest, state, n);
    }
  }

  lemma {:induction false} RunReaches(server: Server, n: nat)
    requires TakesEveryStep(server) && 1 <= n <= 5001
    ensures Reached(Run(server, EMPTY, Steps(n)), n)
  {
    if n == 1 {
      RunSnoc(server, EMPTY, Steps(0), StepAt(0));
    } else {
      RunReaches(server, n - 1);
      OneMoreStep(server, n - 1);
    }
  }

  /** A reachable trial of 5001 events: every append succeeded, the head loads, and the canonical replay fails. */
  lemma LongTrialIsNotReplayable(rest: nat)
    requires rest <= 600000
    ensures var server := PausingServer(rest); var store := Run(server, EMPTY, Steps(5001));
            && TRIAL in store.streams && TRIAL in store.projections && |store.streams[TRIAL]| == 5001
            && LoadActiveHead(server, store, store.projections[TRIAL]).Ok?
            && CanonicalReplay(server, store, OWNER, TRIAL) == Err(ReplayLimitExceeded)
  {
    PausingTakesEveryStep(rest);
    LongRunIsNotReplayable(PausingServer(rest), 5001);
  }

  lemma LongRunIsNotReplayable(server: Server, n: nat)
    requires TakesEveryStep(server) && MAX_REPLAY_EVENTS < n <= 5001
    ensures var store := Run(server, EMPTY, Steps(n));
            && TRIAL in store.streams && TRIAL in store.projections && |store.streams[TRIAL]| == n
            && LoadActiveHead(server, store, store.projections[TRIAL]).Ok?
            && CanonicalReplay(server, store, OWNER, TRIAL) == Err(ReplayLimitExceeded)
  {
    RunReaches(server, n);
    EveryRunKeepsStore(server, Steps(n));
    CannotReplay(server, Run(server, EMPTY, Steps(n)), n);
  }

  lemma CannotReplay(server: Server, store: Store, n: nat)
    requires StoreInv(server, store) && Reached(store, n) && n > MAX_REPLAY_EVENTS
    ensures LoadActiveHead(server, store, store.projections[TRIAL]).Ok?
    ensures CanonicalReplay(server, store, OWNER, TRIAL) == Err(ReplayLimitExceeded)
  {
    assert TrialHolds(server, store, TRIAL);
    HeadLoads(server, store, TRIAL);
    ReachableIsServable(server, store, TRIAL);
    CanonicalReplayExactly(server, store, OWNER, TRIAL);
  }
}
