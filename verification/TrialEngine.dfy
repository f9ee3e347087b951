/** The trial engine as the event store sees it (src/domain/trial-engine/engine.ts:83-151, the envelope rules of
    validator.ts:1893-1963 and reducer.ts:28-40, 255-270).

    The courtroom rules are a parameter: which actions are accepted, what a state's body becomes, what an
    event cites. The envelope, the numbering and the fold over events are concrete. Payloads and state bodies
    are represented by their JSON texts. */
module TrialEngine {
  import opened Outcomes
  import opened Sequences

  datatype ActorRef = ActorRef(actorId: string, role: string, side: string, witnessId: Option<string>)

  datatype ModelMetadata = ModelMetadata(
    model: string, requestId: Option<string>, promptVersion: string, schemaVersion: string,
    latencyMs: Option<nat>, inputTokens: Option<nat>, outputTokens: Option<nat>, estimatedCostUsd: Option<real>,
    retryCount: nat, validationFailureCount: nat)

  datatype Citations = Citations(
    factIds: seq<string>, evidenceIds: seq<string>, testimonyIds: seq<string>, eventIds: seq<string>,
    sourceSegmentIds: seq<string>)

  /** What an action and its event share. */
  datatype Envelope = Envelope(
    trialId: string, actionId: string, actor: ActorRef, source: string, at: string,
    causationId: Option<string>, correlationId: Option<string>, responseId: Option<string>,
    interruptId: Option<string>, metadata: Option<ModelMetadata>, kind: string, payload: string)

  datatype Action = Action(envelope: Envelope, expectedStateVersion: int)

  datatype Event = Event(
    envelope: Envelope, eventId: string, sequence: int, stateVersion: int, citations: Citations)

  datatype CaseRef = CaseRef(caseId: string, caseVersion: int, userSide: string)

  datatype TrialState = TrialState(
    trialId: string, caseRef: CaseRef, version: int, lastSequence: int,
    eventIds: seq<string>, committedActionIds: seq<string>, body: string)

  /** The courtroom rules and schemas, for any engine of this shape. */
  datatype Rules = Rules(
    accepts: (Option<TrialState>, Action) -> bool,
    eventFits: Event -> bool,
    citations: Action -> Citations,
    opens: Event -> CaseRef,
    body: (Option<TrialState>, Event) -> string)

  const START_TRIAL := "START_TRIAL"

  datatype EngineError = Refused | StaleVersion | DuplicateAction | EnvelopeMismatch | NotStarted

  datatype Commit = Commit(event: Event, state: TrialState)

  function EventIdFor(actionId: string): string {
    "event:" + actionId
  }

  lemma EventIdsAreInjective(a: string, b: string)
    ensures EventIdFor(a) == EventIdFor(b) <==> a == b
  {
    assert EventIdFor(a)[6..] == a && EventIdFor(b)[6..] == b;
  }

  /** The model metadata schema asks for non-empty identifiers. */
  predicate MetadataFits(metadata: Option<ModelMetadata>) {
    metadata.Some? ==>
      metadata.value.model != "" && metadata.value.promptVersion != "" && metadata.value.schemaVersion != ""
  }

  /** `validateAction`: the envelope rules, then the courtroom's. */
  function Validate(rules: Rules, state: Option<TrialState>, action: Action): Result<bool, EngineError> {
    var e := action.envelope;
    if !MetadataFits(e.metadata) || e.correlationId != Some(e.trialId) then Err(Refused)
    else if state.None? then
      if e.kind != START_TRIAL then Err(NotStarted)
      else if action.expectedStateVersion != 0 then Err(StaleVersion)
      else if e.actor.role != "system" || e.causationId != None || !rules.accepts(state, action) then Err(Refused)
      else Ok(true)
    else
      var s := state.value;
      if e.trialId != s.trialId then Err(Refused)
      else if e.actionId in s.committedActionIds then Err(DuplicateAction)
      else if action.expectedStateVersion != s.version then Err(StaleVersion)
      else if s.eventIds == [] || e.causationId != Some(s.eventIds[|s.eventIds| - 1]) then Err(Refused)
      else if e.kind == START_TRIAL || !rules.accepts(state, action) then Err(Refused)
      else Ok(true)
  }

  /** `eventFromAction`. */
  function EventFor(rules: Rules, state: Option<TrialState>, action: Action): Event {
    Event(action.envelope, EventIdFor(action.envelope.actionId),
          (if state.None? then 0 else state.value.lastSequence) + 1,
          (if state.None? then 0 else state.value.version) + 1,
          rules.citations(action))
  }

  /** The state after an event; `finalize` numbers it and records the ids. */
  function Apply(rules: Rules, state: Option<TrialState>, event: Event): TrialState {
    var e := event.envelope;
    if state.None? then
      TrialState(e.trialId, rules.opens(event), event.stateVersion, event.sequence, [event.eventId], [e.actionId],
                 rules.body(state, event))
    else
      var s := state.value;
      s.(version := event.stateVersion, lastSequence := event.sequence, eventIds := s.eventIds + [event.eventId],
         committedActionIds := s.committedActionIds + [e.actionId], body := rules.body(state, event))
  }

  /** `commitAction`. */
  function CommitAction(rules: Rules, state: Option<TrialState>, action: Action): Result<Commit, EngineError> {
    var valid :- Validate(rules, state, action);
    var event := EventFor(rules, state, action);
    if !rules.eventFits(event) then Err(Refused)
    else if state.Some? && event.eventId in state.value.eventIds then Err(DuplicateAction)
    else Ok(Commit(event, Apply(rules, state, event)))
  }

  /** `actionFromEvent`. */
  function ActionFrom(event: Event): Action {
    Action(event.envelope, event.stateVersion - 1)
  }

  /** `replayCommittedEvent`, and one round of `reduceTrial`. */
  function ReplayOne(rules: Rules, state: Option<TrialState>, event: Event): Result<TrialState, EngineError> {
    var committed :- CommitAction(rules, state, ActionFrom(event));
    if committed.event != event then Err(EnvelopeMismatch) else Ok(committed.state)
  }

  /** Replays events on top of a state. */
  function ReplayFrom(rules: Rules, state: Option<TrialState>, events: seq<Event>)
    : Result<Option<TrialState>, EngineError>
  {
    if events == [] then Ok(state)
    else
      var before :- ReplayFrom(rules, state, events[..|events| - 1]);
      var after :- ReplayOne(rules, before, events[|events| - 1]);
      Ok(Some(after))
  }

  /** `reduceTrial`: the fold from event one. */
  function Reduce(rules: Rules, events: seq<Event>): Result<TrialState, EngineError> {
    if events == [] then Err(NotStarted)
    else
      var state :- ReplayFrom(rules, None, events);
      if state.None? then Err(NotStarted) else Ok(state.value)
  }

  // ---------------------------------------------------------------- replay undoes commit

  /** The numbers of a state agree with each other, as in every state the engine makes. */
  predicate Numbered(state: Option<TrialState>) {
    state.Some? ==> state.value.version == state.value.lastSequence == |state.value.eventIds|
                    && |state.value.eventIds| == |state.value.committedActionIds|
                    && |state.value.eventIds| >= 1
  }

  /** The action rebuilt from a committed event is the action, and replaying the event gives the commit's state. */
  lemma ReplayInvertsCommit(rules: Rules, state: Option<TrialState>, action: Action)
    requires CommitAction(rules, state, action).Ok?
    ensures var c := CommitAction(rules, state, action).value;
            && ActionFrom(c.event) == action
            && ReplayOne(rules, state, c.event) == Ok(c.state)
  {
    var c := CommitAction(rules, state, action).value;
    assert ActionFrom(c.event).expectedStateVersion == action.expectedStateVersion;
  }

  lemma CommitNumbers(rules: Rules, state: Option<TrialState>, action: Action)
    requires CommitAction(rules, state, action).Ok? && Numbered(state)
    ensures var c := CommitAction(rules, state, action).value;
            && Numbered(Some(c.state))
            && c.event.sequence == c.event.stateVersion == c.state.version == c.state.lastSequence
            && c.event.eventId == EventIdFor(action.envelope.actionId) && c.event.envelope == action.envelope
            && c.state.version == action.expectedStateVersion + 1
            && c.state.version == (if state.Some? then state.value.version else 0) + 1
            && c.state.trialId == action.envelope.trialId
            && (state.Some? ==> c.state.trialId == state.value.trialId && c.state.caseRef == state.value.caseRef
                                && action.envelope.actionId !in state.value.committedActionIds)
            && c.state.eventIds == (if state.Some? then state.value.eventIds else []) + [c.event.eventId]
            && c.state.committedActionIds
               == (if state.Some? then state.value.committedActionIds else []) + [action.envelope.actionId]
            && MetadataFits(action.envelope.metadata)
  {
  }

  lemma OneMore(rules: Rules, state: Option<TrialState>, events: seq<Event>, event: Event)
    requires ReplayFrom(rules, state, events).Ok?
    ensures ReplayFrom(rules, state, events + [event])
            == var r := ReplayOne(rules, ReplayFrom(rules, state, events).value, event);
               if r.Err? then Err(r.error) else Ok(Some(r.value))
  {
    assert (events + [event])[..|events|] == events;
  }

  /** Replay from a state in two parts. */
  lemma {:induction false} ReplaySplits(rules: Rules, state: Option<TrialState>, first: seq<Event>, second: seq<Event>)
    requires ReplayFrom(rules, state, first).Ok?
    ensures ReplayFrom(rules, state, first + second) == ReplayFrom(rules, ReplayFrom(rules, state, first).value, second)
  {
    if second == [] {
      assert first + second == first;
    } else {
      var earlier, last := second[..|second| - 1], second[|second| - 1];
      ReplaySplits(rules, state, first, earlier);
      assert (first + second)[..|first + second| - 1] == first + earlier;
    }
  }

  /** What a prefix folds to, the rest takes to the whole fold. */
  lemma SuffixOfFold(rules: Rules, events: seq<Event>, k: nat, middle: Option<TrialState>)
    requires k <= |events| && ReplayFrom(rules, None, events[..k]) == Ok(middle)
    ensures ReplayFrom(rules, middle, events[k..]) == ReplayFrom(rules, None, events)
  {
    assert events[..k] + events[k..] == events;
    ReplaySplits(rules, None, events[..k], events[k..]);
  }

  /** Event `i` of a stream carries the numbers and ids the state records for it. */
  predicate InPlace(event: Event, i: nat, state: TrialState) {
    && event.sequence == event.stateVersion == i + 1
    && event.eventId == EventIdFor(event.envelope.actionId)
    && i < |state.eventIds| && event.eventId == state.eventIds[i]
    && i < |state.committedActionIds| && event.envelope.actionId == state.committedActionIds[i]
    && event.envelope.trialId == state.trialId
    && MetadataFits(event.envelope.metadata)
  }

  predicate Shape(events: seq<Event>, state: TrialState) {
    && Numbered(Some(state)) && state.version == |events| && Distinct(state.committedActionIds)
    && forall i :: 0 <= i < |events| ==> InPlace(events[i], i, state)
  }

  /** What a replayed stream's state says about the stream: gapless numbers, each action once, one trial. */
  lemma {:induction false} ReplayedShape(rules: Rules, events: seq<Event>)
    requires ReplayFrom(rules, None, events).Ok? && events != []
    ensures ReplayFrom(rules, None, events).value.Some?
    ensures Shape(events, ReplayFrom(rules, None, events).value.value)
  {
    var earlier, last := events[..|events| - 1], events[|events| - 1];
    var before := ReplayFrom(rules, None, earlier).value;
    if earlier != [] {
      ReplayedShape(rules, earlier);
    }
    CommitNumbers(rules, before, ActionFrom(last));
    ShapeGrows(earlier, before, last, CommitAction(rules, before, ActionFrom(last)).value.state);
    assert events == earlier + [last];
  }

  lemma ShapeGrows(earlier: seq<Event>, before: Option<TrialState>, last: Event, after: TrialState)
    requires if before.None? then earlier == [] else Shape(earlier, before.value)
    requires Numbered(Some(after)) && last.sequence == last.stateVersion == after.version
    requires after.version == (if before.Some? then before.value.version else 0) + 1
    requires after.eventIds == (if before.Some? then before.value.eventIds else []) + [last.eventId]
    requires after.committedActionIds
             == (if before.Some? then before.value.committedActionIds else []) + [last.envelope.actionId]
    requires last.eventId == EventIdFor(last.envelope.actionId) && last.envelope.trialId == after.trialId
    requires MetadataFits(last.envelope.metadata)
    requires before.Some? ==> after.trialId == before.value.trialId
                              && last.envelope.actionId !in before.value.committedActionIds
    ensures Shape(earlier + [last], after)
  {
    forall i | 0 <= i < |earlier + [last]| ensures InPlace((earlier + [last])[i], i, after) {
      if i < |earlier| {
        assert InPlace(earlier[i], i, before.value);
      }
    }
  }
}
