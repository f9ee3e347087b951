/** Event rows (convex/trialEvents.ts:290-302, 2248-2305, 2440-2518) and the action rebuilt from one
    (convex/hearingRuntime.ts:787-831).

    A row spreads an event over columns; an absent column is `None`. Dates, and the turn ids named in a
    payload, are parameters. */
module TrialCodec {
  import opened Outcomes
  import opened Sequences
  import opened TrialEngine

  const MAX_JSON_CHARACTERS: nat := 750000
  const MAX_REFERENCES_PER_EVENT: nat := 128
  const EVENT_SCHEMA := "trial-event.v3"
  const ACTION_SCHEMA := "trial-action.v3"

  datatype Row = Row(
    eventId: string, trialId: string, sequence: int, stateVersion: int, actionId: string, eventType: string,
    actorId: string, actorRole: string, actorSide: string, witnessId: Option<string>, source: string,
    causationId: Option<string>, correlationId: Option<string>, responseId: Option<string>,
    interruptId: Option<string>, payloadJson: string, payloadSchemaVersion: string, eventSchemaVersion: string,
    model: Option<string>, modelRequestId: Option<string>, promptVersion: Option<string>,
    modelSchemaVersion: Option<string>, modelLatencyMs: Option<nat>, inputTokens: Option<nat>,
    outputTokens: Option<nat>, estimatedCostUsd: Option<real>, retryCount: Option<nat>,
    validationFailureCount: Option<nat>,
    citations: Citations, turnIds: seq<string>,
    occurredAt: int, occurredAtIso: Option<string>, committedAt: int)

  datatype CodecError = PayloadTooLarge | OccurredAtInvalid | ReferencesInvalid | MigrationRequired | MetadataInvalid

  /** `Date.parse`, its inverse, trimming, and the turn ids of a payload. */
  datatype Texts = Texts(
    parseDate: string -> Option<int>, formatDate: int -> string, isBlank: string -> bool,
    turnIds: string -> seq<string>)

  // ---------------------------------------------------------------- encoding

  predicate ValidReferences(texts: Texts, ids: seq<string>) {
    && |ids| <= MAX_REFERENCES_PER_EVENT && Distinct(ids)
    && forall i :: 0 <= i < |ids| ==> !texts.isBlank(ids[i]) && |ids[i]| <= 256
  }

  predicate ReferencesFit(texts: Texts, event: Event) {
    && ValidReferences(texts, event.citations.factIds) && ValidReferences(texts, event.citations.evidenceIds)
    && ValidReferences(texts, event.citations.testimonyIds) && ValidReferences(texts, event.citations.eventIds)
    && ValidReferences(texts, event.citations.sourceSegmentIds)
    && ValidReferences(texts, texts.turnIds(event.envelope.payload))
  }

  /** `eventStorageRecord`. */
  function Encode(texts: Texts, event: Event, committedAt: int): Result<Row, CodecError> {
    var e := event.envelope;
    if |e.payload| > MAX_JSON_CHARACTERS then Err(PayloadTooLarge)
    else
      var occurredAt := texts.parseDate(e.at);
      if occurredAt.None? || occurredAt.value < 0 then Err(OccurredAtInvalid)
      else if !ReferencesFit(texts, event) then Err(ReferencesInvalid)
      else
        var m := e.metadata;
        Ok(Row(
          event.eventId, e.trialId, event.sequence, event.stateVersion, e.actionId, e.kind,
          e.actor.actorId, e.actor.role, e.actor.side, e.actor.witnessId, e.source,
          e.causationId, e.correlationId, e.responseId, e.interruptId, e.payload, ACTION_SCHEMA, EVENT_SCHEMA,
          if m.Some? then Some(m.value.model) else None,
          if m.Some? then m.value.requestId else None,
          if m.Some? then Some(m.value.promptVersion) else None,
          if m.Some? then Some(m.value.schemaVersion) else None,
          if m.Some? then m.value.latencyMs else None,
          if m.Some? then m.value.inputTokens else None,
          if m.Some? then m.value.outputTokens else None,
          if m.Some? then m.value.estimatedCostUsd else None,
          if m.Some? then Some(m.value.retryCount) else None,
          if m.Some? then Some(m.value.validationFailureCount) else None,
          event.citations, texts.turnIds(e.payload),
          occurredAt.value, Some(e.at), committedAt))
  }

  // ---------------------------------------------------------------- decoding

  predicate Blank(column: Option<string>) {
    column.None? || column.value == ""
  }

  function OrZero(column: Option<nat>): nat {
    if column.Some? then column.value else 0
  }

  /** `modelMetadataForStoredEvent`. */
  function StoredMetadata(row: Row): Result<Option<ModelMetadata>, CodecError> {
    if Blank(row.model) then Ok(None)
    else if Blank(row.promptVersion) || Blank(row.modelSchemaVersion) then Err(MetadataInvalid)
    else
      Ok(Some(ModelMetadata(
        row.model.value, row.modelRequestId, row.promptVersion.value, row.modelSchemaVersion.value, row.modelLatencyMs,
        row.inputTokens, row.outputTokens, row.estimatedCostUsd, OrZero(row.retryCount),
        OrZero(row.validationFailureCount))))
  }

  function StoredDate(texts: Texts, row: Row): string {
    if row.occurredAtIso.Some? then row.occurredAtIso.value else texts.formatDate(row.occurredAt)
  }

  function StoredEnvelope(texts: Texts, row: Row, metadata: Option<ModelMetadata>): Envelope {
    Envelope(row.trialId, row.actionId, ActorRef(row.actorId, row.actorRole, row.actorSide, row.witnessId), row.source,
             StoredDate(texts, row), row.causationId, row.correlationId, row.responseId, row.interruptId, metadata,
             row.eventType, row.payloadJson)
  }

  /** `storedEventToV3`, before its schema check. */
  function Decode(texts: Texts, row: Row): Result<Event, CodecError> {
    if row.eventSchemaVersion != EVENT_SCHEMA || row.payloadSchemaVersion != ACTION_SCHEMA then Err(MigrationRequired)
    else
      var metadata :- StoredMetadata(row);
      Ok(Event(StoredEnvelope(texts, row, metadata), row.eventId, row.sequence, row.stateVersion, row.citations))
  }

  predicate HasModelColumns(row: Row) {
    row.model.Some? || row.promptVersion.Some? || row.modelSchemaVersion.Some? || row.retryCount.Some?
    || row.validationFailureCount.Some?
  }

  /** `storedEventActionJson`: the action a row was made from; it has its own rule for model metadata. */
  function RebuiltAction(texts: Texts, row: Row): Result<Action, CodecError> {
    if !HasModelColumns(row) then Ok(Action(StoredEnvelope(texts, row, None), row.stateVersion - 1))
    else if row.model.None? || row.promptVersion.None? || row.modelSchemaVersion.None? || row.retryCount.None?
            || row.validationFailureCount.None?
            || row.model.value == "" || row.promptVersion.value == "" || row.modelSchemaVersion.value == ""
    then Err(MetadataInvalid)
    else
      var metadata := ModelMetadata(
        row.model.value, row.modelRequestId, row.promptVersion.value, row.modelSchemaVersion.value, row.modelLatencyMs,
        row.inputTokens, row.outputTokens, row.estimatedCostUsd, row.retryCount.value,
        row.validationFailureCount.value);
      Ok(Action(StoredEnvelope(texts, row, Some(metadata)), row.stateVersion - 1))
  }

  // ---------------------------------------------------------------- round trips

  /** Reading a written row gives the event back, and the rebuilt action is the event's action. */
  lemma RowRoundTrip(texts: Texts, event: Event, committedAt: int)
    requires Encode(texts, event, committedAt).Ok? && MetadataFits(event.envelope.metadata)
    ensures var row := Encode(texts, event, committedAt).value;
            && Decode(texts, row) == Ok(event)
            && RebuiltAction(texts, row) == Ok(ActionFrom(event))
            && row.sequence == event.sequence && row.eventId == event.eventId && row.actionId == event.envelope.actionId
            && row.trialId == event.envelope.trialId && row.stateVersion == event.stateVersion
  {
    var row := Encode(texts, event, committedAt).value;
    if event.envelope.metadata.Some? {
      assert StoredMetadata(row) == Ok(event.envelope.metadata);
    }
  }

  /** For any event that encodes, decoding gives the event back exactly when its metadata is of the schema's
      shape: a blank model is read as no metadata, a blank prompt or schema version is refused. */
  lemma RoundTripsExactly(texts: Texts, event: Event, committedAt: int)
    requires Encode(texts, event, committedAt).Ok?
    ensures Decode(texts, Encode(texts, event, committedAt).value) == Ok(event)
            <==> MetadataFits(event.envelope.metadata)
    ensures RebuiltAction(texts, Encode(texts, event, committedAt).value) == Ok(ActionFrom(event))
            <==> MetadataFits(event.envelope.metadata)
  {
    var row := Encode(texts, event, committedAt).value;
    var m := event.envelope.metadata;
    if m.Some? && m.value.model == "" {
      assert StoredMetadata(row) == Ok(None);
    }
  }

  /** Rows determine their events. */
  lemma EncodingIsInjective(texts: Texts, a: Event, b: Event, at: int, bt: int)
    requires Encode(texts, a, at).Ok? && Encode(texts, a, at) == Encode(texts, b, bt)
    requires MetadataFits(a.envelope.metadata) && MetadataFits(b.envelope.metadata)
    ensures a == b && at == bt
  {
    RowRoundTrip(texts, a, at);
    RowRoundTrip(texts, b, bt);
  }
}
