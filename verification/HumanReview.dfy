/** Server provenance on a human-reviewed case graph (convex/caseServiceBoundary.ts), and its inverse, the
    strip-and-rebuild check that replays a publication (convex/caseCompileReplay.ts). */
module HumanReview {
  import opened Outcomes
  import opened Sequences
  import opened ReviewIds

  const MAX_RECORDED_CHANGES := 256

  // ---------------------------------------------------------------- the graph

  datatype EntityType =
    | Case | JurisdictionProfile | Party | Issue | TimelineEvent | Fact | Evidence | Witness
    | PriorStatement | Contradiction | Settlement | JuryInstruction

  /** The wording of the server's note is determined by the entity type and the changed fields. */
  datatype Note = Written(text: string) | ServerReview(entityType: EntityType, changed: set<string>)

  datatype ProvenanceKind = FromSource | Authoring | Inferred

  datatype Provenance = Provenance(provenanceId: string, kind: ProvenanceKind, sourceSegmentIds: seq<string>,
                                   note: Note, confidence: real)

  /** An entity with its id, its provenance and every other field in serialised form. */
  datatype Entity = Entity(id: string, fields: map<string, string>, provenance: seq<Provenance>)

  /** One collection of entities. The single entities (jurisdiction profile, settlement) are collections
      of one, and the prior statements of each witness are a collection of their own. */
  datatype Collection = Collection(entityType: EntityType, path: string, single: bool, items: seq<Entity>)

  datatype Lifecycle = Draft | Published | Archived

  datatype Segment = Segment(sourceSegmentId: string, content: string)

  datatype Head = Head(
    schemaVersion: string, caseId: string, version: int, title: string, summary: string, status: Lifecycle,
    educationalDisclaimer: string, sourceSegments: seq<Segment>, compilerMetadata: string)

  /** A case graph; the collections come in the order in which review walks them. */
  datatype Graph = Graph(head: Head, collections: seq<Collection>)

  datatype ReviewError = SchemaRejected | ImmutableFieldChanged | ProvenanceTampered | PublishConflict

  // ---------------------------------------------------------------- schema

  function ItemIds(items: seq<Entity>): seq<seq<string>> {
    seq(|items|, i requires 0 <= i < |items| => ProvenanceIds(items[i].provenance))
  }

  function ProvenanceIds(provenance: seq<Provenance>): seq<string> {
    seq(|provenance|, i requires 0 <= i < |provenance| => provenance[i].provenanceId)
  }

  function Concat<T>(parts: seq<seq<T>>): seq<T> {
    if parts == [] then [] else Concat(parts[..|parts| - 1]) + parts[|parts| - 1]
  }

  function CollectionIds(c: Collection): seq<string> {
    Concat(ItemIds(c.items))
  }

  /** Every provenance id of the graph, in walking order. */
  function AllIds(collections: seq<Collection>): seq<string> {
    if collections == [] then []
    else AllIds(collections[..|collections| - 1]) + CollectionIds(collections[|collections| - 1])
  }

  function EraseItem(e: Entity): Entity {
    e.(provenance := [])
  }

  function Erase(collections: seq<Collection>): seq<Collection> {
    seq(|collections|, i requires 0 <= i < |collections| =>
      collections[i].(items := seq(|collections[i].items|, k requires 0 <= k < |collections[i].items| =>
        EraseItem(collections[i].items[k]))))
  }

  predicate IsSegment(segments: seq<Segment>, id: string) {
    exists s :: s in segments && s.sourceSegmentId == id
  }

  /** The schema of one provenance entry: it cites known segments, each once; a source entry cites at least
      one, and an inferred entry is not certain. */
  predicate EntryFits(segments: seq<Segment>, p: Provenance) {
    && IsEntityId(p.provenanceId) && 0.0 <= p.confidence <= 1.0
    && Distinct(p.sourceSegmentIds)
    && (forall id :: id in p.sourceSegmentIds ==> IsSegment(segments, id))
    && (p.kind.FromSource? ==> p.sourceSegmentIds != [])
    && (p.kind.Inferred? ==> p.confidence != 1.0)
  }

  predicate ListFits(segments: seq<Segment>, provenance: seq<Provenance>) {
    && provenance != []
    && forall p :: p in provenance ==> EntryFits(segments, p)
  }

  /** The graph schema: provenance ids are unique across the graph, no list of entries is empty and every
      entry fits; `rules` stands for everything the schema says about the rest of the graph. */
  predicate Valid(g: Graph, rules: Graph -> bool) {
    && Distinct(AllIds(g.collections))
    && (forall i, k :: 0 <= i < |g.collections| && 0 <= k < |g.collections[i].items| ==>
          ListFits(g.head.sourceSegments, g.collections[i].items[k].provenance))
    && rules(Graph(g.head, Erase(g.collections)))
  }

  // ---------------------------------------------------------------- annotation

  function FieldOf(e: Entity, field: string): Option<string> {
    if field in e.fields then Some(e.fields[field]) else None
  }

  function ChangedFields(before: Entity, after: Entity): set<string> {
    set f | f in before.fields.Keys + after.fields.Keys && FieldOf(before, f) != FieldOf(after, f)
  }

  function ReviewProvenance(id: string, entityType: EntityType, changed: set<string>): Provenance {
    Provenance(id, Authoring, [], ServerReview(entityType, changed), 1.0)
  }

  datatype Change = Change(path: string, entityType: EntityType, entityId: string, changed: set<string>,
                           provenanceId: Option<string>)

  /** What the walk carries along: the ids in use, the sequence counter and the changes so far. */
  datatype Walk = Walk(used: set<string>, sequence: nat, changes: seq<Change>)

  function PathOf(c: Collection, id: string): string {
    if c.single then c.path else c.path + "." + id
  }

  function RecordEdit(token: string, c: Collection, before: Entity, after: Entity, w: Walk): (Entity, Walk) {
    var changed := ChangedFields(before, after);
    if changed == {} then (after, w)
    else
      var n := NextFree(w.used, token, w.sequence);
      var id := ReviewId(token, n);
      (after.(provenance := after.provenance + [ReviewProvenance(id, c.entityType, changed)]),
       Walk(w.used + {id}, n, w.changes + [Change(PathOf(c, after.id), c.entityType, after.id, changed, Some(id))]))
  }

  function AnnotateItems(token: string, c: Collection, before: seq<Entity>, after: seq<Entity>, w: Walk)
    : (r: (seq<Entity>, Walk))
    requires |before| == |after|
    ensures |r.0| == |after|
  {
    if after == [] then ([], w)
    else
      var n := |after| - 1;
      var front := AnnotateItems(token, c, before[..n], after[..n], w);
      var last := RecordEdit(token, c, before[n], after[n], front.1);
      (front.0 + [last.0], last.1)
  }

  predicate SameShape(before: seq<Collection>, after: seq<Collection>) {
    |before| == |after| && forall i :: 0 <= i < |after| ==> |before[i].items| == |after[i].items|
  }

  function AnnotateCollections(token: string, before: seq<Collection>, after: seq<Collection>, w: Walk)
    : (r: (seq<Collection>, Walk))
    requires SameShape(before, after)
    ensures |r.0| == |after|
  {
    if after == [] then ([], w)
    else
      var n := |after| - 1;
      var front := AnnotateCollections(token, before[..n], after[..n], w);
      var last := AnnotateItems(token, after[n], before[n].items, after[n].items, front.1);
      (front.0 + [after[n].(items := last.0)], last.1)
  }

  /** Ids and provenance of every entity in order: what a browser may not alter. */
  predicate SameProvenance(before: seq<Collection>, after: seq<Collection>) {
    && SameShape(before, after)
    && forall i, k :: 0 <= i < |after| && 0 <= k < |after[i].items| ==>
         before[i].items[k].id == after[i].items[k].id && before[i].items[k].provenance == after[i].items[k].provenance
  }

  predicate SameImmutableFields(draft: Head, reviewed: Head) {
    && draft.status == Draft && reviewed.status == Published
    && draft.caseId == reviewed.caseId
    && draft.schemaVersion == reviewed.schemaVersion
    && draft.version == reviewed.version
    && draft.educationalDisclaimer == reviewed.educationalDisclaimer
    && draft.sourceSegments == reviewed.sourceSegments
    && draft.compilerMetadata == reviewed.compilerMetadata
  }

  /** The title and summary are changed without provenance. */
  function CaseChange(draft: Head, reviewed: Head): seq<Change> {
    var fields := (if draft.title != reviewed.title then {"title"} else {})
                + (if draft.summary != reviewed.summary then {"summary"} else {});
    if fields == {} then [] else [Change("case", Case, reviewed.caseId, fields, None)]
  }

  datatype Audit = Audit(
    publicationGraphId: string, totalChangeCount: nat, annotatedEntityCount: nat, recordedChangeCount: nat,
    truncated: bool, changes: seq<Change>)

  function Annotated(changes: seq<Change>): seq<Change> {
    if changes == [] then []
    else Annotated(changes[..|changes| - 1])
         + if changes[|changes| - 1].provenanceId.Some? then [changes[|changes| - 1]] else []
  }

  function AuditOf(publicationGraphId: string, changes: seq<Change>): Audit {
    var recorded := if |changes| <= MAX_RECORDED_CHANGES then changes else changes[..MAX_RECORDED_CHANGES];
    Audit(publicationGraphId, |changes|, |Annotated(changes)|, |recorded|, |recorded| != |changes|, recorded)
  }

  datatype Annotation = Annotation(caseGraph: Graph, audit: Audit)

  function StartWalk(draft: Graph, reviewed: Graph): Walk {
    Walk(set id | id in AllIds(draft.collections), 0, CaseChange(draft.head, reviewed.head))
  }

  /** The walk over all collections. */
  function Review(draft: Graph, reviewed: Graph, publicationGraphId: string): (seq<Collection>, Walk)
    requires SameShape(draft.collections, reviewed.collections)
  {
    AnnotateCollections(TokenOf(publicationGraphId), draft.collections, reviewed.collections,
                        StartWalk(draft, reviewed))
  }

  function AnnotateHumanReview(draft: Graph, reviewed: Graph, publicationGraphId: string, rules: Graph -> bool)
    : Result<Annotation, ReviewError>
  {
    if !Valid(draft, rules) || !Valid(reviewed, rules) then Err(SchemaRejected)
    else if !SameImmutableFields(draft.head, reviewed.head) then Err(ImmutableFieldChanged)
    else if !SameProvenance(draft.collections, reviewed.collections) then Err(ProvenanceTampered)
    else if !IsPublicationId(publicationGraphId) then Err(PublishConflict)
    else
      var walked := Review(draft, reviewed, publicationGraphId);
      var annotated := Graph(reviewed.head, walked.0);
      if !Valid(annotated, rules) then Err(SchemaRejected)
      else Ok(Annotation(annotated, AuditOf(publicationGraphId, walked.1.changes)))
  }

  // ---------------------------------------------------------------- the replay check

  function Retained(provenance: seq<Provenance>, draftIds: set<string>, token: string): seq<Provenance> {
    if provenance == [] then []
    else
      var n := |provenance| - 1;
      Retained(provenance[..n], draftIds, token)
      + if provenance[n].provenanceId in draftIds || !IsReviewId(token, provenance[n].provenanceId)
        then [provenance[n]] else []
  }

  function StripItems(items: seq<Entity>, draftIds: set<string>, token: string): seq<Entity> {
    seq(|items|, i requires 0 <= i < |items| =>
      items[i].(provenance := Retained(items[i].provenance, draftIds, token)))
  }

  function Strip(draft: Graph, published: Graph, token: string): Graph {
    var draftIds := set id | id in AllIds(draft.collections);
    Graph(published.head, seq(|published.collections|, i requires 0 <= i < |published.collections| =>
      published.collections[i].(items := StripItems(published.collections[i].items, draftIds, token))))
  }

  /** What replay demands of a stored publication: stripping the server's provenance and annotating
      again reproduces the stored graph and audit exactly. */
  predicate PublicationRebuilds(draft: Graph, stored: Annotation, publicationGraphId: string, rules: Graph -> bool) {
    && IsPublicationId(publicationGraphId)
    && var reviewed := Strip(draft, stored.caseGraph, TokenOf(publicationGraphId));
       && Valid(reviewed, rules)
       && AnnotateHumanReview(draft, reviewed, publicationGraphId, rules) == Ok(stored)
  }

  /** The rules of the stored audit's own schema. */
  predicate AuditAccepted(audit: Audit) {
    && audit.recordedChangeCount == |audit.changes| <= MAX_RECORDED_CHANGES
    && audit.recordedChangeCount <= audit.totalChangeCount
    && audit.annotatedEntityCount <= audit.totalChangeCount
    && |Annotated(audit.changes)| <= audit.annotatedEntityCount
    && (!audit.truncated ==> audit.totalChangeCount == audit.recordedChangeCount
                             && audit.annotatedEntityCount == |Annotated(audit.changes)|)
    && (audit.truncated ==> audit.totalChangeCount > audit.recordedChangeCount)
    && (forall i, j :: 0 <= i < j < |audit.changes| && audit.changes[i].provenanceId.Some? ==>
          audit.changes[i].provenanceId != audit.changes[j].provenanceId)
    && (forall i :: 0 <= i < |audit.changes| ==> audit.changes[i].changed != {})
  }
}
