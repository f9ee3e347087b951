/** The annotation walk as the source runs it: a clone of the reviewed graph, a set of used ids and a
    counter, updated in place entity by entity (convex/caseServiceBoundary.ts:453-665). */
module ReviewAnnotator {
  import opened Outcomes
  import opened ReviewIds
  import opened HumanReview

  class Annotator {
    const token: string
    var used: set<string>
    var sequence: nat
    var changes: seq<Change>

    constructor (token: string, start: Walk)
      ensures this.token == token && State() == start
    {
      this.token := token;
      used, sequence, changes := start.used, start.sequence, start.changes;
    }

    ghost function State(): Walk
      reads this
    {
      Walk(used, sequence, changes)
    }

    /** Counts up until the candidate id is free, and takes it. */
    method NextProvenanceId() returns (id: string)
      modifies this`used, this`sequence
      ensures sequence == NextFree(old(used), token, old(sequence))
      ensures id == ReviewId(token, sequence) && used == old(used) + {id}
    {
      sequence := sequence + 1;
      id := ReviewId(token, sequence);
      while id in used
        invariant sequence >= 1 && id == ReviewId(token, sequence) && used == old(used)
        invariant NextFree(used, token, old(sequence)) == NextFree(used, token, sequence - 1)
        decreases Beyond(used, token, sequence - 1)
      {
        BeyondShrinks(used, token, sequence - 1);
        sequence := sequence + 1;
        id := ReviewId(token, sequence);
      }
      used := used + {id};
    }

    /** Appends server provenance to an edited entity and records the change. */
    method RecordEntityEdit(c: Collection, before: Entity, after: Entity) returns (annotated: Entity)
      modifies this
      ensures (annotated, State()) == RecordEdit(token, c, before, after, old(State()))
    {
      annotated := after;
      var fields := ChangedFields(before, after);
      if fields == {} {
        return;
      }
      var id := NextProvenanceId();
      annotated := after.(provenance := after.provenance + [ReviewProvenance(id, c.entityType, fields)]);
      changes := changes + [Change(PathOf(c, after.id), c.entityType, after.id, fields, Some(id))];
    }

    /** Walks one collection of the clone. */
    method RecordArrayEdits(c: Collection, before: seq<Entity>, after: seq<Entity>) returns (items: seq<Entity>)
      requires |before| == |after|
      modifies this
      ensures (items, State()) == AnnotateItems(token, c, before, after, old(State()))
    {
      items := after;
      var index := 0;
      while index < |before|
        invariant 0 <= index <= |before| && |items| == |after|
        invariant (items[..index], State()) == AnnotateItems(token, c, before[..index], after[..index], old(State()))
      {
        assert before[..index + 1][..index] == before[..index] && after[..index + 1][..index] == after[..index];
        var annotated := RecordEntityEdit(c, before[index], after[index]);
        items := items[index := annotated];
        assert items[..index + 1] == items[..index] + [annotated];
        index := index + 1;
      }
      assert before[..index] == before && after[..index] == after && items[..index] == items;
    }

    /** Walks every collection of the clone. */
    method RecordAllEdits(before: seq<Collection>, after: seq<Collection>) returns (annotated: seq<Collection>)
      requires SameShape(before, after)
      modifies this
      ensures (annotated, State()) == AnnotateCollections(token, before, after, old(State()))
    {
      annotated := after;
      var index := 0;
      while index < |before|
        invariant 0 <= index <= |before| && |annotated| == |after|
        invariant (annotated[..index], State())
                  == AnnotateCollections(token, before[..index], after[..index], old(State()))
      {
        assert before[..index + 1][..index] == before[..index] && after[..index + 1][..index] == after[..index];
        var items := RecordArrayEdits(after[index], before[index].items, after[index].items);
        annotated := annotated[index := after[index].(items := items)];
        assert annotated[..index + 1] == annotated[..index] + [after[index].(items := items)];
        index := index + 1;
      }
      assert before[..index] == before && after[..index] == after && annotated[..index] == annotated;
    }
  }

  /** `annotateHumanReview`. */
  method Annotate(draft: Graph, reviewed: Graph, publicationGraphId: string, rules: Graph -> bool)
    returns (result: Result<Annotation, ReviewError>)
    ensures result == AnnotateHumanReview(draft, reviewed, publicationGraphId, rules)
  {
    if !Valid(draft, rules) || !Valid(reviewed, rules) {
      return Err(SchemaRejected);
    }
    if !SameImmutableFields(draft.head, reviewed.head) {
      return Err(ImmutableFieldChanged);
    }
    if !SameProvenance(draft.collections, reviewed.collections) {
      return Err(ProvenanceTampered);
    }
    if !IsPublicationId(publicationGraphId) {
      return Err(PublishConflict);
    }
    var annotator := new Annotator(TokenOf(publicationGraphId), StartWalk(draft, reviewed));
    var collections := annotator.RecordAllEdits(draft.collections, reviewed.collections);
    var annotated := Graph(reviewed.head, collections);
    if !Valid(annotated, rules) {
      return Err(SchemaRejected);
    }
    result := Ok(Annotation(annotated, AuditOf(publicationGraphId, annotator.changes)));
  }

  /** Removes from one provenance list, in place, what the server's review added. */
  method StripProvenance(provenance: array<Provenance>, length: nat, draftIds: set<string>, token: string)
    returns (kept: nat)
    requires length <= provenance.Length
    modifies provenance
    ensures kept <= length
    ensures provenance[..kept] == Retained(old(provenance[..length]), draftIds, token)
  {
    ghost var before := provenance[..length];
    kept := 0;
    var i := 0;
    while i < length
      invariant 0 <= kept <= i <= length
      invariant provenance[..kept] == Retained(before[..i], draftIds, token)
      invariant forall j :: i <= j < length ==> provenance[j] == before[j]
    {
      assert before[..i + 1][..i] == before[..i];
      var item := provenance[i];
      if item.provenanceId in draftIds || !IsReviewId(token, item.provenanceId) {
        provenance[kept] := item;
        kept := kept + 1;
        assert provenance[..kept] == Retained(before[..i], draftIds, token) + [item];
      }
      i := i + 1;
    }
    assert before[..length] == before;
  }
}
