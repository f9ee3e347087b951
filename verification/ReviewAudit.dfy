/** Which reviews annotation accepts, and what it records about them. */
module ReviewAudit {
  import opened Sequences
  import opened ReviewIds
  import opened HumanReview
  import opened ReviewReplay

  // ---------------------------------------------------------------- distinct ids

  lemma {:induction false} DistinctIsMultiplicityOne(ids: seq<string>)
    ensures Distinct(ids) <==> forall id :: multiset(ids)[id] <= 1
  {
    if ids != [] {
      var front, last := ids[..|ids| - 1], ids[|ids| - 1];
      DistinctIsMultiplicityOne(front);
      assert ids == front + [last];
      DistinctSnoc(front, last);
      if !Distinct(front) {
        var id :| multiset(front)[id] > 1;
        assert multiset(ids)[id] > 1;
      } else if last in front {
        assert multiset(ids)[last] > 1;
      }
    }
  }

  lemma DistinctSnoc(ids: seq<string>, id: string)
    ensures Distinct(ids + [id]) <==> Distinct(ids) && id !in ids
  {
    var all := ids + [id];
    if Distinct(all) {
      forall i, j | 0 <= i < j < |ids| ensures ids[i] != ids[j] {
        assert all[i] != all[j];
      }
      forall i | 0 <= i < |ids| ensures ids[i] != id {
        assert all[i] != all[|ids|];
      }
    }
  }

  lemma ItemIdsSnoc(items: seq<Entity>, e: Entity)
    ensures Concat(ItemIds(items + [e])) == Concat(ItemIds(items)) + ProvenanceIds(e.provenance)
  {
    assert ItemIds(items + [e])[..|items|] == ItemIds(items);
  }

  lemma ChainSums(front: multiset<string>, start: multiset<string>, frontIds: multiset<string>, mid: multiset<string>,
                  last: multiset<string>, lastIds: multiset<string>, end: multiset<string>)
    requires front + start == frontIds + mid && last + mid == lastIds + end
    ensures (front + last) + start == (frontIds + lastIds) + end
  {
    assert (front + last) + start == (front + start) + last;
    assert (frontIds + mid) + last == frontIds + (last + mid);
    assert frontIds + (lastIds + end) == (frontIds + lastIds) + end;
  }

  /** The walk adds to the ids of the graph exactly the ids it hands out. */
  lemma EditAddsIds(token: string, c: Collection, before: Entity, after: Entity, w: Walk)
    ensures var (e, next) := RecordEdit(token, c, before, after, w);
            multiset(ProvenanceIds(e.provenance)) + multiset(NewIds(w.changes))
            == multiset(ProvenanceIds(after.provenance)) + multiset(NewIds(next.changes))
  {
    var (e, next) := RecordEdit(token, c, before, after, w);
    if ChangedFields(before, after) != {} {
      var change := next.changes[|w.changes|];
      NewIdsSnoc(w.changes, change);
      assert next.changes == w.changes + [change];
      assert ProvenanceIds(e.provenance) == ProvenanceIds(after.provenance) + [change.provenanceId.value];
    }
  }

  /** Ids on both sides of an annotation: those it found and those it handed out. */
  predicate SameIds(annotated: seq<string>, start: seq<string>, reviewed: seq<string>, end: seq<string>) {
    multiset(annotated) + multiset(start) == multiset(reviewed) + multiset(end)
  }

  /** One more item: the walk over the earlier ones, then the edit of the last. */
  lemma AnnotateItemsSnoc(token: string, c: Collection, before: seq<Entity>, after: seq<Entity>, w: Walk)
    returns (front: seq<Entity>, mid: Walk, last: Entity, next: Walk)
    requires |before| == |after| && after != []
    ensures var n := |after| - 1;
            && AnnotateItems(token, c, before[..n], after[..n], w) == (front, mid)
            && AnnotateItems(token, c, before, after, w) == (front + [last], next)
            && RecordEdit(token, c, before[n], after[n], mid) == (last, next)
            && after == after[..n] + [after[n]]
  {
    var n := |after| - 1;
    front := AnnotateItems(token, c, before[..n], after[..n], w).0;
    mid := AnnotateItems(token, c, before[..n], after[..n], w).1;
    last, next := RecordEdit(token, c, before[n], after[n], mid).0, RecordEdit(token, c, before[n], after[n], mid).1;
  }

  lemma EditSameIds(token: string, c: Collection, before: Entity, after: Entity, w: Walk, e: Entity, next: Walk)
    requires RecordEdit(token, c, before, after, w) == (e, next)
    ensures SameIds(ProvenanceIds(e.provenance), NewIds(w.changes), ProvenanceIds(after.provenance),
                    NewIds(next.changes))
  {
    EditAddsIds(token, c, before, after, w);
  }

  lemma {:induction false} ItemsAddIds(token: string, c: Collection, before: seq<Entity>, after: seq<Entity>, w: Walk)
    requires |before| == |after|
    ensures var (items, next) := AnnotateItems(token, c, before, after, w);
            SameIds(Concat(ItemIds(items)), NewIds(w.changes), Concat(ItemIds(after)), NewIds(next.changes))
  {
    if after != [] {
      var n := |after| - 1;
      var front, mid, last, next := AnnotateItemsSnoc(token, c, before, after, w);
      ItemsAddIds(token, c, before[..n], after[..n], w);
      EditSameIds(token, c, before[n], after[n], mid, last, next);
      ItemIdsSums(front, last, after[..n], after[n], NewIds(w.changes), NewIds(mid.changes), NewIds(next.changes));
    }
  }

  /** The ids of one more item, added up on both sides. */
  lemma ItemIdsSums(front: seq<Entity>, last: Entity, afterFront: seq<Entity>, afterLast: Entity, start: seq<string>,
                    mid: seq<string>, end: seq<string>)
    requires SameIds(Concat(ItemIds(front)), start, Concat(ItemIds(afterFront)), mid)
    requires SameIds(ProvenanceIds(last.provenance), mid, ProvenanceIds(afterLast.provenance), end)
    ensures SameIds(Concat(ItemIds(front + [last])), start, Concat(ItemIds(afterFront + [afterLast])), end)
  {
    ItemIdsSnoc(front, last);
    ItemIdsSnoc(afterFront, afterLast);
    ChainSums(multiset(Concat(ItemIds(front))), multiset(start), multiset(Concat(ItemIds(afterFront))), multiset(mid),
              multiset(ProvenanceIds(last.provenance)), multiset(ProvenanceIds(afterLast.provenance)), multiset(end));
  }

  lemma {:induction false} CollectionsAddIds(token: string, before: seq<Collection>, after: seq<Collection>, w: Walk)
    requires SameShape(before, after)
    ensures var (collections, next) := AnnotateCollections(token, before, after, w);
            multiset(AllIds(collections)) + multiset(NewIds(w.changes))
            == multiset(AllIds(after)) + multiset(NewIds(next.changes))
  {
    if after != [] {
      var n := |after| - 1;
      var (front, mid) := AnnotateCollections(token, before[..n], after[..n], w);
      CollectionsAddIds(token, before[..n], after[..n], w);
      ItemsAddIds(token, after[n], before[n].items, after[n].items, mid);
      var (items, next) := AnnotateItems(token, after[n], before[n].items, after[n].items, mid);
      var last := after[n].(items := items);
      assert (front + [last])[..n] == front;
      ChainSums(multiset(AllIds(front)), multiset(NewIds(w.changes)), multiset(AllIds(after[..n])),
                multiset(NewIds(mid.changes)), multiset(CollectionIds(last)), multiset(CollectionIds(after[n])),
                multiset(NewIds(next.changes)));
    }
  }

  lemma {:induction false} ListedIdsComeFromItems(collections: seq<Collection>, ids: set<string>)
    requires CollectionsKnown(collections, ids)
    ensures forall id :: id in AllIds(collections) ==> id in ids
  {
    if collections != [] {
      var n := |collections| - 1;
      ListedIdsComeFromItems(collections[..n], ids);
      ListedItemIds(collections[n].items, ids);
    }
  }

  lemma {:induction false} ListedItemIds(items: seq<Entity>, ids: set<string>)
    requires ItemsKnown(items, ids)
    ensures forall id :: id in Concat(ItemIds(items)) ==> id in ids
  {
    if items != [] {
      var n := |items| - 1;
      ListedItemIds(items[..n], ids);
      ItemIdsSnoc(items[..n], items[n]);
      assert items == items[..n] + [items[n]];
      forall id | id in ProvenanceIds(items[n].provenance) ensures id in ids {
        var j :| 0 <= j < |items[n].provenance| && ProvenanceIds(items[n].provenance)[j] == id;
        assert items[n].provenance[j] in items[n].provenance;
      }
    }
  }

  /** Old ids and fresh ids together are still pairwise different. */
  lemma FreshIdsStayDistinct(existing: seq<string>, added: seq<string>, all: seq<string>)
    requires Distinct(existing) && Distinct(added) && forall id :: id in added ==> id !in existing
    requires multiset(all) == multiset(existing) + multiset(added)
    ensures Distinct(all)
  {
    DistinctIsMultiplicityOne(existing);
    DistinctIsMultiplicityOne(added);
    forall id ensures multiset(all)[id] <= 1 {
      if id in added {
        assert multiset(existing)[id] == 0;
      } else {
        assert multiset(added)[id] == 0;
      }
    }
    DistinctIsMultiplicityOne(all);
  }

  lemma AnnotatedIdsDistinct(draft: Graph, reviewed: Graph, publicationGraphId: string)
    requires Distinct(AllIds(reviewed.collections)) && SameProvenance(draft.collections, reviewed.collections)
    ensures Distinct(AllIds(Review(draft, reviewed, publicationGraphId).0))
  {
    var token, ids, start := TokenOf(publicationGraphId), IdsOf(draft.collections), StartWalk(draft, reviewed);
    var (collections, w) := Review(draft, reviewed, publicationGraphId);
    assert NewIds(start.changes) == [];
    ReviewWalkInv(draft, reviewed, publicationGraphId);
    CollectionsAddIds(token, draft.collections, reviewed.collections, start);
    ReviewedIsKnown(draft.collections, reviewed.collections);
    ListedIdsComeFromItems(reviewed.collections, ids);
    FreshIdsStayDistinct(AllIds(reviewed.collections), NewIds(w.changes), AllIds(collections));
  }

  /** The server's own entry always fits the schema. */
  lemma GainedListFits(publicationGraphId: string, segments: seq<Segment>, entityType: EntityType, before: Entity,
                       after: Entity, e: Entity, used: set<string>)
    requires IsPublicationId(publicationGraphId) && ListFits(segments, after.provenance)
    requires Gains(TokenOf(publicationGraphId), entityType, before, after, e, used)
    ensures ListFits(segments, e.provenance)
  {
    if ChangedFields(before, after) != {} {
      var token := TokenOf(publicationGraphId);
      var n: nat :| GainsAt(token, entityType, before, after, e, used, n);
      var p := ReviewProvenance(ReviewId(token, n), entityType, ChangedFields(before, after));
      ReviewIdIsEntityId(publicationGraphId, n);
      assert EntryFits(segments, p);
    }
  }

  /** Annotation never breaks the schema: the ids it adds are fresh and pairwise different, and the entries
      that carry them fit. */
  lemma AnnotatedIsValid(draft: Graph, reviewed: Graph, publicationGraphId: string, rules: Graph -> bool)
    requires Valid(reviewed, rules) && SameProvenance(draft.collections, reviewed.collections)
    requires IsPublicationId(publicationGraphId)
    ensures Valid(Graph(reviewed.head, Review(draft, reviewed, publicationGraphId).0), rules)
  {
    var token, start := TokenOf(publicationGraphId), StartWalk(draft, reviewed);
    var collections := Review(draft, reviewed, publicationGraphId).0;
    AnnotatedIdsDistinct(draft, reviewed, publicationGraphId);
    ErasedUnchanged(token, draft.collections, reviewed.collections, start);
    forall i, k | 0 <= i < |collections| && 0 <= k < |collections[i].items|
      ensures ListFits(reviewed.head.sourceSegments, collections[i].items[k].provenance)
    {
      CollectionKept(token, draft.collections, reviewed.collections, start, i);
      EachEntityGains(token, draft.collections, reviewed.collections, start, i, k);
      GainedListFits(publicationGraphId, reviewed.head.sourceSegments, reviewed.collections[i].entityType,
                     draft.collections[i].items[k], reviewed.collections[i].items[k], collections[i].items[k],
                     start.used);
    }
  }

  /** Nothing but provenance is touched. */
  lemma ErasedUnchanged(token: string, before: seq<Collection>, after: seq<Collection>, w: Walk)
    requires SameShape(before, after)
    ensures Erase(AnnotateCollections(token, before, after, w).0) == Erase(after)
  {
    var collections := AnnotateCollections(token, before, after, w).0;
    forall i | 0 <= i < |after| ensures Erase(collections)[i] == Erase(after)[i] {
      CollectionKept(token, before, after, w, i);
      forall k | 0 <= k < |after[i].items| ensures EraseItem(collections[i].items[k]) == EraseItem(after[i].items[k]) {
        EachEntityGains(token, before, after, w, i, k);
      }
      assert Erase(collections)[i].items == Erase(after)[i].items;
    }
  }

  /** A review is accepted exactly when both graphs are valid, the immutable fields and the provenance
      are the draft's, and the publication id is well formed; annotation itself never fails. */
  lemma AcceptedExactly(draft: Graph, reviewed: Graph, publicationGraphId: string, rules: Graph -> bool)
    ensures AnnotateHumanReview(draft, reviewed, publicationGraphId, rules).Ok?
            <==> Valid(draft, rules) && Valid(reviewed, rules)
                 && SameImmutableFields(draft.head, reviewed.head)
                 && SameProvenance(draft.collections, reviewed.collections)
                 && IsPublicationId(publicationGraphId)
  {
    if Valid(reviewed, rules) && SameProvenance(draft.collections, reviewed.collections)
       && IsPublicationId(publicationGraphId)
    {
      AnnotatedIsValid(draft, reviewed, publicationGraphId, rules);
    }
  }

  // ---------------------------------------------------------------- the audit

  lemma {:induction false} AnnotatedCount(changes: seq<Change>)
    ensures |Annotated(changes)| == |NewIds(changes)| <= |changes|
  {
    if changes != [] {
      AnnotatedCount(changes[..|changes| - 1]);
    }
  }

  lemma {:induction false} AnnotatedPrefix(changes: seq<Change>, n: nat)
    requires n <= |changes|
    ensures |Annotated(changes[..n])| <= |Annotated(changes)|
  {
    if n < |changes| {
      AnnotatedPrefix(changes[..|changes| - 1], n);
      assert changes[..|changes| - 1][..n] == changes[..n];
    } else {
      assert changes[..n] == changes;
    }
  }

  lemma {:induction false} NewIdListed(changes: seq<Change>, i: nat)
    requires i < |changes| && changes[i].provenanceId.Some?
    ensures changes[i].provenanceId.value in NewIds(changes)
  {
    if i < |changes| - 1 {
      NewIdListed(changes[..|changes| - 1], i);
    }
  }

  lemma {:induction false} ChangesHaveDistinctIds(changes: seq<Change>, i: nat, j: nat)
    requires Distinct(NewIds(changes)) && i < j < |changes| && changes[i].provenanceId.Some?
    ensures changes[i].provenanceId != changes[j].provenanceId
  {
    var n := |changes| - 1;
    var front := NewIds(changes[..n]);
    assert front == NewIds(changes)[..|front|];
    if j < n {
      ChangesHaveDistinctIds(changes[..n], i, j);
    } else if changes[j].provenanceId.Some? {
      NewIdListed(changes[..n], i);
      var k :| 0 <= k < |front| && front[k] == changes[i].provenanceId.value;
      assert NewIds(changes)[k] == front[k] && NewIds(changes)[|front|] == changes[j].provenanceId.value;
    }
  }

  ghost predicate ChangesNameFields(changes: seq<Change>) {
    forall i :: 0 <= i < |changes| ==> changes[i].changed != {}
  }

  lemma {:induction false} ItemsNameFields(token: string, c: Collection, before: seq<Entity>, after: seq<Entity>,
                                           w: Walk)
    requires |before| == |after| && ChangesNameFields(w.changes)
    ensures ChangesNameFields(AnnotateItems(token, c, before, after, w).1.changes)
  {
    if after != [] {
      ItemsNameFields(token, c, before[..|after| - 1], after[..|after| - 1], w);
    }
  }

  lemma {:induction false} CollectionsNameFields(token: string, before: seq<Collection>, after: seq<Collection>,
                                                 w: Walk)
    requires SameShape(before, after) && ChangesNameFields(w.changes)
    ensures ChangesNameFields(AnnotateCollections(token, before, after, w).1.changes)
  {
    if after != [] {
      var n := |after| - 1;
      CollectionsNameFields(token, before[..n], after[..n], w);
      ItemsNameFields(token, after[n], before[n].items, after[n].items,
                      AnnotateCollections(token, before[..n], after[..n], w).1);
    }
  }

  /** The audit of an accepted review meets every rule of its own schema, also when it is truncated, and
      its counts are those of the graphs: one annotated change per edited entity, one more for the title
      or summary. */
  lemma AuditMeetsItsRules(draft: Graph, reviewed: Graph, publicationGraphId: string, rules: Graph -> bool)
    requires AnnotateHumanReview(draft, reviewed, publicationGraphId, rules).Ok?
    ensures var audit := AnnotateHumanReview(draft, reviewed, publicationGraphId, rules).value.audit;
            && AuditAccepted(audit)
            && audit.annotatedEntityCount == EditedEntities(draft.collections, reviewed.collections)
            && audit.totalChangeCount == audit.annotatedEntityCount
                 + if draft.head.title != reviewed.head.title || draft.head.summary != reviewed.head.summary then 1
                   else 0
  {
    var token, start := TokenOf(publicationGraphId), StartWalk(draft, reviewed);
    var changes := Review(draft, reviewed, publicationGraphId).1.changes;
    assert NewIds(start.changes) == [];
    ReviewWalkInv(draft, reviewed, publicationGraphId);
    CollectionsCount(token, draft.collections, reviewed.collections, start);
    CollectionsTotal(token, draft.collections, reviewed.collections, start);
    CollectionsNameFields(token, draft.collections, reviewed.collections, start);
    AnnotatedCount(changes);
    AuditOfChangesAccepted(publicationGraphId, changes);
  }

  /** The audit of changes that name their fields and carry pairwise different ids is accepted. */
  lemma AuditOfChangesAccepted(publicationGraphId: string, changes: seq<Change>)
    requires Distinct(NewIds(changes)) && ChangesNameFields(changes)
    ensures AuditAccepted(AuditOf(publicationGraphId, changes))
  {
    var audit := AuditOf(publicationGraphId, changes);
    AnnotatedCount(changes);
    AnnotatedPrefix(changes, |audit.changes|);
    assert audit.changes == changes[..|audit.changes|];
    forall i, j | 0 <= i < j < |audit.changes| && audit.changes[i].provenanceId.Some?
      ensures audit.changes[i].provenanceId != audit.changes[j].provenanceId
    {
      ChangesHaveDistinctIds(changes, i, j);
    }
    if !audit.truncated {
      assert audit.changes == changes;
    }
  }

  lemma {:induction false} ItemsTotal(token: string, c: Collection, before: seq<Entity>, after: seq<Entity>, w: Walk)
    requires |before| == |after|
    ensures |AnnotateItems(token, c, before, after, w).1.changes| == |w.changes| + EditedItems(before, after)
  {
    if after != [] {
      ItemsTotal(token, c, before[..|after| - 1], after[..|after| - 1], w);
    }
  }

  lemma {:induction false} CollectionsTotal(token: string, before: seq<Collection>, after: seq<Collection>, w: Walk)
    requires SameShape(before, after)
    ensures |AnnotateCollections(token, before, after, w).1.changes| == |w.changes| + EditedEntities(before, after)
  {
    if after != [] {
      var n := |after| - 1;
      CollectionsTotal(token, before[..n], after[..n], w);
      ItemsTotal(token, after[n], before[n].items, after[n].items,
                 AnnotateCollections(token, before[..n], after[..n], w).1);
    }
  }
}
