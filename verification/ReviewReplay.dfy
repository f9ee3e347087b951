/** Annotating a reviewed graph and stripping it again are inverse, exactly as long as four digits suffice. */
module ReviewReplay {
  import opened Outcomes
  import opened Sequences
  import opened ReviewIds
  import opened HumanReview

  // ---------------------------------------------------------------- the ids of a graph

  lemma {:induction false} ConcatMembers<T>(parts: seq<seq<T>>, k: nat)
    requires k < |parts|
    ensures forall x :: x in parts[k] ==> x in Concat(parts)
  {
    if k < |parts| - 1 {
      ConcatMembers(parts[..|parts| - 1], k);
    }
  }

  lemma {:induction false} ItemIdsListed(collections: seq<Collection>, i: nat, k: nat)
    requires i < |collections| && k < |collections[i].items|
    ensures forall p :: p in collections[i].items[k].provenance ==> p.provenanceId in AllIds(collections)
  {
    if i < |collections| - 1 {
      ItemIdsListed(collections[..|collections| - 1], i, k);
    } else {
      var c := collections[i];
      ConcatMembers(ItemIds(c.items), k);
      forall p | p in c.items[k].provenance ensures p.provenanceId in AllIds(collections) {
        var j :| 0 <= j < |c.items[k].provenance| && c.items[k].provenance[j] == p;
        assert ProvenanceIds(c.items[k].provenance)[j] == p.provenanceId;
        assert p.provenanceId in ItemIds(c.items)[k];
      }
    }
  }

  function IdsOf(collections: seq<Collection>): set<string> {
    set id | id in AllIds(collections)
  }

  ghost predicate ItemsKnown(items: seq<Entity>, ids: set<string>) {
    forall k, p :: 0 <= k < |items| && p in items[k].provenance ==> p.provenanceId in ids
  }

  ghost predicate CollectionsKnown(collections: seq<Collection>, ids: set<string>) {
    forall i :: 0 <= i < |collections| ==> ItemsKnown(collections[i].items, ids)
  }

  /** A reviewed graph with the draft's provenance mentions only the draft's ids. */
  lemma ReviewedIsKnown(draft: seq<Collection>, reviewed: seq<Collection>)
    requires SameProvenance(draft, reviewed)
    ensures CollectionsKnown(reviewed, IdsOf(draft))
  {
    forall i, k, p | 0 <= i < |reviewed| && 0 <= k < |reviewed[i].items| && p in reviewed[i].items[k].provenance
      ensures p.provenanceId in IdsOf(draft)
    {
      assert draft[i].items[k].provenance == reviewed[i].items[k].provenance;
      ItemIdsListed(draft, i, k);
    }
  }

  // ---------------------------------------------------------------- stripping undoes annotation

  lemma {:induction false} KnownIsRetained(provenance: seq<Provenance>, ids: set<string>, token: string)
    requires forall p :: p in provenance ==> p.provenanceId in ids
    ensures Retained(provenance, ids, token) == provenance
  {
    if provenance != [] {
      KnownIsRetained(provenance[..|provenance| - 1], ids, token);
    }
  }

  /** Stripping an entity's fresh provenance recovers the entity exactly when its number has four digits. */
  lemma StripEdit(token: string, c: Collection, before: Entity, after: Entity, w: Walk, ids: set<string>)
    requires ids <= w.used && forall p :: p in after.provenance ==> p.provenanceId in ids
    ensures var (annotated, next) := RecordEdit(token, c, before, after, w);
            && w.sequence <= next.sequence && w.used <= next.used
            && (annotated.(provenance := Retained(annotated.provenance, ids, token)) == after
                <==> next.sequence <= 9999 || next.sequence == w.sequence)
  {
    var changed := ChangedFields(before, after);
    if changed == {} {
      KnownIsRetained(after.provenance, ids, token);
    } else {
      var n := NextFree(w.used, token, w.sequence);
      FreshIsStripped(after.provenance, ReviewProvenance(ReviewId(token, n), c.entityType, changed), ids, token, n);
    }
  }

  /** Of known entries and a fresh one, stripping keeps the known ones, and the fresh one beyond four digits. */
  lemma FreshIsStripped(provenance: seq<Provenance>, p: Provenance, ids: set<string>, token: string, n: nat)
    requires forall q :: q in provenance ==> q.provenanceId in ids
    requires p.provenanceId == ReviewId(token, n) && p.provenanceId !in ids
    ensures Retained(provenance + [p], ids, token) == provenance + if n > 9999 then [p] else []
  {
    KnownIsRetained(provenance, ids, token);
    RecognisedExactlyToFourDigits(token, n);
    assert (provenance + [p])[..|provenance|] == provenance;
  }

  lemma {:induction false} StripItemsUndoes(token: string, c: Collection, before: seq<Entity>, after: seq<Entity>,
                                            w: Walk, ids: set<string>)
    requires |before| == |after| && ids <= w.used && ItemsKnown(after, ids) && w.sequence <= 9999
    ensures var (annotated, next) := AnnotateItems(token, c, before, after, w);
            && w.sequence <= next.sequence && w.used <= next.used
            && (StripItems(annotated, ids, token) == after <==> next.sequence <= 9999)
  {
    if after != [] {
      var n := |after| - 1;
      var (front, mid) := AnnotateItems(token, c, before[..n], after[..n], w);
      StripItemsUndoes(token, c, before[..n], after[..n], w, ids);
      StripEdit(token, c, before[n], after[n], mid, ids);
      var (last, next) := RecordEdit(token, c, before[n], after[n], mid);
      StripItemsSnoc(front, last, after, ids, token);
    }
  }

  lemma StripItemsSnoc(front: seq<Entity>, last: Entity, after: seq<Entity>, ids: set<string>, token: string)
    requires |after| == |front| + 1
    ensures StripItems(front + [last], ids, token) == after
            <==> && StripItems(front, ids, token) == after[..|front|]
                 && last.(provenance := Retained(last.provenance, ids, token)) == after[|front|]
  {
    var n := |front|;
    var stripped := StripItems(front + [last], ids, token);
    assert stripped[..n] == StripItems(front, ids, token);
    assert stripped[n] == last.(provenance := Retained(last.provenance, ids, token));
    assert after == after[..n] + [after[n]] && stripped == stripped[..n] + [stripped[n]];
  }

  function StripCollections(collections: seq<Collection>, ids: set<string>, token: string): seq<Collection> {
    seq(|collections|, i requires 0 <= i < |collections| =>
      collections[i].(items := StripItems(collections[i].items, ids, token)))
  }

  lemma {:induction false} StripCollectionsUndoes(token: string, before: seq<Collection>, after: seq<Collection>,
                                                  w: Walk, ids: set<string>)
    requires SameShape(before, after) && ids <= w.used && CollectionsKnown(after, ids) && w.sequence <= 9999
    ensures var (annotated, next) := AnnotateCollections(token, before, after, w);
            && w.sequence <= next.sequence && w.used <= next.used
            && (StripCollections(annotated, ids, token) == after <==> next.sequence <= 9999)
  {
    if after != [] {
      var n := |after| - 1;
      var (front, mid) := AnnotateCollections(token, before[..n], after[..n], w);
      StripCollectionsUndoes(token, before[..n], after[..n], w, ids);
      var (items, next) := AnnotateItems(token, after[n], before[n].items, after[n].items, mid);
      AnnotateItemsGrows(token, after[n], before[n].items, after[n].items, mid);
      StripCollectionsSnoc(front, items, after, ids, token);
      if mid.sequence <= 9999 {
        StripItemsUndoes(token, after[n], before[n].items, after[n].items, mid, ids);
      }
    }
  }

  lemma StripCollectionsSnoc(front: seq<Collection>, items: seq<Entity>, after: seq<Collection>, ids: set<string>,
                             token: string)
    requires |after| == |front| + 1
    ensures StripCollections(front + [after[|front|].(items := items)], ids, token) == after
            <==> && StripCollections(front, ids, token) == after[..|front|]
                 && StripItems(items, ids, token) == after[|front|].items
  {
    var n := |front|;
    var stripped := StripCollections(front + [after[n].(items := items)], ids, token);
    assert stripped[..n] == StripCollections(front, ids, token);
    assert stripped[n] == after[n].(items := StripItems(items, ids, token));
    assert after == after[..n] + [after[n]] && stripped == stripped[..n] + [stripped[n]];
  }

  lemma {:induction false} AnnotateItemsGrows(token: string, c: Collection, before: seq<Entity>, after: seq<Entity>,
                                              w: Walk)
    requires |before| == |after|
    ensures w.sequence <= AnnotateItems(token, c, before, after, w).1.sequence
    ensures w.used <= AnnotateItems(token, c, before, after, w).1.used
  {
    if after != [] {
      var n := |after| - 1;
      AnnotateItemsGrows(token, c, before[..n], after[..n], w);
    }
  }

  /** Stripping the annotated graph gives back the reviewed graph exactly when the last review sequence
      number has four digits. */
  lemma StripInvertsAnnotation(draft: Graph, reviewed: Graph, publicationGraphId: string, rules: Graph -> bool)
    requires AnnotateHumanReview(draft, reviewed, publicationGraphId, rules).Ok?
    ensures var annotation := AnnotateHumanReview(draft, reviewed, publicationGraphId, rules).value;
            Strip(draft, annotation.caseGraph, TokenOf(publicationGraphId)) == reviewed
            <==> Review(draft, reviewed, publicationGraphId).1.sequence <= 9999
  {
    var annotation := AnnotateHumanReview(draft, reviewed, publicationGraphId, rules).value;
    var token, ids := TokenOf(publicationGraphId), IdsOf(draft.collections);
    ReviewedIsKnown(draft.collections, reviewed.collections);
    StripCollectionsUndoes(token, draft.collections, reviewed.collections, StartWalk(draft, reviewed), ids);
    assert Strip(draft, annotation.caseGraph, token).collections
        == StripCollections(annotation.caseGraph.collections, ids, token);
  }

  // ---------------------------------------------------------------- ids handed out by the walk

  /** The provenance ids of the changes, in order. */
  function NewIds(changes: seq<Change>): seq<string> {
    if changes == [] then []
    else
      var last := changes[|changes| - 1];
      NewIds(changes[..|changes| - 1]) + if last.provenanceId.Some? then [last.provenanceId.value] else []
  }

  /** The numbers up to `limit` whose id the draft already uses. */
  ghost function Collisions(ids: set<string>, token: string, limit: nat): nat {
    if limit == 0 then 0
    else Collisions(ids, token, limit - 1) + if ReviewId(token, limit) in ids then 1 else 0
  }

  /** What the walk keeps: used ids are the draft's and the ones handed out; handed-out ids are new,
      pairwise different and numbered up to the counter; and the counter counts them and the collisions. */
  ghost predicate WalkInv(w: Walk, ids: set<string>, token: string) {
    && ids <= w.used
    && (forall id :: id in w.used <==> id in ids || id in NewIds(w.changes))
    && (forall id :: id in NewIds(w.changes) ==> id !in ids && Numbered(id, token, w.sequence))
    && Distinct(NewIds(w.changes))
    && w.sequence == |NewIds(w.changes)| + Collisions(ids, token, w.sequence)
  }

  ghost predicate Numbered(id: string, token: string, limit: nat) {
    exists n: nat :: 1 <= n <= limit && id == ReviewId(token, n)
  }

  lemma NewIdsSnoc(changes: seq<Change>, c: Change)
    ensures NewIds(changes + [c]) == NewIds(changes) + if c.provenanceId.Some? then [c.provenanceId.value] else []
  {
    assert (changes + [c])[..|changes|] == changes;
  }

  /** Every number the allocator skips belongs to the draft. */
  lemma {:induction false} SkippedAreCollisions(w: Walk, ids: set<string>, token: string, m: nat, n: nat)
    requires WalkInv(w, ids, token) && w.sequence <= m <= n
    requires forall k :: m < k <= n ==> ReviewId(token, k) in w.used
    ensures Collisions(ids, token, n) == Collisions(ids, token, m) + (n - m)
    decreases n - m
  {
    if m < n {
      SkippedAreCollisions(w, ids, token, m, n - 1);
      var id := ReviewId(token, n);
      assert id in w.used;
      if id in NewIds(w.changes) {
        var k: nat :| 1 <= k <= w.sequence && id == ReviewId(token, k);
        ReviewIdInjective(token, k, n);
      }
    }
  }

  lemma NumberedGrows(id: string, token: string, m: nat, n: nat)
    requires Numbered(id, token, m) && m <= n
    ensures Numbered(id, token, n)
  {
    var k: nat :| 1 <= k <= m && id == ReviewId(token, k);
    assert k <= n;
  }

  lemma AllocationKeepsWalkInv(w: Walk, ids: set<string>, token: string, n: nat, change: Change)
    requires WalkInv(w, ids, token) && n == NextFree(w.used, token, w.sequence)
    requires change.provenanceId == Some(ReviewId(token, n))
    ensures WalkInv(Walk(w.used + {ReviewId(token, n)}, n, w.changes + [change]), ids, token)
  {
    var id := ReviewId(token, n);
    AllocationCounts(w, ids, token, n);
    NewIdsSnoc(w.changes, change);
    assert id !in ids && id !in NewIds(w.changes);
    NewIdsNumbered(NewIds(w.changes), token, w.sequence, n);
  }

  /** The counter after an allocation counts one id more and the collisions skipped. */
  lemma AllocationCounts(w: Walk, ids: set<string>, token: string, n: nat)
    requires WalkInv(w, ids, token) && n == NextFree(w.used, token, w.sequence)
    ensures n == |NewIds(w.changes)| + 1 + Collisions(ids, token, n)
  {
    forall k | w.sequence < k <= n - 1 ensures ReviewId(token, k) in w.used {
      NextFreeSkipsUsed(w.used, token, w.sequence, k);
    }
    SkippedAreCollisions(w, ids, token, w.sequence, n - 1);
  }

  /** Ids numbered up to a counter, and the id of a later number. */
  lemma NewIdsNumbered(ids: seq<string>, token: string, sequence: nat, n: nat)
    requires sequence < n && forall id :: id in ids ==> Numbered(id, token, sequence)
    ensures forall id :: id in ids + [ReviewId(token, n)] ==> Numbered(id, token, n)
  {
    assert Numbered(ReviewId(token, n), token, n);
    forall id | id in ids ensures Numbered(id, token, n) {
      NumberedGrows(id, token, sequence, n);
    }
  }

  lemma EditKeepsWalkInv(token: string, c: Collection, before: Entity, after: Entity, w: Walk, ids: set<string>)
    requires WalkInv(w, ids, token)
    ensures WalkInv(RecordEdit(token, c, before, after, w).1, ids, token)
  {
    var changed := ChangedFields(before, after);
    if changed != {} {
      var n := NextFree(w.used, token, w.sequence);
      AllocationKeepsWalkInv(w, ids, token, n,
                             Change(PathOf(c, after.id), c.entityType, after.id, changed, Some(ReviewId(token, n))));
    }
  }

  lemma {:induction false} ItemsKeepWalkInv(token: string, c: Collection, before: seq<Entity>, after: seq<Entity>,
                                            w: Walk, ids: set<string>)
    requires |before| == |after| && WalkInv(w, ids, token)
    ensures WalkInv(AnnotateItems(token, c, before, after, w).1, ids, token)
  {
    if after != [] {
      var n := |after| - 1;
      ItemsKeepWalkInv(token, c, before[..n], after[..n], w, ids);
      EditKeepsWalkInv(token, c, before[n], after[n], AnnotateItems(token, c, before[..n], after[..n], w).1, ids);
    }
  }

  lemma {:induction false} CollectionsKeepWalkInv(token: string, before: seq<Collection>, after: seq<Collection>,
                                                  w: Walk, ids: set<string>)
    requires SameShape(before, after) && WalkInv(w, ids, token)
    ensures WalkInv(AnnotateCollections(token, before, after, w).1, ids, token)
  {
    if after != [] {
      var n := |after| - 1;
      CollectionsKeepWalkInv(token, before[..n], after[..n], w, ids);
      ItemsKeepWalkInv(token, after[n], before[n].items, after[n].items,
                       AnnotateCollections(token, before[..n], after[..n], w).1, ids);
    }
  }

  lemma ReviewWalkInv(draft: Graph, reviewed: Graph, publicationGraphId: string)
    requires SameShape(draft.collections, reviewed.collections)
    ensures WalkInv(Review(draft, reviewed, publicationGraphId).1, IdsOf(draft.collections),
                    TokenOf(publicationGraphId))
  {
    var start := StartWalk(draft, reviewed);
    assert NewIds(start.changes) == [];
    CollectionsKeepWalkInv(TokenOf(publicationGraphId), draft.collections, reviewed.collections, start,
                           IdsOf(draft.collections));
  }

  // ---------------------------------------------------------------- how many entities changed

  function EditedItems(before: seq<Entity>, after: seq<Entity>): nat
    requires |before| == |after|
  {
    if after == [] then 0
    else
      var n := |after| - 1;
      EditedItems(before[..n], after[..n]) + if ChangedFields(before[n], after[n]) != {} then 1 else 0
  }

  /** The number of entities of the reviewed graph that differ from the draft outside id and provenance. */
  function EditedEntities(before: seq<Collection>, after: seq<Collection>): nat
    requires SameShape(before, after)
  {
    if after == [] then 0
    else
      var n := |after| - 1;
      EditedEntities(before[..n], after[..n]) + EditedItems(before[n].items, after[n].items)
  }

  lemma {:induction false} ItemsCount(token: string, c: Collection, before: seq<Entity>, after: seq<Entity>, w: Walk)
    requires |before| == |after|
    ensures |NewIds(AnnotateItems(token, c, before, after, w).1.changes)|
            == |NewIds(w.changes)| + EditedItems(before, after)
  {
    if after != [] {
      var n := |after| - 1;
      ItemsCount(token, c, before[..n], after[..n], w);
      var mid := AnnotateItems(token, c, before[..n], after[..n], w).1;
      var next := RecordEdit(token, c, before[n], after[n], mid).1;
      if next != mid {
        NewIdsSnoc(mid.changes, next.changes[|mid.changes|]);
        assert next.changes == mid.changes + [next.changes[|mid.changes|]];
      }
    }
  }

  lemma {:induction false} CollectionsCount(token: string, before: seq<Collection>, after: seq<Collection>, w: Walk)
    requires SameShape(before, after)
    ensures |NewIds(AnnotateCollections(token, before, after, w).1.changes)|
            == |NewIds(w.changes)| + EditedEntities(before, after)
  {
    if after != [] {
      var n := |after| - 1;
      CollectionsCount(token, before[..n], after[..n], w);
      ItemsCount(token, after[n], before[n].items, after[n].items,
                 AnnotateCollections(token, before[..n], after[..n], w).1);
    }
  }

  lemma {:induction false} CollisionsGrow(ids: set<string>, token: string, m: nat, n: nat)
    requires m <= n
    ensures Collisions(ids, token, m) <= Collisions(ids, token, n) <= Collisions(ids, token, m) + (n - m)
    decreases n
  {
    if m < n {
      CollisionsGrow(ids, token, m, n - 1);
    }
  }

  lemma {:induction false} LastIsNotACollision(token: string, before: seq<Collection>, after: seq<Collection>, w: Walk,
                                               ids: set<string>)
    requires SameShape(before, after) && ids <= w.used
    ensures var next := AnnotateCollections(token, before, after, w).1;
            next.sequence == w.sequence || ReviewId(token, next.sequence) !in ids
    ensures ids <= AnnotateCollections(token, before, after, w).1.used
  {
    if after != [] {
      var n := |after| - 1;
      LastIsNotACollision(token, before[..n], after[..n], w, ids);
      LastItemIsNotACollision(token, after[n], before[n].items, after[n].items,
                              AnnotateCollections(token, before[..n], after[..n], w).1, ids);
    }
  }

  lemma {:induction false} LastItemIsNotACollision(token: string, c: Collection, before: seq<Entity>,
                                                   after: seq<Entity>, w: Walk, ids: set<string>)
    requires |before| == |after| && ids <= w.used
    ensures var next := AnnotateItems(token, c, before, after, w).1;
            next.sequence == w.sequence || ReviewId(token, next.sequence) !in ids
    ensures ids <= AnnotateItems(token, c, before, after, w).1.used
  {
    if after != [] {
      var n := |after| - 1;
      LastItemIsNotACollision(token, c, before[..n], after[..n], w, ids);
    }
  }

  /** The last sequence number has four digits exactly when the edits and the draft's own colliding ids
      together fit into 9999 numbers: a condition on the two graphs alone. */
  lemma FourDigitsSuffice(draft: Graph, reviewed: Graph, publicationGraphId: string)
    requires SameShape(draft.collections, reviewed.collections)
    ensures Review(draft, reviewed, publicationGraphId).1.sequence <= 9999
            <==> EditedEntities(draft.collections, reviewed.collections)
                 + Collisions(IdsOf(draft.collections), TokenOf(publicationGraphId), 9999) <= 9999
  {
    var token, ids := TokenOf(publicationGraphId), IdsOf(draft.collections);
    var start := StartWalk(draft, reviewed);
    var w := Review(draft, reviewed, publicationGraphId).1;
    assert NewIds(start.changes) == [];
    ReviewWalkInv(draft, reviewed, publicationGraphId);
    CollectionsCount(token, draft.collections, reviewed.collections, start);
    LastIsNotACollision(token, draft.collections, reviewed.collections, start, ids);
    CounterFits(ids, token, w.sequence, EditedEntities(draft.collections, reviewed.collections));
  }

  lemma CounterFits(ids: set<string>, token: string, sequence: nat, edited: nat)
    requires sequence == edited + Collisions(ids, token, sequence)
    requires sequence == 0 || ReviewId(token, sequence) !in ids
    ensures sequence <= 9999 <==> edited + Collisions(ids, token, 9999) <= 9999
  {
    if sequence <= 9999 {
      CollisionsGrow(ids, token, sequence, 9999);
    } else {
      CollisionsGrow(ids, token, 9999, sequence - 1);
    }
  }

  // ---------------------------------------------------------------- main results

  /** The one provenance entry a changed entity gains: authored by the server, naming exactly the changed
      fields, under a number whose id was not in use. */
  predicate GainsAt(token: string, entityType: EntityType, before: Entity, after: Entity, e: Entity, used: set<string>,
                    n: nat) {
    && e.provenance
       == after.provenance + [ReviewProvenance(ReviewId(token, n), entityType, ChangedFields(before, after))]
    && ReviewId(token, n) !in used
  }

  /** What annotation makes of an entity: nothing if it is unchanged, else one entry more. */
  ghost predicate Gains(token: string, entityType: EntityType, before: Entity, after: Entity, e: Entity,
                        used: set<string>) {
    && e == after.(provenance := e.provenance)
    && if ChangedFields(before, after) == {} then e == after
       else exists n: nat :: GainsAt(token, entityType, before, after, e, used, n)
  }

  lemma EditGains(token: string, c: Collection, before: Entity, after: Entity, w: Walk, used: set<string>)
    requires used <= w.used
    ensures Gains(token, c.entityType, before, after, RecordEdit(token, c, before, after, w).0, used)
  {
    if ChangedFields(before, after) != {} {
      var n := NextFree(w.used, token, w.sequence);
      assert GainsAt(token, c.entityType, before, after, RecordEdit(token, c, before, after, w).0, used, n);
    }
  }

  lemma AnnotatedKeepsItems(token: string, c: Collection, before: seq<Entity>, after: seq<Entity>, w: Walk, k: nat,
                            used: set<string>)
    requires |before| == |after| && k < |after| && used <= w.used
    ensures Gains(token, c.entityType, before[k], after[k], AnnotateItems(token, c, before, after, w).0[k], used)
  {
    var mid := ItemFrom(token, c, before, after, w, k);
    EditGains(token, c, before[k], after[k], mid, used);
  }

  /** An item of an annotated collection is the edit of its item at that point of the walk. */
  lemma {:induction false} ItemFrom(token: string, c: Collection, before: seq<Entity>, after: seq<Entity>, w: Walk,
                                    k: nat)
    returns (mid: Walk)
    requires |before| == |after| && k < |after|
    ensures w.used <= mid.used
    ensures AnnotateItems(token, c, before, after, w).0[k] == RecordEdit(token, c, before[k], after[k], mid).0
  {
    var n := |after| - 1;
    if k < n {
      mid := ItemFrom(token, c, before[..n], after[..n], w, k);
    } else {
      mid := AnnotateItems(token, c, before[..n], after[..n], w).1;
      AnnotateItemsGrows(token, c, before[..n], after[..n], w);
    }
  }

  /** Unchanged entities gain nothing; a changed entity gains exactly one provenance entry, authored by
      the server, naming exactly its changed fields, under an id the draft does not use. */
  lemma {:induction false} EachEntityGains(token: string, before: seq<Collection>, after: seq<Collection>, w: Walk,
                                           i: nat, k: nat)
    requires SameShape(before, after) && i < |after| && k < |after[i].items|
    ensures var c := AnnotateCollections(token, before, after, w).0[i];
            && c == after[i].(items := c.items) && |c.items| == |after[i].items|
            && Gains(token, after[i].entityType, before[i].items[k], after[i].items[k], c.items[k], w.used)
  {
    var n := |after| - 1;
    var front := AnnotateCollections(token, before[..n], after[..n], w);
    if i < n {
      EachEntityGains(token, before[..n], after[..n], w, i, k);
    } else {
      AnnotateCollectionsGrows(token, before[..n], after[..n], w);
      AnnotatedKeepsItems(token, after[n], before[n].items, after[n].items, front.1, k, w.used);
    }
  }

  lemma {:induction false} AnnotateCollectionsGrows(token: string, before: seq<Collection>, after: seq<Collection>,
                                                    w: Walk)
    requires SameShape(before, after)
    ensures w.used <= AnnotateCollections(token, before, after, w).1.used
  {
    if after != [] {
      var n := |after| - 1;
      AnnotateCollectionsGrows(token, before[..n], after[..n], w);
      AnnotateItemsGrows(token, after[n], before[n].items, after[n].items,
                         AnnotateCollections(token, before[..n], after[..n], w).1);
    }
  }

  /** An entity whose stripped provenance is the draft's is the reviewed entity. */
  lemma StrippedItemIsReviewed(token: string, before: seq<Collection>, after: seq<Collection>, w: Walk,
                               ids: set<string>, i: nat, k: nat)
    requires SameProvenance(before, after) && i < |after| && k < |after[i].items|
    requires var stripped := StripCollections(AnnotateCollections(token, before, after, w).0, ids, token);
             SameProvenance(before, stripped)
    ensures StripCollections(AnnotateCollections(token, before, after, w).0, ids, token)[i].items[k]
            == after[i].items[k]
  {
    EachEntityGains(token, before, after, w, i, k);
  }

  lemma StrippedCollectionIsReviewed(token: string, before: seq<Collection>, after: seq<Collection>, w: Walk,
                                     ids: set<string>, i: nat)
    requires SameProvenance(before, after) && i < |after|
    requires var stripped := StripCollections(AnnotateCollections(token, before, after, w).0, ids, token);
             SameProvenance(before, stripped)
    ensures StripCollections(AnnotateCollections(token, before, after, w).0, ids, token)[i] == after[i]
  {
    var stripped := StripCollections(AnnotateCollections(token, before, after, w).0, ids, token);
    CollectionKept(token, before, after, w, i);
    forall k | 0 <= k < |after[i].items| ensures stripped[i].items[k] == after[i].items[k] {
      StrippedItemIsReviewed(token, before, after, w, ids, i, k);
    }
    assert stripped[i].items == after[i].items;
  }

  /** If a stored annotation rebuilds, stripping it must have recovered the reviewed graph. */
  lemma RebuildRecoversReview(draft: Graph, reviewed: Graph, publicationGraphId: string, rules: Graph -> bool)
    requires AnnotateHumanReview(draft, reviewed, publicationGraphId, rules).Ok?
    requires PublicationRebuilds(draft, AnnotateHumanReview(draft, reviewed, publicationGraphId, rules).value,
                                 publicationGraphId, rules)
    ensures Strip(draft, AnnotateHumanReview(draft, reviewed, publicationGraphId, rules).value.caseGraph,
                  TokenOf(publicationGraphId))
         == reviewed
  {
    var annotation := AnnotateHumanReview(draft, reviewed, publicationGraphId, rules).value;
    var token, ids, start := TokenOf(publicationGraphId), IdsOf(draft.collections), StartWalk(draft, reviewed);
    var stripped := Strip(draft, annotation.caseGraph, token);
    assert stripped.collections
           == StripCollections(AnnotateCollections(token, draft.collections, reviewed.collections, start).0, ids,
                               token);
    assert AnnotateHumanReview(draft, stripped, publicationGraphId, rules).Ok?;
    StrippedIsReviewed(token, draft.collections, reviewed.collections, start, ids);
  }

  /** Collections whose stripped provenance is the draft's are the reviewed ones. */
  lemma StrippedIsReviewed(token: string, before: seq<Collection>, after: seq<Collection>, w: Walk, ids: set<string>)
    requires SameProvenance(before, after)
    requires SameProvenance(before, StripCollections(AnnotateCollections(token, before, after, w).0, ids, token))
    ensures StripCollections(AnnotateCollections(token, before, after, w).0, ids, token) == after
  {
    forall i | 0 <= i < |after|
      ensures StripCollections(AnnotateCollections(token, before, after, w).0, ids, token)[i] == after[i]
    {
      StrippedCollectionIsReviewed(token, before, after, w, ids, i);
    }
  }

  lemma {:induction false} CollectionKept(token: string, before: seq<Collection>, after: seq<Collection>, w: Walk,
                                          i: nat)
    requires SameShape(before, after) && i < |after|
    ensures var c := AnnotateCollections(token, before, after, w).0[i];
            c.(items := []) == after[i].(items := []) && |c.items| == |after[i].items|
  {
    if i < |after| - 1 {
      CollectionKept(token, before[..|after| - 1], after[..|after| - 1], w, i);
    }
  }

  /** Replay undoes an annotation exactly when its edits, together with the draft's colliding ids, fit into
      four digits. Which annotations are stored at all is the size limit's matter (Publications). */
  lemma PublicationReplaysExactly(draft: Graph, reviewed: Graph, publicationGraphId: string, rules: Graph -> bool)
    requires AnnotateHumanReview(draft, reviewed, publicationGraphId, rules).Ok?
    ensures PublicationRebuilds(draft, AnnotateHumanReview(draft, reviewed, publicationGraphId, rules).value,
                                publicationGraphId, rules)
            <==> EditedEntities(draft.collections, reviewed.collections)
                 + Collisions(IdsOf(draft.collections), TokenOf(publicationGraphId), 9999) <= 9999
  {
    FourDigitsSuffice(draft, reviewed, publicationGraphId);
    StripInvertsAnnotation(draft, reviewed, publicationGraphId, rules);
    if PublicationRebuilds(draft, AnnotateHumanReview(draft, reviewed, publicationGraphId, rules).value,
                           publicationGraphId, rules) {
      RebuildRecoversReview(draft, reviewed, publicationGraphId, rules);
    }
  }
}
