/** How large a reviewed graph must be: every id a review hands out or steps over is the id of one provenance entry
    of the annotated graph, and every entry takes room in the stored record (convex/caseDrafts.ts:147-151). */
module ReviewSize {
  import opened Sequences
  import opened ReviewIds
  import opened HumanReview
  import opened ReviewReplay
  import opened ReviewAudit

  /** No strict provenance object is shorter than this many bytes besides its id: the shortest has kind "inferred",
      cites nothing, and has a note and a confidence of one character each. */
  const LEAST_ENTRY_BYTES: nat := 85

  /** A review id has at least 33 characters. */
  const LEAST_REVIEW_ID: nat := 33

  /** The least a graph's provenance takes in its JSON text. */
  function ProvenanceBytes(ids: seq<string>): nat {
    if ids == [] then 0
    else ProvenanceBytes(ids[..|ids| - 1]) + LEAST_ENTRY_BYTES + |ids[|ids| - 1]|
  }

  // ---------------------------------------------------------------- counting ids

  lemma {:induction false} LongIdsTakeRoom(ids: seq<string>, long: set<string>)
    requires forall id :: id in long ==> id in ids && |id| >= LEAST_REVIEW_ID
    ensures ProvenanceBytes(ids) >= (LEAST_ENTRY_BYTES + LEAST_REVIEW_ID) * |long|
  {
    if ids != [] {
      var front, last := ids[..|ids| - 1], ids[|ids| - 1];
      assert ids == front + [last];
      LongIdsTakeRoom(front, long - {last});
      if last in long {
        assert long == (long - {last}) + {last};
      } else {
        assert long == long - {last};
      }
    } else {
      assert long == {};
    }
  }

  lemma {:induction false} DistinctCount(ids: seq<string>)
    requires Distinct(ids)
    ensures |set id | id in ids| == |ids|
  {
    if ids != [] {
      var front, last := ids[..|ids| - 1], ids[|ids| - 1];
      assert ids == front + [last];
      DistinctCount(front);
      assert (set id | id in ids) == (set id | id in front) + {last};
    }
  }

  /** The draft's own ids that a review steps over. */
  ghost function CollisionIds(ids: set<string>, token: string, limit: nat): set<string> {
    if limit == 0 then {}
    else CollisionIds(ids, token, limit - 1) + if ReviewId(token, limit) in ids then {ReviewId(token, limit)} else {}
  }

  lemma {:induction false} CollisionIdsCount(ids: set<string>, token: string, limit: nat)
    ensures |CollisionIds(ids, token, limit)| == Collisions(ids, token, limit)
  {
    if limit > 0 {
      CollisionIdsCount(ids, token, limit - 1);
      CollisionIdIsNumbered(ids, token, limit - 1);
      var id := ReviewId(token, limit);
      if id in CollisionIds(ids, token, limit - 1) {
        var n: nat :| 1 <= n <= limit - 1 && id == ReviewId(token, n);
        ReviewIdInjective(token, n, limit);
      }
    }
  }

  lemma {:induction false} CollisionIdIsNumbered(ids: set<string>, token: string, limit: nat)
    ensures forall id :: id in CollisionIds(ids, token, limit) ==> id in ids && Numbered(id, token, limit)
  {
    if limit > 0 {
      CollisionIdIsNumbered(ids, token, limit - 1);
      forall id | id in CollisionIds(ids, token, limit - 1) ensures Numbered(id, token, limit) {
        var n: nat :| 1 <= n <= limit - 1 && id == ReviewId(token, n);
      }
      assert ReviewId(token, limit) in ids ==> Numbered(ReviewId(token, limit), token, limit);
    }
  }

  lemma NumberedIsLong(id: string, token: string, limit: nat)
    requires |token| == 16 && Numbered(id, token, limit)
    ensures |id| >= LEAST_REVIEW_ID
  {
    var n: nat :| 1 <= n <= limit && id == ReviewId(token, n);
    ValueOfPadded(n);
    assert |"prov:review:"| == 12;
  }

  // ---------------------------------------------------------------- main result

  /** The annotated graph carries the reviewed graph's ids and the ids the walk handed out. */
  lemma AnnotatedCarries(draft: Graph, reviewed: Graph, publicationGraphId: string)
    requires SameProvenance(draft.collections, reviewed.collections)
    ensures var (collections, w) := Review(draft, reviewed, publicationGraphId);
            && (forall id :: id in IdsOf(draft.collections) ==> id in AllIds(collections))
            && (forall id :: id in NewIds(w.changes) ==> id in AllIds(collections))
  {
    var token, start := TokenOf(publicationGraphId), StartWalk(draft, reviewed);
    var (collections, w) := Review(draft, reviewed, publicationGraphId);
    assert NewIds(start.changes) == [];
    CollectionsAddIds(token, draft.collections, reviewed.collections, start);
    ReviewedIsKnown(reviewed.collections, draft.collections);
    ListedIdsComeFromItems(draft.collections, IdsOf(reviewed.collections));
    forall id | id in AllIds(reviewed.collections) || id in NewIds(w.changes) ensures id in AllIds(collections) {
      assert id in multiset(AllIds(reviewed.collections)) + multiset(NewIds(w.changes));
      assert id in multiset(AllIds(collections));
    }
  }

  /** So its provenance takes at least 118 bytes for every edit and every collision. */
  lemma EditsTakeRoom(draft: Graph, reviewed: Graph, publicationGraphId: string, limit: nat)
    requires SameProvenance(draft.collections, reviewed.collections) && IsPublicationId(publicationGraphId)
    ensures ProvenanceBytes(AllIds(Review(draft, reviewed, publicationGraphId).0))
            >= (LEAST_ENTRY_BYTES + LEAST_REVIEW_ID)
               * (EditedEntities(draft.collections, reviewed.collections)
                  + Collisions(IdsOf(draft.collections), TokenOf(publicationGraphId), limit))
  {
    var token, ids, start := TokenOf(publicationGraphId), IdsOf(draft.collections), StartWalk(draft, reviewed);
    var (collections, w) := Review(draft, reviewed, publicationGraphId);
    assert NewIds(start.changes) == [];
    ReviewWalkInv(draft, reviewed, publicationGraphId);
    CollectionsCount(token, draft.collections, reviewed.collections, start);
    DistinctCount(NewIds(w.changes));
    CollisionIdsCount(ids, token, limit);
    CollisionIdIsNumbered(ids, token, limit);
    AnnotatedCarries(draft, reviewed, publicationGraphId);
    var added := set id | id in NewIds(w.changes);
    var collisions := CollisionIds(ids, token, limit);
    forall id | id in added + collisions ensures |id| >= LEAST_REVIEW_ID {
      NumberedIsLong(id, token, if id in added then w.sequence else limit);
    }
    assert added !! collisions;
    assert |added + collisions| == |added| + |collisions|;
    LongIdsTakeRoom(AllIds(collections), added + collisions);
  }
}
