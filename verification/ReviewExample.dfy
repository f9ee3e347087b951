/** A case of ten thousand facts: the annotation of its review is not undone by stripping
    (convex/caseCompileReplay.ts:144-148).

    This concerns the two functions alone. The graph schema has no upper bound on facts, so annotation accepts such
    a review; but a graph of this size is larger than any record the store takes (Publications.OverLimitIsRefused),
    so no stored publication is of this kind. */
module ReviewExample {
  import opened Sequences
  import opened ReviewIds
  import opened HumanReview
  import opened ReviewReplay
  import opened ReviewAudit

  // ---------------------------------------------------------------- the case

  /** The fields of every entity besides id and provenance, by entity id. */
  type Fields = string -> map<string, string>

  const SEGMENTS: seq<Segment> := [Segment("segment:1", "The complaint.")]

  function SourceId(n: nat): string {
    "prov:" + Decimal(n)
  }

  /** The n-th entry of the graph cites its one source segment. */
  function Cited(n: nat): seq<Provenance> {
    [Provenance(SourceId(n), FromSource, ["segment:1"], Written("Stated in the complaint."), 1.0)]
  }

  function Item(fields: Fields, id: string, n: nat): Entity {
    Entity(id, fields(id), Cited(n))
  }

  function FactAt(fields: Fields, wording: string, i: nat): Entity {
    var id := "fact:" + Decimal(i);
    Entity(id, fields(id)["proposition" := wording], Cited(5 + i))
  }

  function FactCollection(fields: Fields, wording: string): Collection {
    Collection(Fact, "facts", false, seq(10000, i requires 0 <= i < 10000 => FactAt(fields, wording, i)))
  }

  function Before(fields: Fields): seq<Collection> {
    [Collection(JurisdictionProfile, "jurisdictionProfile", true, [Item(fields, "profile:1", 0)]),
     Collection(Party, "parties", false, [Item(fields, "party:1", 1), Item(fields, "party:2", 2)]),
     Collection(Issue, "issues", false, [Item(fields, "issue:1", 3)]),
     Collection(TimelineEvent, "timeline", false, [Item(fields, "event:1", 4)])]
  }

  function After(fields: Fields): seq<Collection> {
    [Collection(Evidence, "evidence", false, [Item(fields, "evidence:1", 10005)]),
     Collection(Witness, "witnesses", false, [Item(fields, "witness:1", 10006)]),
     Collection(PriorStatement, "witnesses.witness:1.priorStatements", false, []),
     Collection(Contradiction, "contradictions", false, []),
     Collection(Settlement, "settlement", true, [Item(fields, "settlement", 10007)]),
     Collection(JuryInstruction, "juryInstructions", false, [Item(fields, "instruction:1", 10008)])]
  }

  /** The case in which every fact has the same wording, with every collection the schema wants. */
  function TenThousandFacts(fields: Fields, compilerMetadata: string, wording: string, status: Lifecycle): Graph {
    Graph(Head("case-graph.v1", "case:1", 1, "Title", "Summary", status, "Disclaimer", SEGMENTS, compilerMetadata),
          Before(fields) + [FactCollection(fields, wording)] + After(fields))
  }

  // ---------------------------------------------------------------- its provenance

  /** The items' lists are the entries number `from` and on. */
  predicate ItemsNumbered(items: seq<Entity>, from: nat) {
    forall k :: 0 <= k < |items| ==> items[k].provenance == Cited(from + k)
  }

  ghost function ItemCount(collections: seq<Collection>): nat {
    if collections == [] then 0
    else ItemCount(collections[..|collections| - 1]) + |collections[|collections| - 1].items|
  }

  ghost predicate Numbered(collections: seq<Collection>) {
    collections != [] ==>
      var n := |collections| - 1;
      Numbered(collections[..n]) && ItemsNumbered(collections[n].items, ItemCount(collections[..n]))
  }

  predicate IdsNumbered(ids: seq<string>, from: nat) {
    forall k :: 0 <= k < |ids| ==> ids[k] == SourceId(from + k)
  }

  lemma {:induction false} ItemIdsNumbered(items: seq<Entity>, from: nat)
    requires ItemsNumbered(items, from)
    ensures |Concat(ItemIds(items))| == |items| && IdsNumbered(Concat(ItemIds(items)), from)
  {
    if items != [] {
      var n := |items| - 1;
      ItemIdsNumbered(items[..n], from);
      assert items == items[..n] + [items[n]];
      ItemIdsSnoc(items[..n], items[n]);
      assert ProvenanceIds(items[n].provenance) == [SourceId(from + n)];
    }
  }

  lemma {:induction false} AllIdsNumbered(collections: seq<Collection>)
    requires Numbered(collections)
    ensures |AllIds(collections)| == ItemCount(collections) && IdsNumbered(AllIds(collections), 0)
  {
    if collections != [] {
      var n := |collections| - 1;
      AllIdsNumbered(collections[..n]);
      ItemIdsNumbered(collections[n].items, ItemCount(collections[..n]));
    }
  }

  lemma NumberedIdsDistinct(ids: seq<string>)
    requires IdsNumbered(ids, 0)
    ensures Distinct(ids)
  {
    forall i, j | 0 <= i < j < |ids| ensures ids[i] != ids[j] {
      ValueOfDecimal(i);
      ValueOfDecimal(j);
      assert SourceId(i)[|"prov:"|..] == Decimal(i) && SourceId(j)[|"prov:"|..] == Decimal(j);
    }
  }

  lemma CitedFits(n: nat)
    ensures ListFits(SEGMENTS, Cited(n))
  {
    var id := SourceId(n);
    assert SEGMENTS[0].sourceSegmentId == "segment:1" && SEGMENTS[0] in SEGMENTS;
    assert IsSegment(SEGMENTS, "segment:1");
    assert forall i :: 5 <= i < |id| ==> id[i] == Decimal(n)[i - 5];
    assert IsEntityId(id);
  }

  lemma {:induction false} NumberedFit(collections: seq<Collection>, i: nat, k: nat)
    requires Numbered(collections) && i < |collections| && k < |collections[i].items|
    ensures ListFits(SEGMENTS, collections[i].items[k].provenance)
  {
    var n := |collections| - 1;
    if i < n {
      NumberedFit(collections[..n], i, k);
    } else {
      CitedFits(ItemCount(collections[..n]) + k);
    }
  }

  lemma NumberedSnoc(collections: seq<Collection>, c: Collection, from: nat)
    requires Numbered(collections) && ItemCount(collections) == from && ItemsNumbered(c.items, from)
    ensures Numbered(collections + [c]) && ItemCount(collections + [c]) == from + |c.items|
  {
    assert (collections + [c])[..|collections|] == collections;
  }

  lemma NumberedTwo(collections: seq<Collection>, c: Collection, d: Collection, from: nat)
    requires Numbered(collections) && ItemCount(collections) == from
    requires ItemsNumbered(c.items, from) && ItemsNumbered(d.items, from + |c.items|)
    ensures Numbered(collections + [c, d]) && ItemCount(collections + [c, d]) == from + |c.items| + |d.items|
  {
    NumberedSnoc(collections, c, from);
    NumberedSnoc(collections + [c], d, from + |c.items|);
    assert collections + [c, d] == (collections + [c]) + [d];
  }

  lemma BeforeNumbered(fields: Fields)
    ensures Numbered(Before(fields)) && ItemCount(Before(fields)) == 5
  {
    var cs := Before(fields);
    NumberedTwo([], cs[0], cs[1], 0);
    NumberedTwo([] + [cs[0], cs[1]], cs[2], cs[3], 3);
    assert cs == ([] + [cs[0], cs[1]]) + [cs[2], cs[3]];
  }

  lemma AfterNumbered(fields: Fields, front: seq<Collection>)
    requires Numbered(front) && ItemCount(front) == 10005
    ensures Numbered(front + After(fields))
  {
    var cs := After(fields);
    var middle := front + [cs[0], cs[1]];
    NumberedTwo(front, cs[0], cs[1], 10005);
    NumberedTwo(middle, cs[2], cs[3], 10007);
    NumberedTwo(middle + [cs[2], cs[3]], cs[4], cs[5], 10007);
    assert front + cs == (middle + [cs[2], cs[3]]) + [cs[4], cs[5]];
  }

  lemma CaseNumbered(fields: Fields, wording: string)
    ensures Numbered(Before(fields) + [FactCollection(fields, wording)] + After(fields))
  {
    BeforeNumbered(fields);
    NumberedSnoc(Before(fields), FactCollection(fields, wording), 5);
    AfterNumbered(fields, Before(fields) + [FactCollection(fields, wording)]);
  }

  /** The schema accepts everything of the graph but provenance, which is judged apart. */
  predicate Accepted(rules: Graph -> bool, g: Graph) {
    rules(Graph(g.head, Erase(g.collections)))
  }

  lemma NumberedIsValid(g: Graph, rules: Graph -> bool)
    requires Numbered(g.collections) && g.head.sourceSegments == SEGMENTS && Accepted(rules, g)
    ensures Valid(g, rules)
  {
    AllIdsNumbered(g.collections);
    NumberedIdsDistinct(AllIds(g.collections));
    forall i, k | 0 <= i < |g.collections| && 0 <= k < |g.collections[i].items|
      ensures ListFits(g.head.sourceSegments, g.collections[i].items[k].provenance)
    {
      NumberedFit(g.collections, i, k);
    }
  }

  // ---------------------------------------------------------------- its review

  lemma {:induction false} AllFactsEdited(fields: Fields, before: seq<Entity>, after: seq<Entity>, n: nat)
    requires |before| == |after| == n
    requires forall i :: 0 <= i < n ==>
              before[i] == FactAt(fields, "alleged", i) && after[i] == FactAt(fields, "agreed", i)
    ensures EditedItems(before, after) == n
  {
    if n > 0 {
      AllFactsEdited(fields, before[..n - 1], after[..n - 1], n - 1);
      FactEdited(fields, n - 1);
    }
  }

  lemma FactEdited(fields: Fields, i: nat)
    ensures ChangedFields(FactAt(fields, "alleged", i), FactAt(fields, "agreed", i)) != {}
  {
    var before, after := FactAt(fields, "alleged", i), FactAt(fields, "agreed", i);
    assert "alleged" != "agreed";
    assert before.fields["proposition"] == "alleged" && after.fields["proposition"] == "agreed";
    assert FieldOf(before, "proposition") != FieldOf(after, "proposition");
    assert "proposition" in ChangedFields(before, after);
  }

  lemma {:induction false} EditedInOne(before: seq<Collection>, after: seq<Collection>, i: nat)
    requires SameShape(before, after) && i < |after|
    ensures EditedEntities(before, after) >= EditedItems(before[i].items, after[i].items)
  {
    var n := |after| - 1;
    if i < n {
      EditedInOne(before[..n], after[..n], i);
    }
  }

  /** The draft and its review carry the same provenance. */
  lemma ReviewKeepsProvenance(fields: Fields, others: seq<Collection>, more: seq<Collection>)
    ensures SameProvenance(others + [FactCollection(fields, "alleged")] + more,
                           others + [FactCollection(fields, "agreed")] + more)
  {
  }

  lemma ReviewEdits(fields: Fields, others: seq<Collection>, more: seq<Collection>)
    requires SameShape(others + [FactCollection(fields, "alleged")] + more,
                       others + [FactCollection(fields, "agreed")] + more)
    ensures EditedEntities(others + [FactCollection(fields, "alleged")] + more,
                           others + [FactCollection(fields, "agreed")] + more) >= 10000
  {
    var before := others + [FactCollection(fields, "alleged")] + more;
    var after := others + [FactCollection(fields, "agreed")] + more;
    assert before[|others|] == FactCollection(fields, "alleged") && after[|others|] == FactCollection(fields, "agreed");
    AllFactsEdited(fields, before[|others|].items, after[|others|].items, 10000);
    EditedInOne(before, after, |others|);
  }

  /** More edits than four digits can number: accepted, but not replayable. */
  lemma ManyEditsAreNotReplayable(draft: Graph, reviewed: Graph, publicationGraphId: string, rules: Graph -> bool)
    requires Valid(draft, rules) && Valid(reviewed, rules) && SameImmutableFields(draft.head, reviewed.head)
    requires SameProvenance(draft.collections, reviewed.collections) && IsPublicationId(publicationGraphId)
    requires EditedEntities(draft.collections, reviewed.collections) >= 10000
    ensures AnnotateHumanReview(draft, reviewed, publicationGraphId, rules).Ok?
    ensures !PublicationRebuilds(draft, AnnotateHumanReview(draft, reviewed, publicationGraphId, rules).value,
                                 publicationGraphId, rules)
  {
    AcceptedExactly(draft, reviewed, publicationGraphId, rules);
    PublicationReplaysExactly(draft, reviewed, publicationGraphId, rules);
  }

  /** Annotation accepts the review of ten thousand facts, under any schema that accepts the two graphs apart from
      provenance, and stripping and annotating again does not reproduce it: the last review ids have five digits,
      which the strip pattern does not recognise. */
  lemma TenThousandEditsAreNotReplayable(fields: Fields, compilerMetadata: string, publicationGraphId: string,
                                         rules: Graph -> bool)
    requires IsPublicationId(publicationGraphId)
    requires Accepted(rules, TenThousandFacts(fields, compilerMetadata, "alleged", Draft))
    requires Accepted(rules, TenThousandFacts(fields, compilerMetadata, "agreed", Published))
    ensures var draft := TenThousandFacts(fields, compilerMetadata, "alleged", Draft);
            var reviewed := TenThousandFacts(fields, compilerMetadata, "agreed", Published);
            && AnnotateHumanReview(draft, reviewed, publicationGraphId, rules).Ok?
            && !PublicationRebuilds(draft, AnnotateHumanReview(draft, reviewed, publicationGraphId, rules).value,
                                    publicationGraphId, rules)
  {
    var draft := TenThousandFacts(fields, compilerMetadata, "alleged", Draft);
    var reviewed := TenThousandFacts(fields, compilerMetadata, "agreed", Published);
    CaseNumbered(fields, "alleged");
    CaseNumbered(fields, "agreed");
    NumberedIsValid(draft, rules);
    NumberedIsValid(reviewed, rules);
    ReviewKeepsProvenance(fields, Before(fields), After(fields));
    ReviewEdits(fields, Before(fields), After(fields));
    ManyEditsAreNotReplayable(draft, reviewed, publicationGraphId, rules);
  }
}
