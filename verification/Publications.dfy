/** Publishing a reviewed draft (convex/caseDrafts.ts:427-566) and looking the result up again
    (convex/caseCompileReplay.ts:168-336).

    Lookups that take two or three rows only tell none, one and more apart, so they are modelled on all matching
    rows. Ids are derived from the upload, and from owner and upload, by injective functions. */
module Publications {
  import opened Outcomes
  import opened Sequences
  import opened ReviewIds
  import opened HumanReview
  import opened ReviewReplay
  import opened ReviewSize
  import ReviewAudit

  datatype Metadata = Compiled(compilation: string) | Reviewed(compilation: string, humanReview: Audit)

  datatype Row = Row(
    graphId: string, caseId: string, version: int, lifecycle: Lifecycle, isPrivate: bool, ownerId: string,
    uploadId: Option<string>, title: string, graph: Graph, schemaVersion: string, metadata: Option<Metadata>,
    byUser: bool, sourceDigest: string)

  datatype Upload = Upload(
    uploadId: string, ownerId: string, caseId: string, caseVersion: Option<int>, version: int, indexed: bool)

  datatype PublishError = DraftNotFound | Conflict | TooLarge | ReviewFailed(reviewError: ReviewError)

  const MAX_CASE_GRAPH_RECORD_BYTES: nat := 900_000

  /** The graph schema, the source hash in a graph's compiler metadata, the bytes of a record beyond the least its
      provenance takes, the derived ids, and the lookup's checks on the compilation audit and upload metadata. */
  datatype Env = Env(
    rules: Graph -> bool, sourceHash: string -> string, otherBytes: (Graph, Metadata) -> nat,
    draftId: string -> string, publishedId: (string, string) -> string, compilationHolds: (Upload, Row) -> bool)

  function ById(rows: seq<Row>, graphId: string): seq<Row> {
    Select(rows, (r: Row) => r.graphId == graphId)
  }

  function OfCase(rows: seq<Row>, caseId: string): seq<Row> {
    Select(rows, (r: Row) => r.caseId == caseId)
  }

  /** The row of the highest version: a descending index scan. */
  function Latest(rows: seq<Row>): Option<Row> {
    if rows == [] then None
    else
      var earlier, last := Latest(rows[..|rows| - 1]), rows[|rows| - 1];
      if earlier.Some? && earlier.value.version > last.version then earlier else Some(last)
  }

  // ---------------------------------------------------------------- publishing

  /** `assertGraphRecordSize`: the two JSON texts of a record are within the limit. */
  predicate Fits(env: Env, graph: Graph, metadata: Metadata) {
    ProvenanceBytes(AllIds(graph.collections)) + env.otherBytes(graph, metadata) <= MAX_CASE_GRAPH_RECORD_BYTES
  }

  datatype Request = Request(ownerId: string, uploadId: string, reviewed: Graph)

  /** The row a publication inserts. */
  function PublicationRow(env: Env, request: Request, draft: Row, publication: Annotation, compilation: string): Row {
    var head := publication.caseGraph.head;
    Row(env.publishedId(request.ownerId, request.uploadId), head.caseId, 2, Published, true, request.ownerId,
        Some(request.uploadId), head.title, publication.caseGraph, head.schemaVersion,
        Some(Reviewed(compilation, publication.audit)), true, draft.sourceDigest)
  }

  /** `publicationMatches`. */
  predicate PublicationMatches(env: Env, record: Row, request: Request, graph: Graph) {
    && record.caseId == graph.head.caseId && record.version == 2 && record.lifecycle == Published && record.isPrivate
    && record.ownerId == request.ownerId && (record.uploadId.None? || record.uploadId.value == request.uploadId)
    && record.byUser && record.title == graph.head.title && record.graph == graph
    && record.schemaVersion == graph.head.schemaVersion
       && record.sourceDigest == env.sourceHash(graph.head.compilerMetadata)
  }

  predicate UploadReady(upload: Option<Upload>, request: Request) {
    && upload.Some? && upload.value.ownerId == request.ownerId && upload.value.caseId == request.reviewed.head.caseId
    && upload.value.caseVersion == Some(1) && upload.value.version == 2 && upload.value.indexed
  }

  datatype PublishReply = PublishReply(rows: seq<Row>, graph: Graph, replayed: bool)

  /** `publishCompiledDraft`. */
  function Publish(env: Env, rows: seq<Row>, upload: Option<Upload>, request: Request)
    : Result<PublishReply, PublishError>
  {
    var existing := ById(rows, env.publishedId(request.ownerId, request.uploadId));
    var drafts := ById(rows, env.draftId(request.uploadId));
    if |drafts| != 1 || drafts[0].ownerId != request.ownerId then Err(DraftNotFound)
    else
      var draft := drafts[0];
      if draft.lifecycle != Draft || draft.version != 1 || draft.caseId != request.reviewed.head.caseId
         || draft.metadata.None?
      then Err(Conflict)
      else
        var annotated := AnnotateHumanReview(draft.graph, request.reviewed,
                                             env.publishedId(request.ownerId, request.uploadId),
                                             env.rules);
        if annotated.Err? then Err(ReviewFailed(annotated.error))
        else if !draft.metadata.value.Compiled? then Err(Conflict)
        else if !AuditAccepted(annotated.value.audit) then Err(ReviewFailed(SchemaRejected))
        else
          var row := PublicationRow(env, request, draft, annotated.value, draft.metadata.value.compilation);
          if !Fits(env, row.graph, row.metadata.value) then Err(TooLarge)
          else if !UploadReady(upload, request) then Err(Conflict)
          else if |existing| > 0 then
            if |existing| == 1 && PublicationMatches(env, existing[0], request, row.graph)
               && existing[0].metadata == row.metadata
            then Ok(PublishReply(rows, row.graph, true)) else Err(Conflict)
          else
            var latest := Latest(OfCase(rows, request.reviewed.head.caseId));
            if latest.None? || latest.value.graphId != draft.graphId || latest.value.version != 1 then Err(Conflict)
            else Ok(PublishReply(rows + [row], row.graph, false))
  }

  /** The graph table, as publishing updates it. */
  class GraphTable {
    var rows: seq<Row>

    constructor (existing: seq<Row>)
      ensures rows == existing
    {
      rows := existing;
    }

    method PublishCompiledDraft(env: Env, upload: Option<Upload>, request: Request)
      returns (reply: Result<(Graph, bool), PublishError>)
      modifies this
      ensures var step := Publish(env, old(rows), upload, request);
              if step.Err? then rows == old(rows) && reply == Err(step.error)
              else rows == step.value.rows && reply == Ok((step.value.graph, step.value.replayed))
    {
      var publishedId := env.publishedId(request.ownerId, request.uploadId);
      var existing := ById(rows, publishedId);
      var drafts := ById(rows, env.draftId(request.uploadId));
      if |drafts| != 1 || drafts[0].ownerId != request.ownerId {
        return Err(DraftNotFound);
      }
      var draft := drafts[0];
      if draft.lifecycle != Draft || draft.version != 1 || draft.caseId != request.reviewed.head.caseId
         || draft.metadata.None?
      {
        return Err(Conflict);
      }
      var annotated := AnnotateHumanReview(draft.graph, request.reviewed, publishedId, env.rules);
      if annotated.Err? {
        return Err(ReviewFailed(annotated.error));
      }
      if !draft.metadata.value.Compiled? {
        return Err(Conflict);
      }
      if !AuditAccepted(annotated.value.audit) {
        return Err(ReviewFailed(SchemaRejected));
      }
      var row := PublicationRow(env, request, draft, annotated.value, draft.metadata.value.compilation);
      if !Fits(env, row.graph, row.metadata.value) {
        return Err(TooLarge);
      }
      if !UploadReady(upload, request) {
        return Err(Conflict);
      }
      if |existing| > 0 {
        if |existing| != 1 || !PublicationMatches(env, existing[0], request, row.graph)
           || existing[0].metadata != row.metadata
        {
          return Err(Conflict);
        }
        return Ok((row.graph, true));
      }
      var latest := Latest(OfCase(rows, request.reviewed.head.caseId));
      if latest.None? || latest.value.graphId != draft.graphId || latest.value.version != 1 {
        return Err(Conflict);
      }
      rows := rows + [row];
      reply := Ok((row.graph, false));
    }
  }

  // ---------------------------------------------------------------- looking it up

  predicate DraftVisible(env: Env, upload: Upload, draft: Row, ownerId: string) {
    var head := draft.graph.head;
    && draft.ownerId == ownerId && draft.caseId == upload.caseId && draft.version == 1 && draft.lifecycle == Draft
    && draft.isPrivate && draft.byUser && draft.graphId == env.draftId(upload.uploadId)
    && (draft.uploadId.None? || draft.uploadId.value == upload.uploadId)
    && Valid(draft.graph, env.rules) && draft.metadata.Some? && draft.metadata.value.Compiled?
    && head.caseId == upload.caseId && head.status == Draft && head.title == draft.title
    && head.schemaVersion == draft.schemaVersion && env.sourceHash(head.compilerMetadata) == draft.sourceDigest
    && env.compilationHolds(upload, draft)
  }

  predicate PublicationVisible(env: Env, upload: Upload, draft: Row, record: Row, ownerId: string) {
    var head, original := record.graph.head, draft.graph.head;
    && record.graphId == env.publishedId(ownerId, upload.uploadId) && record.ownerId == ownerId
    && record.caseId == upload.caseId && record.version == 2 && record.lifecycle == Published && record.isPrivate
    && record.byUser && (record.uploadId.None? || record.uploadId.value == upload.uploadId)
    && Valid(record.graph, env.rules) && record.metadata.Some? && record.metadata.value.Reviewed?
    && AuditAccepted(record.metadata.value.humanReview)
    && head.caseId == original.caseId && head.status == Published && head.title == record.title
    && head.schemaVersion == record.schemaVersion && head.version == original.version
    && head.educationalDisclaimer == original.educationalDisclaimer && head.sourceSegments == original.sourceSegments
    && head.compilerMetadata == original.compilerMetadata && record.sourceDigest == draft.sourceDigest
    && record.metadata.value.humanReview.publicationGraphId == record.graphId
    && draft.metadata.Some? && record.metadata.value.compilation == draft.metadata.value.compilation
    && PublicationRebuilds(draft.graph, Annotation(record.graph, record.metadata.value.humanReview), record.graphId,
                           env.rules)
  }

  /** `lookupCompiledDraft`: nothing to an owner who has no such upload, else the newest graph, or a conflict. */
  function Lookup(env: Env, rows: seq<Row>, upload: Option<Upload>, ownerId: string)
    : Result<Option<Graph>, PublishError>
  {
    if upload.None? || upload.value.ownerId != ownerId then Ok(None)
    else if upload.value.version != 2 || upload.value.caseVersion != Some(1) || !upload.value.indexed then Err(Conflict)
    else
      var records := OfCase(rows, upload.value.caseId);
      var drafts := Select(records, (r: Row) => r.version == 1);
      var publications := Select(records, (r: Row) => r.version == 2);
      if |drafts| != 1 || |publications| > 1 || |records| != |drafts| + |publications| then Err(Conflict)
      else if !DraftVisible(env, upload.value, drafts[0], ownerId) then Err(Conflict)
      else if |publications| == 0 then Ok(Some(drafts[0].graph))
      else if !PublicationVisible(env, upload.value, drafts[0], publications[0], ownerId) then Err(Conflict)
      else Ok(Some(publications[0].graph))
  }

  // ---------------------------------------------------------------- annotation loses nothing

  /** An annotated graph with the draft's provenance put back. */
  function Restore(draft: Graph, annotated: Graph): Graph
    requires SameShape(draft.collections, annotated.collections)
  {
    Graph(annotated.head, seq(|annotated.collections|, i requires 0 <= i < |annotated.collections| =>
      RestoreItems(draft.collections[i], annotated.collections[i])))
  }

  function RestoreItems(draft: Collection, annotated: Collection): Collection
    requires |draft.items| == |annotated.items|
  {
    annotated.(items := seq(|annotated.items|, k requires 0 <= k < |annotated.items| =>
      annotated.items[k].(provenance := draft.items[k].provenance)))
  }

  lemma RestoredCollection(token: string, before: seq<Collection>, after: seq<Collection>, w: Walk, i: nat)
    requires SameProvenance(before, after) && i < |after|
    ensures var c := AnnotateCollections(token, before, after, w).0[i];
            |before[i].items| == |c.items| && RestoreItems(before[i], c) == after[i]
  {
    CollectionKept(token, before, after, w, i);
    var c := AnnotateCollections(token, before, after, w).0[i];
    forall k | 0 <= k < |c.items|
      ensures c.items[k].(provenance := before[i].items[k].provenance) == after[i].items[k]
    {
      EachEntityGains(token, before, after, w, i, k);
    }
    assert RestoreItems(before[i], c).items == after[i].items;
  }

  /** The reviewed graph can be read off the annotated one, however many edits there were. */
  lemma AnnotationIsRestorable(draft: Graph, reviewed: Graph, publicationGraphId: string, rules: Graph -> bool)
    requires AnnotateHumanReview(draft, reviewed, publicationGraphId, rules).Ok?
    ensures var annotated := AnnotateHumanReview(draft, reviewed, publicationGraphId, rules).value.caseGraph;
            && SameShape(draft.collections, annotated.collections)
            && Restore(draft, annotated) == reviewed
  {
    var token, start := TokenOf(publicationGraphId), StartWalk(draft, reviewed);
    var annotated := AnnotateHumanReview(draft, reviewed, publicationGraphId, rules).value.caseGraph;
    forall i | 0 <= i < |reviewed.collections|
      ensures |draft.collections[i].items| == |annotated.collections[i].items|
      ensures RestoreItems(draft.collections[i], annotated.collections[i]) == reviewed.collections[i]
    {
      RestoredCollection(token, draft.collections, reviewed.collections, start, i);
    }
    assert Restore(draft, annotated).collections == reviewed.collections;
  }

  /** So two different reviews of one draft never make the same publication. */
  lemma DifferentReviewsDiffer(draft: Graph, a: Graph, b: Graph, publicationGraphId: string, rules: Graph -> bool)
    requires AnnotateHumanReview(draft, a, publicationGraphId, rules).Ok?
    requires AnnotateHumanReview(draft, b, publicationGraphId, rules).Ok?
    ensures AnnotateHumanReview(draft, a, publicationGraphId, rules).value.caseGraph
            == AnnotateHumanReview(draft, b, publicationGraphId, rules).value.caseGraph
            <==> a == b
  {
    AnnotationIsRestorable(draft, a, publicationGraphId, rules);
    AnnotationIsRestorable(draft, b, publicationGraphId, rules);
  }

  // ---------------------------------------------------------------- one case over a run

  ghost predicate IdsInjective(env: Env) {
    && (forall u, v :: env.draftId(u) == env.draftId(v) ==> u == v)
    && (forall o, u, p, v :: env.publishedId(o, u) == env.publishedId(p, v) ==> o == p && u == v)
    && (forall o, u, v :: env.publishedId(o, u) != env.draftId(v))
  }

  /** A draft row as registration writes it. */
  predicate RegisteredDraft(env: Env, d: Row, uploadId: string) {
    var head := d.graph.head;
    && d.graphId == env.draftId(uploadId) && d.version == 1 && d.lifecycle == Draft && d.isPrivate && d.byUser
    && (d.uploadId.None? || d.uploadId.value == uploadId) && d.metadata.Some? && d.metadata.value.Compiled?
    && Valid(d.graph, env.rules) && head.caseId == d.caseId && head.status == Draft && head.title == d.title
    && head.schemaVersion == d.schemaVersion && env.sourceHash(head.compilerMetadata) == d.sourceDigest
  }

  function AnnotationOf(env: Env, d: Row, uploadId: string, reviewed: Graph): Result<Annotation, ReviewError> {
    AnnotateHumanReview(d.graph, reviewed, env.publishedId(d.ownerId, uploadId), env.rules)
  }

  function PublishedRow(env: Env, d: Row, uploadId: string, reviewed: Graph): Row
    requires AnnotationOf(env, d, uploadId, reviewed).Ok? && d.metadata.Some?
  {
    PublicationRow(env, Request(d.ownerId, uploadId, reviewed), d, AnnotationOf(env, d, uploadId, reviewed).value,
                   d.metadata.value.compilation)
  }

  ghost predicate Unpublished(env: Env, rows: seq<Row>, d: Row, uploadId: string) {
    && ById(rows, env.draftId(uploadId)) == [d]
    && OfCase(rows, d.caseId) == [d] && ById(rows, env.publishedId(d.ownerId, uploadId)) == []
  }

  /** The case has its draft and the one publication that `reviewed` makes of it. */
  ghost predicate PublishedAs(env: Env, rows: seq<Row>, d: Row, uploadId: string, reviewed: Graph) {
    && d.metadata.Some? && AnnotationOf(env, d, uploadId, reviewed).Ok? && reviewed.head.caseId == d.caseId
    && var p := PublishedRow(env, d, uploadId, reviewed);
       && ById(rows, env.draftId(uploadId)) == [d]
       && OfCase(rows, d.caseId) == [d, p] && ById(rows, p.graphId) == [p]
       && Fits(env, p.graph, p.metadata.value)
  }

  ghost predicate CaseInv(env: Env, rows: seq<Row>, d: Row, uploadId: string) {
    Unpublished(env, rows, d, uploadId) || exists reviewed :: PublishedAs(env, rows, d, uploadId, reviewed)
  }

  /** Anyone publishes anything, or another case's draft is registered. */
  datatype Step = PublishIt(request: Request, upload: Option<Upload>) | RegisterOther(row: Row)

  predicate Possible(env: Env, d: Row, uploadId: string, step: Step) {
    step.RegisterOther? ==>
      && step.row.caseId != d.caseId && step.row.graphId != env.draftId(uploadId)
      && step.row.graphId != env.publishedId(d.ownerId, uploadId)
  }

  function Next(env: Env, rows: seq<Row>, step: Step): seq<Row> {
    match step
    case PublishIt(request, upload) =>
      var r := Publish(env, rows, upload, request);
      if r.Err? then rows else r.value.rows
    case RegisterOther(row) => rows + [row]
  }

  function Run(env: Env, rows: seq<Row>, steps: seq<Step>): seq<Row>
    decreases |steps|
  {
    if steps == [] then rows else Run(env, Next(env, rows, steps[0]), steps[1..])
  }

  lemma Appended(rows: seq<Row>, row: Row, graphId: string, caseId: string)
    ensures ById(rows + [row], graphId)
            == if row.graphId == graphId then ById(rows, graphId) + [row] else ById(rows, graphId)
    ensures OfCase(rows + [row], caseId)
            == if row.caseId == caseId then OfCase(rows, caseId) + [row] else OfCase(rows, caseId)
  {
    SelectSnoc(rows, row, (r: Row) => r.graphId == graphId);
    SelectSnoc(rows, row, (r: Row) => r.caseId == caseId);
  }

  /** A row of another case leaves this one as it is. */
  lemma UnrelatedRow(env: Env, rows: seq<Row>, d: Row, uploadId: string, row: Row)
    requires row.caseId != d.caseId && row.graphId != env.draftId(uploadId)
    requires row.graphId != env.publishedId(d.ownerId, uploadId)
    ensures Unpublished(env, rows, d, uploadId) ==> Unpublished(env, rows + [row], d, uploadId)
    ensures forall reviewed :: PublishedAs(env, rows, d, uploadId, reviewed)
                               ==> PublishedAs(env, rows + [row], d, uploadId, reviewed)
  {
    Appended(rows, row, env.draftId(uploadId), d.caseId);
    Appended(rows, row, env.publishedId(d.ownerId, uploadId), d.caseId);
  }

  /** What a publication that is not a replay needed and did. */
  lemma NewPublication(env: Env, rows: seq<Row>, upload: Option<Upload>, request: Request)
    returns (draft: Row, row: Row)
    requires Publish(env, rows, upload, request).Ok? && !Publish(env, rows, upload, request).value.replayed
    ensures ById(rows, env.draftId(request.uploadId)) == [draft] && draft.ownerId == request.ownerId
    ensures draft.version == 1 && draft.caseId == request.reviewed.head.caseId && draft.metadata.Some?
    ensures ById(rows, env.publishedId(request.ownerId, request.uploadId)) == []
    ensures AnnotationOf(env, draft, request.uploadId, request.reviewed).Ok?
    ensures row == PublishedRow(env, draft, request.uploadId, request.reviewed)
    ensures row.caseId == draft.caseId && Fits(env, row.graph, row.metadata.value)
    ensures Publish(env, rows, upload, request).value.rows == rows + [row]
  {
    draft := ById(rows, env.draftId(request.uploadId))[0];
    row := PublishedRow(env, draft, request.uploadId, request.reviewed);
  }

  /** Only this case's draft has its case id and version one. */
  lemma OnlyDraft(env: Env, rows: seq<Row>, d: Row, uploadId: string, draft: Row)
    requires CaseInv(env, rows, d, uploadId) && draft in rows && draft.version == 1 && draft.caseId == d.caseId
    ensures draft == d
  {
    SelectMembers(rows, (r: Row) => r.caseId == d.caseId);
    assert draft in OfCase(rows, d.caseId);
  }

  /** A first publication of the draft itself. */
  lemma OwnPublication(env: Env, rows: seq<Row>, d: Row, uploadId: string, upload: Option<Upload>, request: Request)
    requires IdsInjective(env) && CaseInv(env, rows, d, uploadId) && request.uploadId == uploadId
    requires Publish(env, rows, upload, request).Ok? && !Publish(env, rows, upload, request).value.replayed
    ensures Unpublished(env, rows, d, uploadId)
    ensures PublishedAs(env, Publish(env, rows, upload, request).value.rows, d, uploadId, request.reviewed)
  {
    var draft, row := NewPublication(env, rows, upload, request);
    assert draft == d && Unpublished(env, rows, d, uploadId);
    NowPublished(env, rows, d, uploadId, request.reviewed, row);
  }

  lemma NowPublished(env: Env, rows: seq<Row>, d: Row, uploadId: string, reviewed: Graph, row: Row)
    requires IdsInjective(env) && Unpublished(env, rows, d, uploadId)
    requires d.metadata.Some? && AnnotationOf(env, d, uploadId, reviewed).Ok? && reviewed.head.caseId == d.caseId
    requires row == PublishedRow(env, d, uploadId, reviewed) && row.caseId == d.caseId
    requires Fits(env, row.graph, row.metadata.value)
    ensures PublishedAs(env, rows + [row], d, uploadId, reviewed)
  {
    JoinsDraft(rows, d, row, env.draftId(uploadId));
  }

  lemma JoinsDraft(rows: seq<Row>, d: Row, row: Row, draftId: string)
    requires ById(rows, draftId) == [d] && OfCase(rows, d.caseId) == [d] && ById(rows, row.graphId) == []
    requires row.caseId == d.caseId && row.graphId != draftId
    ensures ById(rows + [row], draftId) == [d] && OfCase(rows + [row], d.caseId) == [d, row]
    ensures ById(rows + [row], row.graphId) == [row]
  {
    Appended(rows, row, draftId, d.caseId);
    Appended(rows, row, row.graphId, d.caseId);
  }

  /** A publication of another upload inserts a row of another case. */
  lemma OtherPublication(env: Env, rows: seq<Row>, d: Row, uploadId: string, upload: Option<Upload>, request: Request)
    returns (row: Row)
    requires IdsInjective(env) && RegisteredDraft(env, d, uploadId) && CaseInv(env, rows, d, uploadId)
    requires request.uploadId != uploadId
    requires Publish(env, rows, upload, request).Ok? && !Publish(env, rows, upload, request).value.replayed
    ensures Publish(env, rows, upload, request).value.rows == rows + [row]
    ensures row.caseId != d.caseId && row.graphId != env.draftId(uploadId)
    ensures row.graphId != env.publishedId(d.ownerId, uploadId)
  {
    var draft;
    draft, row := NewPublication(env, rows, upload, request);
    SelectMembers(rows, (r: Row) => r.graphId == env.draftId(request.uploadId));
    assert draft in ById(rows, env.draftId(request.uploadId));
    if draft.caseId == d.caseId {
      OnlyDraft(env, rows, d, uploadId, draft);
    }
  }

  /** A step keeps the case: its publication for good, and before that its draft alone. */
  lemma StepKeepsCase(env: Env, rows: seq<Row>, d: Row, uploadId: string, step: Step)
    requires IdsInjective(env) && RegisteredDraft(env, d, uploadId) && CaseInv(env, rows, d, uploadId)
    requires Possible(env, d, uploadId, step)
    ensures CaseInv(env, Next(env, rows, step), d, uploadId)
    ensures forall reviewed :: PublishedAs(env, rows, d, uploadId, reviewed)
                               ==> PublishedAs(env, Next(env, rows, step), d, uploadId, reviewed)
  {
    match step {
      case RegisterOther(row) => UnrelatedRow(env, rows, d, uploadId, row);
      case PublishIt(request, upload) =>
        var r := Publish(env, rows, upload, request);
        if r.Ok? && !r.value.replayed {
          if request.uploadId == uploadId {
            OwnPublication(env, rows, d, uploadId, upload, request);
            NotBoth(env, rows, d, uploadId);
          } else {
            var row := OtherPublication(env, rows, d, uploadId, upload, request);
            UnrelatedRow(env, rows, d, uploadId, row);
          }
        }
    }
  }

  lemma NotBoth(env: Env, rows: seq<Row>, d: Row, uploadId: string)
    requires Unpublished(env, rows, d, uploadId)
    ensures forall reviewed :: !PublishedAs(env, rows, d, uploadId, reviewed)
  {
  }

  /** Whatever is published and registered in whatever order, a registered draft stays, its case has at most one
      publication, made from that draft by one review, and a publication stays what it is. */
  lemma {:induction false} EveryRunKeepsCase(env: Env, rows: seq<Row>, d: Row, uploadId: string, steps: seq<Step>)
    requires IdsInjective(env) && RegisteredDraft(env, d, uploadId) && CaseInv(env, rows, d, uploadId)
    requires forall i :: 0 <= i < |steps| ==> Possible(env, d, uploadId, steps[i])
    ensures CaseInv(env, Run(env, rows, steps), d, uploadId)
    ensures forall reviewed :: PublishedAs(env, rows, d, uploadId, reviewed)
                               ==> PublishedAs(env, Run(env, rows, steps), d, uploadId, reviewed)
    decreases |steps|
  {
    if steps != [] {
      StepKeepsCase(env, rows, d, uploadId, steps[0]);
      EveryRunKeepsCase(env, Next(env, rows, steps[0]), d, uploadId, steps[1..]);
    }
  }

  // ---------------------------------------------------------------- republishing and looking up

  /** Once published, the same review is answered as a replay that changes nothing, and every other is refused. */
  lemma RepublishExactly(env: Env, rows: seq<Row>, d: Row, uploadId: string, reviewed: Graph, upload: Option<Upload>,
                         request: Request)
    requires RegisteredDraft(env, d, uploadId) && PublishedAs(env, rows, d, uploadId, reviewed)
    requires request.ownerId == d.ownerId && request.uploadId == uploadId && UploadReady(upload, request)
    ensures Publish(env, rows, upload, request).Ok? <==> request.reviewed == reviewed
    ensures request.reviewed == reviewed ==>
              Publish(env, rows, upload, request)
              == Ok(PublishReply(rows, PublishedRow(env, d, uploadId, reviewed).graph, true))
  {
    if request.reviewed == reviewed {
      RepublishReplays(env, rows, d, uploadId, upload, request);
    } else if Publish(env, rows, upload, request).Ok? {
      RepublishedSame(env, rows, d, uploadId, reviewed, upload, request);
      DifferentReviewsDiffer(d.graph, reviewed, request.reviewed, env.publishedId(d.ownerId, uploadId), env.rules);
    }
  }

  lemma RepublishReplays(env: Env, rows: seq<Row>, d: Row, uploadId: string, upload: Option<Upload>, request: Request)
    requires RegisteredDraft(env, d, uploadId) && PublishedAs(env, rows, d, uploadId, request.reviewed)
    requires request.ownerId == d.ownerId && request.uploadId == uploadId && UploadReady(upload, request)
    ensures Publish(env, rows, upload, request)
            == Ok(PublishReply(rows, PublishedRow(env, d, uploadId, request.reviewed).graph, true))
  {
    ReviewAudit.AuditMeetsItsRules(d.graph, request.reviewed, env.publishedId(d.ownerId, uploadId), env.rules);
    var p := PublishedRow(env, d, uploadId, request.reviewed);
    assert request == Request(d.ownerId, uploadId, request.reviewed);
    assert PublicationMatches(env, p, request, p.graph);
  }

  /** A request that is answered for a published case annotates to the stored graph. */
  lemma RepublishedSame(env: Env, rows: seq<Row>, d: Row, uploadId: string, reviewed: Graph, upload: Option<Upload>,
                        request: Request)
    requires PublishedAs(env, rows, d, uploadId, reviewed) && Publish(env, rows, upload, request).Ok?
    requires request.ownerId == d.ownerId && request.uploadId == uploadId
    ensures AnnotationOf(env, d, uploadId, request.reviewed).Ok?
    ensures AnnotationOf(env, d, uploadId, request.reviewed).value.caseGraph
            == AnnotationOf(env, d, uploadId, reviewed).value.caseGraph
  {
  }

  /** The size limit of a stored record bounds the edits and collisions of a publication well below the 9999 that
      the strip pattern can read. */
  lemma StoredEditsAreFew(env: Env, d: Row, uploadId: string, reviewed: Graph)
    requires d.metadata.Some? && AnnotationOf(env, d, uploadId, reviewed).Ok?
    requires var p := PublishedRow(env, d, uploadId, reviewed); Fits(env, p.graph, p.metadata.value)
    ensures EditedEntities(d.graph.collections, reviewed.collections)
            + Collisions(IdsOf(d.graph.collections), TokenOf(env.publishedId(d.ownerId, uploadId)), 9999) <= 7627
  {
    EditsTakeRoom(d.graph, reviewed, env.publishedId(d.ownerId, uploadId), 9999);
  }

  /** So a review with more edits and collisions is refused, whoever sends it. */
  lemma OverLimitIsRefused(env: Env, rows: seq<Row>, d: Row, upload: Option<Upload>, request: Request)
    requires ById(rows, env.draftId(request.uploadId)) == [d]
    requires SameProvenance(d.graph.collections, request.reviewed.collections)
    requires EditedEntities(d.graph.collections, request.reviewed.collections)
             + Collisions(IdsOf(d.graph.collections), TokenOf(env.publishedId(request.ownerId, request.uploadId)),
                          9999) > 7627
    ensures Publish(env, rows, upload, request).Err?
  {
    if Publish(env, rows, upload, request).Ok? {
      StoredEditsAreFew(env, d, request.uploadId, request.reviewed);
    }
  }

  /** The upload version that lookup expects of a registered draft. */
  predicate LookupReady(env: Env, upload: Upload, d: Row, uploadId: string) {
    && upload.uploadId == uploadId && upload.ownerId == d.ownerId && upload.caseId == d.caseId
    && upload.caseVersion == Some(1) && upload.version == 2 && upload.indexed && env.compilationHolds(upload, d)
  }

  /** Every stored publication is found: its owner's lookup returns the stored graph. */
  lemma PublicationIsFound(env: Env, rows: seq<Row>, d: Row, uploadId: string, reviewed: Graph, upload: Upload)
    requires RegisteredDraft(env, d, uploadId) && PublishedAs(env, rows, d, uploadId, reviewed)
    requires LookupReady(env, upload, d, uploadId)
    ensures Lookup(env, rows, Some(upload), d.ownerId) == Ok(Some(PublishedRow(env, d, uploadId, reviewed).graph))
  {
    var p, id := PublishedRow(env, d, uploadId, reviewed), env.publishedId(d.ownerId, uploadId);
    StoredEditsAreFew(env, d, uploadId, reviewed);
    PublicationReplaysExactly(d.graph, reviewed, id, env.rules);
    VisibleWhenRebuilt(env, d, uploadId, reviewed, upload);
    TwoRows(d, p);
    LookupOfTwo(env, rows, upload, d, p);
  }

  lemma DraftIsFound(env: Env, rows: seq<Row>, d: Row, uploadId: string, upload: Upload)
    requires RegisteredDraft(env, d, uploadId) && Unpublished(env, rows, d, uploadId)
    requires LookupReady(env, upload, d, uploadId)
    ensures Lookup(env, rows, Some(upload), d.ownerId) == Ok(Some(d.graph))
  {
    OneRow(d);
  }

  /** A registered draft's owner always gets an answer, whatever has been published and registered since: the graph
      of the newest version of the case, which is the draft or its publication. */
  lemma EveryRunAnswers(env: Env, rows: seq<Row>, d: Row, uploadId: string, steps: seq<Step>, upload: Upload)
    requires IdsInjective(env) && RegisteredDraft(env, d, uploadId) && CaseInv(env, rows, d, uploadId)
    requires forall i :: 0 <= i < |steps| ==> Possible(env, d, uploadId, steps[i])
    requires LookupReady(env, upload, d, uploadId)
    ensures var after := Run(env, rows, steps); var latest := Latest(OfCase(after, d.caseId));
            latest.Some? && Lookup(env, after, Some(upload), d.ownerId) == Ok(Some(latest.value.graph))
  {
    var after := Run(env, rows, steps);
    EveryRunKeepsCase(env, rows, d, uploadId, steps);
    if Unpublished(env, after, d, uploadId) {
      DraftIsFound(env, after, d, uploadId, upload);
      LatestOfOne(d);
    } else {
      var reviewed :| PublishedAs(env, after, d, uploadId, reviewed);
      PublicationIsFound(env, after, d, uploadId, reviewed, upload);
      LatestOfTwo(d, PublishedRow(env, d, uploadId, reviewed));
    }
  }

  /** Publishing and looking up: the graph a successful publication answered is what every later lookup returns. */
  lemma PublishThenLookup(env: Env, rows: seq<Row>, d: Row, uploadId: string, request: Request, upload: Upload,
                          steps: seq<Step>)
    requires IdsInjective(env) && RegisteredDraft(env, d, uploadId) && CaseInv(env, rows, d, uploadId)
    requires request.ownerId == d.ownerId && request.uploadId == uploadId && LookupReady(env, upload, d, uploadId)
    requires Publish(env, rows, Some(upload), request).Ok?
    requires forall i :: 0 <= i < |steps| ==> Possible(env, d, uploadId, steps[i])
    ensures var reply := Publish(env, rows, Some(upload), request).value;
            Lookup(env, Run(env, reply.rows, steps), Some(upload), d.ownerId) == Ok(Some(reply.graph))
  {
    var reply := Publish(env, rows, Some(upload), request).value;
    RepliedIsPublished(env, rows, d, uploadId, request, upload);
    EveryRunKeepsCase(env, reply.rows, d, uploadId, steps);
    PublicationIsFound(env, Run(env, reply.rows, steps), d, uploadId, request.reviewed, upload);
  }

  lemma RepliedIsPublished(env: Env, rows: seq<Row>, d: Row, uploadId: string, request: Request, upload: Upload)
    requires IdsInjective(env) && RegisteredDraft(env, d, uploadId) && CaseInv(env, rows, d, uploadId)
    requires request.ownerId == d.ownerId && request.uploadId == uploadId && LookupReady(env, upload, d, uploadId)
    requires Publish(env, rows, Some(upload), request).Ok?
    ensures var reply := Publish(env, rows, Some(upload), request).value;
            && PublishedAs(env, reply.rows, d, uploadId, request.reviewed)
            && reply.graph == PublishedRow(env, d, uploadId, request.reviewed).graph
  {
    if Publish(env, rows, Some(upload), request).value.replayed {
      var reviewed := ReplayedReview(env, rows, d, uploadId, request, Some(upload));
      RepublishExactly(env, rows, d, uploadId, reviewed, Some(upload), request);
    } else {
      OwnPublication(env, rows, d, uploadId, Some(upload), request);
      NewGraph(env, rows, d, uploadId, request, Some(upload));
    }
  }

  /** A replay finds the case published. */
  lemma ReplayedReview(env: Env, rows: seq<Row>, d: Row, uploadId: string, request: Request, upload: Option<Upload>)
    returns (reviewed: Graph)
    requires CaseInv(env, rows, d, uploadId) && request.ownerId == d.ownerId && request.uploadId == uploadId
    requires Publish(env, rows, upload, request).Ok? && Publish(env, rows, upload, request).value.replayed
    ensures PublishedAs(env, rows, d, uploadId, reviewed) && UploadReady(upload, request)
  {
    reviewed :| PublishedAs(env, rows, d, uploadId, reviewed);
  }

  lemma NewGraph(env: Env, rows: seq<Row>, d: Row, uploadId: string, request: Request, upload: Option<Upload>)
    requires Unpublished(env, rows, d, uploadId) && request.ownerId == d.ownerId && request.uploadId == uploadId
    requires Publish(env, rows, upload, request).Ok?
    requires d.metadata.Some? && AnnotationOf(env, d, uploadId, request.reviewed).Ok?
    ensures Publish(env, rows, upload, request).value.graph == PublishedRow(env, d, uploadId, request.reviewed).graph
  {
  }

  lemma LookupOfTwo(env: Env, rows: seq<Row>, upload: Upload, d: Row, p: Row)
    requires upload.ownerId == d.ownerId && upload.version == 2 && upload.caseVersion == Some(1) && upload.indexed
    requires OfCase(rows, upload.caseId) == [d, p] && DraftVisible(env, upload, d, d.ownerId)
    requires Select([d, p], (r: Row) => r.version == 1) == [d] && Select([d, p], (r: Row) => r.version == 2) == [p]
    ensures Lookup(env, rows, Some(upload), d.ownerId)
            == if PublicationVisible(env, upload, d, p, d.ownerId) then Ok(Some(p.graph)) else Err(Conflict)
  {
  }

  /** Of everything the lookup checks on a stored publication only the rebuilding can fail. */
  lemma VisibleWhenRebuilt(env: Env, d: Row, uploadId: string, reviewed: Graph, upload: Upload)
    requires RegisteredDraft(env, d, uploadId) && AnnotationOf(env, d, uploadId, reviewed).Ok?
    requires reviewed.head.caseId == d.caseId == upload.caseId && upload.uploadId == uploadId
    ensures var p := PublishedRow(env, d, uploadId, reviewed);
            PublicationVisible(env, upload, d, p, d.ownerId)
            <==> PublicationRebuilds(d.graph, AnnotationOf(env, d, uploadId, reviewed).value, p.graphId, env.rules)
  {
    ReviewAudit.AuditMeetsItsRules(d.graph, reviewed, env.publishedId(d.ownerId, uploadId), env.rules);
    var p := PublishedRow(env, d, uploadId, reviewed);
    assert Annotation(p.graph, p.metadata.value.humanReview) == AnnotationOf(env, d, uploadId, reviewed).value;
  }

  lemma TwoRows(d: Row, p: Row)
    requires d.version == 1 && p.version == 2
    ensures Select([d, p], (r: Row) => r.version == 1) == [d] && Select([d, p], (r: Row) => r.version == 2) == [p]
  {
    SelectTwo(d, p, (r: Row) => r.version == 1);
    SelectTwo(d, p, (r: Row) => r.version == 2);
  }

  lemma LatestOfOne(d: Row)
    ensures Latest([d]) == Some(d)
  {
    assert [d][..0] == [];
  }

  lemma LatestOfTwo(d: Row, p: Row)
    requires d.version < p.version
    ensures Latest([d, p]) == Some(p)
  {
    assert [d, p][..1] == [d];
    LatestOfOne(d);
  }

  lemma OneRow(d: Row)
    requires d.version == 1
    ensures Select([d], (r: Row) => r.version == 1) == [d] && Select([d], (r: Row) => r.version == 2) == []
  {
    assert [d] == [] + [d];
    SelectSnoc([], d, (r: Row) => r.version == 1);
    SelectSnoc([], d, (r: Row) => r.version == 2);
  }

  lemma SelectTwo(d: Row, p: Row, wanted: Row -> bool)
    ensures Select([d, p], wanted) == (if wanted(d) then [d] else []) + (if wanted(p) then [p] else [])
  {
    assert [d, p] == [d] + [p] && [d] == [] + [d];
    SelectSnoc([], d, wanted);
    SelectSnoc([d], p, wanted);
  }
}
