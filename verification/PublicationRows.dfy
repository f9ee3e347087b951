/** Publications' graph rows as the compile store sees them: the row that publishing inserts
    (convex/caseDrafts.ts:533-556) is one that the compile store's step inserts, and its flag for the rebuild check
    is the check itself (convex/caseCompileReplay.ts:279-294). */
module PublicationRows {
  import opened Outcomes
  import opened Sequences
  import opened HumanReview
  import opened ReviewReplay
  import P = Publications
  import S = CompileStore
  import CompileClaims
  import CompileSafety

  // ---------------------------------------------------------------- the mapping

  /** The draft graph of a case, and the JSON text of a graph. */
  datatype View = View(env: P.Env, draftOf: string -> Graph, body: Graph -> string)

  ghost function GraphIdOf(env: P.Env, id: string): S.GraphId {
    if exists u :: env.draftId(u) == id then
      var u :| env.draftId(u) == id;
      S.DraftGraph(u)
    else if exists o, u :: env.publishedId(o, u) == id then
      var o, u :| env.publishedId(o, u) == id;
      S.PublishedGraph(o, u)
    else S.OtherGraph(id)
  }

  /** Whether stripping and annotating again, against the draft of its case, reproduces a publication row. */
  predicate Rebuilds(view: View, r: P.Row) {
    && r.metadata.Some? && r.metadata.value.Reviewed?
    && PublicationRebuilds(view.draftOf(r.caseId), Annotation(r.graph, r.metadata.value.humanReview), r.graphId,
                           view.env.rules)
  }

  /** A row without an upload id is of the upload that its graph id names. */
  ghost function UploadOf(env: P.Env, r: P.Row): string {
    match r.uploadId
    case Some(u) => u
    case None =>
      match GraphIdOf(env, r.graphId)
      case DraftGraph(u) => u
      case PublishedGraph(_, u) => u
      case OtherGraph(_) => ""
  }

  function ContentOf(view: View, graph: Graph): S.Draft {
    S.Draft(graph.head.caseId, graph.head.title, view.env.sourceHash(graph.head.compilerMetadata),
            |graph.head.sourceSegments|, view.body(graph))
  }

  ghost function RowOf(view: View, r: P.Row): S.GraphRow {
    S.GraphRow(GraphIdOf(view.env, r.graphId), r.caseId,
               if r.version == 1 then S.DraftVersion else S.Publication(Rebuilds(view, r)),
               r.ownerId, UploadOf(view.env, r), r.title, r.sourceDigest, ContentOf(view, r.graph))
  }

  ghost function RowIn(view: View): P.Row -> S.GraphRow {
    (r: P.Row) => RowOf(view, r)
  }

  ghost function RowsOf(view: View, rows: seq<P.Row>): seq<S.GraphRow> {
    Mapped(rows, RowIn(view))
  }

  lemma DraftIdMapped(env: P.Env, uploadId: string, id: string)
    requires P.IdsInjective(env)
    ensures GraphIdOf(env, id) == S.DraftGraph(uploadId) <==> id == env.draftId(uploadId)
  {
  }

  lemma PublishedIdMapped(env: P.Env, ownerId: string, uploadId: string)
    requires P.IdsInjective(env)
    ensures GraphIdOf(env, env.publishedId(ownerId, uploadId)) == S.PublishedGraph(ownerId, uploadId)
  {
  }

  lemma DraftsMapped(view: View, rows: seq<P.Row>, uploadId: string)
    requires P.IdsInjective(view.env)
    ensures Select(RowsOf(view, rows), S.ByGraphId(S.DraftGraph(uploadId)))
            == RowsOf(view, P.ById(rows, view.env.draftId(uploadId)))
  {
    forall r: P.Row
      ensures RowOf(view, r).graphId == S.DraftGraph(uploadId) <==> r.graphId == view.env.draftId(uploadId)
    {
      DraftIdMapped(view.env, uploadId, r.graphId);
    }
    SelectMapped(rows, RowIn(view), (r: P.Row) => r.graphId == view.env.draftId(uploadId),
                 S.ByGraphId(S.DraftGraph(uploadId)));
  }

  lemma CaseMapped(view: View, rows: seq<P.Row>, caseId: string)
    ensures Select(RowsOf(view, rows), S.ByCase(caseId)) == RowsOf(view, P.OfCase(rows, caseId))
  {
    SelectMapped(rows, RowIn(view), (r: P.Row) => r.caseId == caseId, S.ByCase(caseId));
  }

  // ---------------------------------------------------------------- the inserted row

  /** A publication that the size limit admits rebuilds. */
  lemma PublishedRebuilds(view: View, d: P.Row, uploadId: string, reviewed: Graph)
    requires d.metadata.Some? && P.AnnotationOf(view.env, d, uploadId, reviewed).Ok? && reviewed.head.caseId == d.caseId
    requires var p := P.PublishedRow(view.env, d, uploadId, reviewed); P.Fits(view.env, p.graph, p.metadata.value)
    requires view.draftOf(d.caseId) == d.graph
    ensures Rebuilds(view, P.PublishedRow(view.env, d, uploadId, reviewed))
  {
    P.StoredEditsAreFew(view.env, d, uploadId, reviewed);
    PublicationReplaysExactly(d.graph, reviewed, view.env.publishedId(d.ownerId, uploadId), view.env.rules);
    var p := P.PublishedRow(view.env, d, uploadId, reviewed);
    assert Annotation(p.graph, p.metadata.value.humanReview) == P.AnnotationOf(view.env, d, uploadId, reviewed).value;
  }

  /** What the compile store takes a publication of a draft to be, publishing inserts. */
  lemma InsertedRow(view: View, d: P.Row, uploadId: string, reviewed: Graph)
    requires P.IdsInjective(view.env) && P.RegisteredDraft(view.env, d, uploadId)
    requires P.AnnotationOf(view.env, d, uploadId, reviewed).Ok? && reviewed.head.caseId == d.caseId
    requires var p := P.PublishedRow(view.env, d, uploadId, reviewed); P.Fits(view.env, p.graph, p.metadata.value)
    requires view.draftOf(d.caseId) == d.graph
    ensures var p := P.PublishedRow(view.env, d, uploadId, reviewed);
            RowOf(view, p) == S.PublicationOf(RowOf(view, d), p.title, view.body(p.graph))
  {
    PublishedRebuilds(view, d, uploadId, reviewed);
    DraftIdMapped(view.env, uploadId, d.graphId);
    PublishedIdMapped(view.env, d.ownerId, uploadId);
  }

  // ---------------------------------------------------------------- the step

  /** If the newest row of a case is of version one, every row is, and the newest is the last. */
  lemma {:induction false} OnlyFirstVersions(view: View, rows: seq<P.Row>)
    requires forall r :: r in rows ==> r.version == 1 || r.version == 2
    requires P.Latest(rows).Some? && P.Latest(rows).value.version == 1
    ensures rows != [] && P.Latest(rows).value == rows[|rows| - 1]
    ensures Select(RowsOf(view, rows), S.IsPublication()) == []
  {
    var front, last := rows[..|rows| - 1], rows[|rows| - 1];
    assert last in rows && forall r :: r in front ==> r in rows;
    if front != [] {
      LatestExists(front);
      assert P.Latest(front).value in front;
      OnlyFirstVersions(view, front);
    }
    SelectSnoc(RowsOf(view, front), RowOf(view, last), S.IsPublication());
  }

  lemma {:induction false} LatestExists(rows: seq<P.Row>)
    requires rows != []
    ensures P.Latest(rows).Some? && P.Latest(rows).value in rows
  {
    if |rows| > 1 {
      LatestExists(rows[..|rows| - 1]);
    }
  }

  lemma RowsOfOne(view: View, r: P.Row)
    ensures RowsOf(view, [r]) == [RowOf(view, r)]
  {
    MappedSnoc([], r, RowIn(view));
    assert [] + [r] == [r];
  }

  /** Publishing, seen in the compile store, is its step: the row it inserts may be inserted there. */
  lemma PublishIsPublishRow(view: View, store: S.Store, rows: seq<P.Row>, upload: Option<P.Upload>, request: P.Request)
    returns (row: P.Row)
    requires P.IdsInjective(view.env) && store.graphs == RowsOf(view, rows)
    requires P.Publish(view.env, rows, upload, request).Ok?
             && !P.Publish(view.env, rows, upload, request).value.replayed
    requires var drafts := P.ById(rows, view.env.draftId(request.uploadId));
             P.RegisteredDraft(view.env, drafts[0], request.uploadId)
               && view.draftOf(drafts[0].caseId) == drafts[0].graph
    requires forall r :: r in P.OfCase(rows, request.reviewed.head.caseId) ==> r.version == 1 || r.version == 2
    ensures P.Publish(view.env, rows, upload, request).value.rows == rows + [row]
    ensures S.MayPublish(store, RowOf(view, row))
    ensures S.PublishRow(store, RowOf(view, row)).graphs
            == RowsOf(view, P.Publish(view.env, rows, upload, request).value.rows)
  {
    var d;
    d, row := P.NewPublication(view.env, rows, upload, request);
    InsertedRow(view, d, request.uploadId, request.reviewed);
    DraftIdMapped(view.env, request.uploadId, d.graphId);
    DraftsMapped(view, rows, request.uploadId);
    RowsOfOne(view, d);
    CaseMapped(view, rows, d.caseId);
    NewestIsDraft(view.env, rows, upload, request);
    var ofCase := P.OfCase(rows, d.caseId);
    OnlyFirstVersions(view, ofCase);
    MappedSnoc(rows, row, RowIn(view));
  }

  lemma NewestIsDraft(env: P.Env, rows: seq<P.Row>, upload: Option<P.Upload>, request: P.Request)
    requires P.Publish(env, rows, upload, request).Ok? && !P.Publish(env, rows, upload, request).value.replayed
    ensures var latest := P.Latest(P.OfCase(rows, request.reviewed.head.caseId));
            latest.Some? && latest.value.graphId == P.ById(rows, env.draftId(request.uploadId))[0].graphId
              && latest.value.version == 1
  {
  }

  // ---------------------------------------------------------------- the lookup

  /** A published case, seen in the compile store, reconstructs: its draft and its publication pass the lookup's
      checks. */
  lemma PublishedReconstructs(view: View, rows: seq<P.Row>, d: P.Row, uploadId: string, reviewed: Graph,
                              upload: S.UploadRow, identity: CompileClaims.Identity)
    requires P.IdsInjective(view.env) && P.RegisteredDraft(view.env, d, uploadId)
    requires P.PublishedAs(view.env, rows, d, uploadId, reviewed) && view.draftOf(d.caseId) == d.graph
    requires identity.ownerId == d.ownerId && identity.uploadId == uploadId && identity.caseId == d.caseId
    requires upload.caseId == d.caseId && upload.segmentCount == |d.graph.head.sourceSegments|
    ensures S.Reconstructs(upload, Select(RowsOf(view, rows), S.ByCase(identity.caseId)), identity)
  {
    var p := P.PublishedRow(view.env, d, uploadId, reviewed);
    TwoRowsMapped(view, rows, d, p);
    InsertedRow(view, d, uploadId, reviewed);
    RegisteredReconstructs(view, d, uploadId, upload, identity);
    BothReconstruct(upload, RowOf(view, d), p.title, view.body(p.graph), identity);
  }

  lemma TwoRowsMapped(view: View, rows: seq<P.Row>, d: P.Row, p: P.Row)
    requires P.OfCase(rows, d.caseId) == [d, p]
    ensures Select(RowsOf(view, rows), S.ByCase(d.caseId)) == [RowOf(view, d), RowOf(view, p)]
  {
    CaseMapped(view, rows, d.caseId);
    RowsOfOne(view, d);
    MappedSnoc([d], p, RowIn(view));
    assert [d] + [p] == [d, p];
  }

  /** A registered draft, seen in the compile store. */
  lemma RegisteredReconstructs(view: View, d: P.Row, uploadId: string, upload: S.UploadRow,
                               identity: CompileClaims.Identity)
    requires P.IdsInjective(view.env) && P.RegisteredDraft(view.env, d, uploadId)
    requires identity.ownerId == d.ownerId && identity.uploadId == uploadId && identity.caseId == d.caseId
    requires upload.caseId == d.caseId && upload.segmentCount == |d.graph.head.sourceSegments|
    ensures S.DraftReconstructs(upload, RowOf(view, d), identity) && RowOf(view, d).kind.DraftVersion?
  {
    DraftIdMapped(view.env, uploadId, d.graphId);
  }

  /** A draft that reconstructs does so together with any publication of it. */
  lemma BothReconstruct(upload: S.UploadRow, draft: S.GraphRow, title: string, body: string,
                        identity: CompileClaims.Identity)
    requires S.DraftReconstructs(upload, draft, identity) && draft.kind.DraftVersion?
    ensures S.Reconstructs(upload, [draft, S.PublicationOf(draft, title, body)], identity)
  {
    CompileSafety.DraftAndPublication(draft, S.PublicationOf(draft, title, body));
  }
}
