/** Resumable legacy migrations (convex/migrations.ts:47-75, 178-492).

    A cursor is the number of legacy rows before it; the legacy table is fixed while a migration runs. JSON
    texts are represented by their lengths. A thrown error rolls the whole page back. */
module Migration {
  import opened Outcomes

  const DEFAULT_PAGE_SIZE: int := 25
  const MAX_INVENTORY_PAGE_SIZE: int := 100
  const MAX_BACKFILL_PAGE_SIZE: int := 10
  const MAX_JSON_CHARACTERS: nat := 750000
  const MAX_BATCH_JSON_CHARACTERS: nat := 2000000

  /** A legacy case, with the lengths of the two JSON texts its import writes. */
  datatype LegacyCase = LegacyCase(caseId: string, version: int, graphLength: nat, metadataLength: nat)

  /** This migration, or anyone else, earlier imports included. */
  datatype Writer = MigrationWriter | OtherWriter

  datatype Graph = Graph(caseId: string, version: int, writer: Writer)

  datatype MigrationError =
    | LimitInvalid
    | CursorMismatch
    | VersionInvalid(caseId: string)
    | NotUnique
    | JsonTooLong
    | BudgetExceeded(characters: nat)

  datatype Checkpoint = Checkpoint(
    complete: bool, cursor: Option<nat>, processed: nat, inserted: nat, skipped: nat,
    lastBatchId: string, lastProcessed: nat, lastInserted: nat, lastSkipped: nat)

  datatype Reply = Reply(
    processedThisBatch: nat, insertedThisBatch: nat, skippedThisBatch: nat,
    processedTotal: nat, insertedTotal: nat, skippedTotal: nat,
    nextCursor: Option<nat>, isDone: bool, replayed: bool)

  /** What `paginate` returned: how many rows, whether that was the end, and the next cursor if not. */
  datatype Page = Page(count: nat, done: bool, next: nat)

  function BoundedPageSize(requested: Option<int>, maximum: int): Result<nat, MigrationError> {
    var size := if requested.None? then DEFAULT_PAGE_SIZE else requested.value;
    if 1 <= size <= maximum && size <= MAX_SAFE_INTEGER then Ok(size) else Err(LimitInvalid)
  }

  // ---------------------------------------------------------------- importing rows

  function GraphsOf(graphs: seq<Graph>, caseId: string, version: int): nat {
    if graphs == [] then 0
    else
      var last := graphs[|graphs| - 1];
      GraphsOf(graphs[..|graphs| - 1], caseId,
               version) + if last.caseId == caseId && last.version == version then 1 else 0
  }

  function WrittenBy(graphs: seq<Graph>, writer: Writer): nat {
    if graphs == [] then 0
    else WrittenBy(graphs[..|graphs| - 1], writer) + if graphs[|graphs| - 1].writer == writer then 1 else 0
  }

  datatype Batch = Batch(graphs: seq<Graph>, inserted: nat, skipped: nat, characters: nat)

  /** One round of the backfill loop. */
  function ImportRow(batch: Batch, row: LegacyCase): Result<Batch, MigrationError> {
    if !(1 <= row.version <= MAX_SAFE_INTEGER) then Err(VersionInvalid(row.caseId))
    else
      var existing := GraphsOf(batch.graphs, row.caseId, row.version);
      if existing > 1 then Err(NotUnique)
      else if existing == 1 then Ok(batch.(skipped := batch.skipped + 1))
      else if row.graphLength > MAX_JSON_CHARACTERS || row.metadataLength > MAX_JSON_CHARACTERS then Err(JsonTooLong)
      else
        var characters := batch.characters + row.graphLength + row.metadataLength;
        if characters > MAX_BATCH_JSON_CHARACTERS then Err(BudgetExceeded(characters))
        else
          Ok(Batch(batch.graphs + [Graph(row.caseId, row.version, MigrationWriter)],
                   batch.inserted + 1, batch.skipped, characters))
  }

  function ImportRows(batch: Batch, rows: seq<LegacyCase>): Result<Batch, MigrationError> {
    if rows == [] then Ok(batch)
    else
      var before :- ImportRows(batch, rows[..|rows| - 1]);
      ImportRow(before, rows[|rows| - 1])
  }

  // ---------------------------------------------------------------- one page

  datatype Gate = Replay(checkpoint: Checkpoint) | AlreadyComplete(checkpoint: Checkpoint) | Mismatch | Proceed

  /** The checks both migrations make before they read a page, in order. */
  function Admit(checkpoint: Option<Checkpoint>, batchId: string, cursor: Option<nat>): Gate {
    if checkpoint.Some? && checkpoint.value.lastBatchId == batchId then Replay(checkpoint.value)
    else if checkpoint.Some? && checkpoint.value.complete then AlreadyComplete(checkpoint.value)
    else if (if checkpoint.Some? then checkpoint.value.cursor else None) != cursor then Mismatch
    else Proceed
  }

  function ReplayReply(c: Checkpoint): Reply {
    Reply(c.lastProcessed, c.lastInserted, c.lastSkipped, c.processed, c.inserted, c.skipped, c.cursor, c.complete,
          true)
  }

  function CompleteReply(c: Checkpoint): Reply {
    Reply(0, 0, 0, c.processed, c.inserted, c.skipped, None, true, true)
  }

  const NEW := Checkpoint(false, None, 0, 0, 0, "", 0, 0, 0)

  function Advance(checkpoint: Option<Checkpoint>, batchId: string, page: Page, inserted: nat, skipped: nat)
    : Checkpoint
  {
    var c := if checkpoint.Some? then checkpoint.value else NEW;
    Checkpoint(page.done, if page.done then None else Some(page.next), c.processed + page.count,
               c.inserted + inserted, c.skipped + skipped, batchId, page.count, inserted, skipped)
  }

  function FreshReply(c: Checkpoint): Reply {
    ReplayReply(c).(replayed := false)
  }

  datatype Store = Store(graphs: seq<Graph>, checkpoint: Option<Checkpoint>)

  function Start(cursor: Option<nat>): nat {
    if cursor.Some? then cursor.value else 0
  }

  /** What the platform promises of a page over the fixed table. */
  predicate IsPage(rows: seq<LegacyCase>, cursor: Option<nat>, limit: nat, page: Page) {
    && Start(cursor) + page.count <= |rows|
    && page.count <= limit
    && if page.done then Start(cursor) + page.count == |rows|
       else page.count >= 1 && page.next == Start(cursor) + page.count
  }

  function PageRows(rows: seq<LegacyCase>, cursor: Option<nat>, page: Page): seq<LegacyCase>
    requires Start(cursor) + page.count <= |rows|
  {
    rows[Start(cursor)..Start(cursor) + page.count]
  }

  /** `backfillLegacyCaseGraphsPage`. */
  function BackfillStep(store: Store, pageRows: seq<LegacyCase>, batchId: string, cursor: Option<nat>,
                        limit: Option<int>, page: Page): Result<(Store, Reply), MigrationError>
  {
    var size :- BoundedPageSize(limit, MAX_BACKFILL_PAGE_SIZE);
    match Admit(store.checkpoint, batchId, cursor)
    case Replay(c) => Ok((store, ReplayReply(c)))
    case AlreadyComplete(c) => Ok((store, CompleteReply(c)))
    case Mismatch => Err(CursorMismatch)
    case Proceed =>
      var batch :- ImportRows(Batch(store.graphs, 0, 0, 0), pageRows);
      var next := Advance(store.checkpoint, batchId, page, batch.inserted, batch.skipped);
      Ok((Store(batch.graphs, Some(next)), FreshReply(next)))
  }

  /** `inventoryLegacyPage`: counts, and writes no graph. */
  function InventoryStep(store: Store, batchId: string, cursor: Option<nat>, limit: Option<int>, page: Page)
    : Result<(Store, Reply), MigrationError>
  {
    var size :- BoundedPageSize(limit, MAX_INVENTORY_PAGE_SIZE);
    match Admit(store.checkpoint, batchId, cursor)
    case Replay(c) => Ok((store, ReplayReply(c)))
    case AlreadyComplete(c) => Ok((store, CompleteReply(c)))
    case Mismatch => Err(CursorMismatch)
    case Proceed =>
      var next := Advance(store.checkpoint, batchId, page, 0, 0);
      Ok((store.(checkpoint := Some(next)), FreshReply(next)))
  }

  // ---------------------------------------------------------------- the mutations

  class MigrationTables {
    var graphs: seq<Graph>
    var checkpoint: Option<Checkpoint>

    function State(): Store
      reads this
    {
      Store(graphs, checkpoint)
    }

    constructor (existing: seq<Graph>)
      ensures State() == Store(existing, None)
    {
      graphs, checkpoint := existing, None;
    }

    method CountGraphs(caseId: string, version: int) returns (count: nat)
      ensures count == GraphsOf(graphs, caseId, version)
    {
      count := 0;
      for i := 0 to |graphs|
        invariant count == GraphsOf(graphs[..i], caseId, version)
      {
        assert graphs[..i + 1][..i] == graphs[..i];
        if graphs[i].caseId == caseId && graphs[i].version == version {
          count := count + 1;
        }
      }
      assert graphs[..|graphs|] == graphs;
    }

    /** The body of the loop: inserts the row's graph, or finds it. */
    method ImportNext(row: LegacyCase, inserted: nat, skipped: nat, characters: nat)
      returns (result: Result<(nat, nat, nat), MigrationError>)
      modifies `graphs
      ensures var step := ImportRow(Batch(old(graphs), inserted, skipped, characters), row);
              if step.Err? then result == Err(step.error)
              else result == Ok((step.value.inserted, step.value.skipped, step.value.characters))
                   && graphs == step.value.graphs
    {
      if !(1 <= row.version <= MAX_SAFE_INTEGER) {
        return Err(VersionInvalid(row.caseId));
      }
      var existing := CountGraphs(row.caseId, row.version);
      if existing > 1 {
        return Err(NotUnique);
      }
      if existing == 1 {
        return Ok((inserted, skipped + 1, characters));
      }
      if row.graphLength > MAX_JSON_CHARACTERS || row.metadataLength > MAX_JSON_CHARACTERS {
        return Err(JsonTooLong);
      }
      var total := characters + row.graphLength + row.metadataLength;
      if total > MAX_BATCH_JSON_CHARACTERS {
        return Err(BudgetExceeded(total));
      }
      graphs := graphs + [Graph(row.caseId, row.version, MigrationWriter)];
      result := Ok((inserted + 1, skipped, total));
    }

    /** The loop over a page's rows, inserting graphs as it goes. */
    method ImportPage(pageRows: seq<LegacyCase>) returns (result: Result<(nat, nat), MigrationError>)
      modifies `graphs
      ensures var batch := ImportRows(Batch(old(graphs), 0, 0, 0), pageRows);
              if batch.Err? then result == Err(batch.error)
              else graphs == batch.value.graphs && result == Ok((batch.value.inserted, batch.value.skipped))
    {
      var inserted: nat, skipped: nat, characters: nat := 0, 0, 0;
      ghost var start := Batch(graphs, 0, 0, 0);
      for i := 0 to |pageRows|
        invariant ImportRows(start, pageRows[..i]) == Ok(Batch(graphs, inserted, skipped, characters))
      {
        OneMoreRow(start, pageRows, i);
        var imported := ImportNext(pageRows[i], inserted, skipped, characters);
        if imported.Err? {
          return Err(imported.error);
        }
        inserted, skipped, characters := imported.value.0, imported.value.1, imported.value.2;
      }
      assert pageRows[..|pageRows|] == pageRows;
      result := Ok((inserted, skipped));
    }

    method BackfillPage(pageRows: seq<LegacyCase>, batchId: string, cursor: Option<nat>, limit: Option<int>, page: Page)
      returns (reply: Result<Reply, MigrationError>)
      modifies this
      ensures var step := BackfillStep(old(State()), pageRows, batchId, cursor, limit, page);
              if step.Err? then State() == old(State()) && reply == Err(step.error)
              else State() == step.value.0 && reply == Ok(step.value.1)
    {
      var size :- BoundedPageSize(limit, MAX_BACKFILL_PAGE_SIZE);
      if checkpoint.Some? && checkpoint.value.lastBatchId == batchId {
        return Ok(ReplayReply(checkpoint.value));
      }
      if checkpoint.Some? && checkpoint.value.complete {
        return Ok(CompleteReply(checkpoint.value));
      }
      if (if checkpoint.Some? then checkpoint.value.cursor else None) != cursor {
        return Err(CursorMismatch);
      }
      var committed := graphs;
      var imported := ImportPage(pageRows);
      if imported.Err? {
        graphs := committed;
        return Err(imported.error);
      }
      var next := Advance(checkpoint, batchId, page, imported.value.0, imported.value.1);
      checkpoint := Some(next);
      reply := Ok(FreshReply(next));
    }

    method InventoryPage(batchId: string, cursor: Option<nat>, limit: Option<int>, page: Page)
      returns (reply: Result<Reply, MigrationError>)
      modifies `checkpoint
      ensures var step := InventoryStep(old(State()), batchId, cursor, limit, page);
              if step.Err? then State() == old(State()) && reply == Err(step.error)
              else State() == step.value.0 && reply == Ok(step.value.1)
    {
      var size :- BoundedPageSize(limit, MAX_INVENTORY_PAGE_SIZE);
      if checkpoint.Some? && checkpoint.value.lastBatchId == batchId {
        return Ok(ReplayReply(checkpoint.value));
      }
      if checkpoint.Some? && checkpoint.value.complete {
        return Ok(CompleteReply(checkpoint.value));
      }
      if (if checkpoint.Some? then checkpoint.value.cursor else None) != cursor {
        return Err(CursorMismatch);
      }
      var next := Advance(checkpoint, batchId, page, 0, 0);
      checkpoint := Some(next);
      reply := Ok(FreshReply(next));
    }
  }

  /** The next row of a page: imported after the earlier ones, and its failure is the page's. */
  lemma OneMoreRow(start: Batch, rows: seq<LegacyCase>, i: nat)
    requires i < |rows| && ImportRows(start, rows[..i]).Ok?
    ensures ImportRows(start, rows[..i + 1]) == ImportRow(ImportRows(start, rows[..i]).value, rows[i])
    ensures ImportRows(start, rows[..i + 1]).Err? ==> ImportRows(start, rows) == ImportRows(start, rows[..i + 1])
  {
    assert rows[..i + 1][..i] == rows[..i];
    ImportFails(start, rows, i + 1);
  }

  /** A row that fails fails its page. */
  lemma {:induction false} ImportFails(start: Batch, rows: seq<LegacyCase>, n: nat)
    requires n <= |rows|
    ensures ImportRows(start, rows[..n]).Err? ==> ImportRows(start, rows) == ImportRows(start, rows[..n])
    decreases |rows| - n
  {
    if n == |rows| {
      assert rows[..n] == rows;
    } else {
      ImportFails(start, rows, n + 1);
      assert rows[..n + 1][..n] == rows[..n];
    }
  }

  // ---------------------------------------------------------------- runs

  /** Deliveries of pages with any batch id, cursor and limit, and graphs written by anyone else, who checks
      like the importer that the case version is free. */
  datatype Step =
    | Backfill(batchId: string, cursor: Option<nat>, limit: Option<int>, page: Page)
    | Inventory(batchId: string, cursor: Option<nat>, limit: Option<int>, page: Page)
    | OtherGraph(caseId: string, version: int)

  /** Both migrations keep a checkpoint of their own; they share the graph table. */
  datatype World = World(graphs: seq<Graph>, backfill: Option<Checkpoint>, inventory: Option<Checkpoint>)

  ghost predicate Possible(rows: seq<LegacyCase>, w: World, step: Step) {
    match step
    case Backfill(batchId, cursor, limit, page) =>
      Admit(w.backfill, batchId, cursor).Proceed? && BoundedPageSize(limit, MAX_BACKFILL_PAGE_SIZE).Ok? ==>
        IsPage(rows, cursor, BoundedPageSize(limit, MAX_BACKFILL_PAGE_SIZE).value, page)
    case Inventory(batchId, cursor, limit, page) =>
      Admit(w.inventory, batchId, cursor).Proceed? && BoundedPageSize(limit, MAX_INVENTORY_PAGE_SIZE).Ok? ==>
        IsPage(rows, cursor, BoundedPageSize(limit, MAX_INVENTORY_PAGE_SIZE).value, page)
    case OtherGraph(caseId, version) => GraphsOf(w.graphs, caseId, version) == 0
  }

  function RowsFor(rows: seq<LegacyCase>, cursor: Option<nat>, page: Page): seq<LegacyCase> {
    if Start(cursor) + page.count <= |rows| then PageRows(rows, cursor, page) else []
  }

  function Next(rows: seq<LegacyCase>, w: World, step: Step): World {
    match step
    case Backfill(batchId, cursor, limit, page) =>
      var r := BackfillStep(Store(w.graphs, w.backfill), RowsFor(rows, cursor, page), batchId, cursor, limit, page);
      if r.Err? then w else w.(graphs := r.value.0.graphs, backfill := r.value.0.checkpoint)
    case Inventory(batchId, cursor, limit, page) =>
      var r := InventoryStep(Store(w.graphs, w.inventory), batchId, cursor, limit, page);
      if r.Err? then w else w.(inventory := r.value.0.checkpoint)
    case OtherGraph(caseId, version) => w.(graphs := w.graphs + [Graph(caseId, version, OtherWriter)])
  }

  ghost predicate PossibleRun(rows: seq<LegacyCase>, w: World, steps: seq<Step>)
    decreases |steps|
  {
    steps == [] || (Possible(rows, w, steps[0]) && PossibleRun(rows, Next(rows, w, steps[0]), steps[1..]))
  }

  function Run(rows: seq<LegacyCase>, w: World, steps: seq<Step>): World
    decreases |steps|
  {
    if steps == [] then w else Run(rows, Next(rows, w, steps[0]), steps[1..])
  }

  // ---------------------------------------------------------------- invariants

  /** Rows the checkpoint has passed. */
  function Reached(rows: seq<LegacyCase>, checkpoint: Option<Checkpoint>): nat {
    if checkpoint.None? then 0 else if checkpoint.value.complete then |rows| else Start(checkpoint.value.cursor)
  }

  predicate ProgressInv(rows: seq<LegacyCase>, checkpoint: Option<Checkpoint>) {
    checkpoint.Some? ==>
      && checkpoint.value.processed == Reached(rows, checkpoint) <= |rows|
      && (!checkpoint.value.complete ==> checkpoint.value.cursor.Some? && checkpoint.value.cursor.value >= 1)
  }

  predicate Unique(graphs: seq<Graph>) {
    forall i, j :: 0 <= i < j < |graphs| ==> !SameCase(graphs[i], graphs[j])
  }

  predicate SameCase(a: Graph, b: Graph) {
    a.caseId == b.caseId && a.version == b.version
  }

  predicate Imported(graphs: seq<Graph>, row: LegacyCase) {
    GraphsOf(graphs, row.caseId, row.version) == 1
  }

  predicate RowsImported(graphs: seq<Graph>, rows: seq<LegacyCase>, n: nat) {
    n <= |rows| && forall i :: 0 <= i < n ==> Imported(graphs, rows[i])
  }

  predicate MigrationInv(rows: seq<LegacyCase>, w: World) {
    && ProgressInv(rows, w.backfill) && ProgressInv(rows, w.inventory)
    && Unique(w.graphs)
    && RowsImported(w.graphs, rows, Reached(rows, w.backfill))
    && (w.backfill.Some? ==>
          && w.backfill.value.inserted + w.backfill.value.skipped == w.backfill.value.processed
          && WrittenBy(w.graphs, MigrationWriter) == w.backfill.value.inserted)
    && (w.backfill.None? ==> WrittenBy(w.graphs, MigrationWriter) == 0)
  }

  lemma {:induction false} UniqueMeansAtMostOne(graphs: seq<Graph>, caseId: string, version: int)
    requires Unique(graphs)
    ensures GraphsOf(graphs, caseId, version) <= 1
    ensures GraphsOf(graphs, caseId, version) == 0 <==>
              forall i :: 0 <= i < |graphs| ==> !(graphs[i].caseId == caseId && graphs[i].version == version)
  {
    if graphs != [] {
      UniqueMeansAtMostOne(graphs[..|graphs| - 1], caseId, version);
    }
  }

  lemma GraphAppended(graphs: seq<Graph>, g: Graph)
    requires Unique(graphs) && GraphsOf(graphs, g.caseId, g.version) == 0
    ensures Unique(graphs + [g])
    ensures forall caseId, version :: GraphsOf(graphs + [g], caseId, version)
              == GraphsOf(graphs, caseId, version) + if g.caseId == caseId && g.version == version then 1 else 0
    ensures forall writer ::
              WrittenBy(graphs + [g], writer) == WrittenBy(graphs, writer) + if g.writer == writer then 1 else 0
  {
    UniqueMeansAtMostOne(graphs, g.caseId, g.version);
    assert (graphs + [g])[..|graphs|] == graphs;
  }

  /** What importing rows does: every row ends with exactly one graph, earlier ones keep theirs, and each row
      was either inserted by this batch or found. */
  ghost predicate ImportEffect(start: Batch, rows: seq<LegacyCase>, end: Batch) {
    && Unique(end.graphs)
    && (forall caseId, version :: GraphsOf(end.graphs, caseId, version) >= GraphsOf(start.graphs, caseId, version))
    && (forall i :: 0 <= i < |rows| ==> Imported(end.graphs, rows[i]))
    && end.inserted + end.skipped == start.inserted + start.skipped + |rows|
    && WrittenBy(end.graphs, MigrationWriter) + start.inserted
       == WrittenBy(start.graphs, MigrationWriter) + end.inserted
  }

  lemma {:induction false} ImportHasEffect(start: Batch, rows: seq<LegacyCase>)
    requires Unique(start.graphs) && ImportRows(start, rows).Ok?
    ensures ImportEffect(start, rows, ImportRows(start, rows).value)
  {
    if rows != [] {
      var earlier, row := rows[..|rows| - 1], rows[|rows| - 1];
      ImportHasEffect(start, earlier);
      var before := ImportRows(start, earlier).value;
      ImportRowHasEffect(start, earlier, before, row);
      assert rows == earlier + [row];
    }
  }

  lemma ImportRowHasEffect(start: Batch, earlier: seq<LegacyCase>, before: Batch, row: LegacyCase)
    requires ImportEffect(start, earlier, before) && ImportRow(before, row).Ok?
    ensures ImportEffect(start, earlier + [row], ImportRow(before, row).value)
  {
    UniqueMeansAtMostOne(before.graphs, row.caseId, row.version);
    var end := ImportRow(before, row).value;
    if end.graphs != before.graphs {
      GraphAppended(before.graphs, Graph(row.caseId, row.version, MigrationWriter));
    }
    forall i | 0 <= i < |earlier + [row]| ensures Imported(end.graphs, (earlier + [row])[i]) {
      var r := (earlier + [row])[i];
      UniqueMeansAtMostOne(end.graphs, r.caseId, r.version);
      if i < |earlier| {
        assert Imported(before.graphs, earlier[i]);
      }
    }
  }

  lemma BackfillKeepsInv(rows: seq<LegacyCase>, w: World, step: Step)
    requires MigrationInv(rows, w) && Possible(rows, w, step) && step.Backfill?
    ensures MigrationInv(rows, Next(rows, w, step))
  {
    var Backfill(batchId, cursor, limit, page) := step;
    if Next(rows, w, step).backfill != w.backfill {
      var start := Batch(w.graphs, 0, 0, 0);
      var end := BackfillMeans(rows, w, step);
      ImportHasEffect(start, RowsFor(rows, cursor, page));
      AdvanceMeans(rows, w.backfill, batchId, cursor, page, end.inserted, end.skipped);
      MovedOn(rows, w, start, end, Start(cursor), page.count,
              Advance(w.backfill, batchId, page, end.inserted, end.skipped));
    } else {
      UnmovedIsSame(rows, w, step);
    }
  }

  /** A delivery that does not move the checkpoint changes nothing. */
  lemma UnmovedIsSame(rows: seq<LegacyCase>, w: World, step: Step)
    requires step.Backfill? && Possible(rows, w, step) && Next(rows, w, step).backfill == w.backfill
    ensures Next(rows, w, step) == w
  {
  }

  /** The invariant after the checkpoint has moved on over rows that are imported. */
  lemma MovedOn(rows: seq<LegacyCase>, w: World, start: Batch, end: Batch, reached: nat, count: nat, next: Checkpoint)
    requires MigrationInv(rows, w) && start == Batch(w.graphs, 0, 0, 0) && reached + count <= |rows|
    requires ImportEffect(start, rows[reached..reached + count], end)
    requires ProgressInv(rows, Some(next)) && Reached(rows, w.backfill) == reached
    requires Reached(rows, Some(next)) == reached + count
    requires next.inserted == (if w.backfill.Some? then w.backfill.value.inserted else 0) + end.inserted
    requires next.skipped == (if w.backfill.Some? then w.backfill.value.skipped else 0) + end.skipped
    requires next.processed == (if w.backfill.Some? then w.backfill.value.processed else 0) + count
    ensures MigrationInv(rows, w.(graphs := end.graphs, backfill := Some(next)))
  {
    PageImported(rows, start, reached, count, end);
  }

  /** What a delivery that moves the backfill on has checked and does; any other leaves the world as it is. */
  lemma BackfillMeans(rows: seq<LegacyCase>, w: World, step: Step) returns (end: Batch)
    requires Possible(rows, w, step) && step.Backfill? && Next(rows, w, step).backfill != w.backfill
    ensures Admit(w.backfill, step.batchId, step.cursor).Proceed? && Start(step.cursor) + step.page.count <= |rows|
    ensures if step.page.done then Start(step.cursor) + step.page.count == |rows|
            else step.page.count >= 1 && step.page.next == Start(step.cursor) + step.page.count
    ensures ImportRows(Batch(w.graphs, 0, 0, 0), RowsFor(rows, step.cursor, step.page)) == Ok(end)
    ensures RowsFor(rows, step.cursor, step.page) == rows[Start(step.cursor)..Start(step.cursor) + step.page.count]
    ensures Next(rows, w, step)
            == w.(graphs := end.graphs,
                  backfill := Some(Advance(w.backfill, step.batchId, step.page, end.inserted, end.skipped)))
  {
    end := ImportRows(Batch(w.graphs, 0, 0, 0), RowsFor(rows, step.cursor, step.page)).value;
  }

  /** What advancing over a page of the table does to a checkpoint: it counts the page's rows and moves past them. */
  lemma AdvanceMeans(rows: seq<LegacyCase>, checkpoint: Option<Checkpoint>, batchId: string, cursor: Option<nat>,
                     page: Page, inserted: nat, skipped: nat)
    requires ProgressInv(rows, checkpoint) && Admit(checkpoint, batchId, cursor).Proceed?
    requires Start(cursor) + page.count <= |rows|
    requires if page.done then Start(cursor) + page.count == |rows|
             else page.count >= 1 && page.next == Start(cursor) + page.count
    ensures var next := Advance(checkpoint, batchId, page, inserted, skipped);
            && ProgressInv(rows, Some(next))
            && Reached(rows, checkpoint) == Start(cursor) && Reached(rows, Some(next)) == Start(cursor) + page.count
            && next.inserted == (if checkpoint.Some? then checkpoint.value.inserted else 0) + inserted
            && next.skipped == (if checkpoint.Some? then checkpoint.value.skipped else 0) + skipped
            && next.processed == (if checkpoint.Some? then checkpoint.value.processed else 0) + page.count
            && next.complete == page.done
  {
  }

  /** Rows before the cursor stay imported and the page's rows join them. */
  lemma PageImported(rows: seq<LegacyCase>, start: Batch, reached: nat, count: nat, end: Batch)
    requires reached + count <= |rows| && RowsImported(start.graphs, rows, reached)
    requires ImportEffect(start, rows[reached..reached + count], end)
    ensures RowsImported(end.graphs, rows, reached + count)
  {
    forall i | 0 <= i < reached + count ensures Imported(end.graphs, rows[i]) {
      UniqueMeansAtMostOne(end.graphs, rows[i].caseId, rows[i].version);
      if i < reached {
        assert Imported(start.graphs, rows[i]);
      } else {
        assert rows[reached..reached + count][i - reached] == rows[i];
      }
    }
  }

  lemma MigrationKept(rows: seq<LegacyCase>, w: World, step: Step)
    requires MigrationInv(rows, w) && Possible(rows, w, step)
    ensures MigrationInv(rows, Next(rows, w, step))
  {
    match step
    case Backfill(_, _, _, _) => BackfillKeepsInv(rows, w, step);
    case Inventory(_, _, _, _) =>
    case OtherGraph(caseId, version) =>
      GraphAppended(w.graphs, Graph(caseId, version, OtherWriter));
      OtherGraphKeepsRows(w.graphs, Graph(caseId, version, OtherWriter), rows, Reached(rows, w.backfill));
  }

  lemma OtherGraphKeepsRows(graphs: seq<Graph>, g: Graph, rows: seq<LegacyCase>, n: nat)
    requires Unique(graphs) && GraphsOf(graphs, g.caseId, g.version) == 0 && RowsImported(graphs, rows, n)
    ensures RowsImported(graphs + [g], rows, n)
  {
    GraphAppended(graphs, g);
    forall i | 0 <= i < n ensures Imported(graphs + [g], rows[i]) {
      assert Imported(graphs, rows[i]);
    }
  }

  lemma {:induction false} RunKeepsMigration(rows: seq<LegacyCase>, w: World, steps: seq<Step>)
    requires MigrationInv(rows, w) && PossibleRun(rows, w, steps)
    ensures MigrationInv(rows, Run(rows, w, steps))
    decreases |steps|
  {
    if steps != [] {
      MigrationKept(rows, w, steps[0]);
      RunKeepsMigration(rows, Next(rows, w, steps[0]), steps[1..]);
    }
  }

  // ---------------------------------------------------------------- main results

  /** In every run of retried, reordered and rejected batches the totals count the rows before the cursor once
      each; on completion every legacy case version has exactly one graph. */
  lemma EveryRunCountsOnce(rows: seq<LegacyCase>, existing: seq<Graph>, steps: seq<Step>)
    requires Unique(existing) && WrittenBy(existing, MigrationWriter) == 0
    requires PossibleRun(rows, World(existing, None, None), steps)
    ensures var w := Run(rows, World(existing, None, None), steps);
            && MigrationInv(rows, w)
            && (w.backfill.Some? && w.backfill.value.complete ==>
                  && w.backfill.value.processed == |rows|
                  && forall i :: 0 <= i < |rows| ==> Imported(w.graphs, rows[i]))
            && (w.inventory.Some? && w.inventory.value.complete ==> w.inventory.value.processed == |rows|)
  {
    RunKeepsMigration(rows, World(existing, None, None), steps);
  }

  /** Delivering the last batch again returns its stored reply and changes nothing, for any cursor and page. */
  lemma LastBatchReplays(store: Store, pageRows: seq<LegacyCase>, batchId: string, cursor: Option<nat>,
                         limit: Option<int>, page: Page, again: Option<nat>, pageAgain: Page,
                         rowsAgain: seq<LegacyCase>)
    requires BackfillStep(store, pageRows, batchId, cursor, limit, page).Ok?
    requires !BackfillStep(store, pageRows, batchId, cursor, limit, page).value.1.replayed
    ensures var first := BackfillStep(store, pageRows, batchId, cursor, limit, page).value;
            BackfillStep(first.0, rowsAgain, batchId, again, limit, pageAgain)
            == Ok((first.0, first.1.(replayed := true)))
  {
  }

  /** A retry of an earlier batch cannot be counted twice: while the migration runs, its input cursor is behind. */
  lemma EarlierCursorRejected(rows: seq<LegacyCase>, w: World, batchId: string, cursor: Option<nat>, limit: Option<int>,
                              page: Page)
    requires MigrationInv(rows, w) && w.backfill.Some? && w.backfill.value.lastBatchId != batchId
    requires Start(cursor) != Reached(rows, w.backfill)
    ensures Next(rows, w, Backfill(batchId, cursor, limit, page)) == w
  {
  }

  /** The default page size exceeds the backfill's maximum, so a backfill without a limit always throws. */
  lemma BackfillNeedsALimit(store: Store, pageRows: seq<LegacyCase>, batchId: string, cursor: Option<nat>, page: Page)
    ensures BackfillStep(store, pageRows, batchId, cursor, None, page) == Err(LimitInvalid)
    ensures forall limit :: BoundedPageSize(Some(limit), MAX_BACKFILL_PAGE_SIZE).Ok? <==> 1 <= limit <= 10
  {
  }

  /** A page that overruns the JSON budget is retried smaller; a page of one importable row always fits, so
      the backfill can always move on by one. */
  lemma OneRowAlwaysFits(rows: seq<LegacyCase>, w: World, batchId: string, page: Page)
    requires MigrationInv(rows, w) && Reached(rows, w.backfill) < |rows|
    requires w.backfill.Some? ==> w.backfill.value.lastBatchId != batchId && !w.backfill.value.complete
    requires var cursor := if w.backfill.Some? then w.backfill.value.cursor else None;
             IsPage(rows, cursor, 1, page) && page.count == 1
    requires var row := rows[Reached(rows, w.backfill)];
             1 <= row.version <= MAX_SAFE_INTEGER && row.graphLength <= MAX_JSON_CHARACTERS
             && row.metadataLength <= MAX_JSON_CHARACTERS
    ensures var cursor := if w.backfill.Some? then w.backfill.value.cursor else None;
            var n := Next(rows, w, Backfill(batchId, cursor, Some(1), page));
            Reached(rows, n.backfill) == Reached(rows, w.backfill) + 1
  {
    var cursor := if w.backfill.Some? then w.backfill.value.cursor else None;
    var row := rows[Reached(rows, w.backfill)];
    UniqueMeansAtMostOne(w.graphs, row.caseId, row.version);
    assert RowsFor(rows, cursor, page) == [row];
    assert [row][..0] == [];
    var start := Batch(w.graphs, 0, 0, 0);
    assert ImportRows(start, [row]) == ImportRow(start, row);
  }

  // ---------------------------------------------------------------- completion

  function CursorOf(checkpoint: Option<Checkpoint>): Option<nat> {
    if checkpoint.Some? then checkpoint.value.cursor else None
  }

  /** A legacy row that import can never refuse for itself. */
  predicate Importable(row: LegacyCase) {
    1 <= row.version <= MAX_SAFE_INTEGER && row.graphLength <= MAX_JSON_CHARACTERS
      && row.metadataLength <= MAX_JSON_CHARACTERS
  }

  predicate AllImportable(rows: seq<LegacyCase>) {
    forall i :: 0 <= i < |rows| ==> Importable(rows[i])
  }

  /** The fresh deliveries of one-row pages that completion still needs at most: one for each row that is left, and
      one to find the end. */
  function Remaining(rows: seq<LegacyCase>, checkpoint: Option<Checkpoint>): int {
    if checkpoint.Some? && checkpoint.value.complete then 0 else |rows| + 1 - Reached(rows, checkpoint)
  }

  /** A delivery at the checkpoint's cursor, of a one-row page, under a batch id that is not the last one's. */
  predicate IsFreshDelivery(checkpoint: Option<Checkpoint>, step: Step) {
    && step.Backfill? && step.limit == Some(1) && step.cursor == CursorOf(checkpoint)
    && (checkpoint.Some? ==> checkpoint.value.lastBatchId != step.batchId)
  }

  /** The fresh deliveries in a run. */
  function FreshDeliveries(rows: seq<LegacyCase>, w: World, steps: seq<Step>): nat
    decreases |steps|
  {
    if steps == [] then 0
    else
      (if IsFreshDelivery(w.backfill, steps[0]) then 1 else 0)
      + FreshDeliveries(rows, Next(rows, w, steps[0]), steps[1..])
  }

  /** A page of at most one row always imports. */
  lemma SmallPageImports(graphs: seq<Graph>, pageRows: seq<LegacyCase>)
    requires Unique(graphs) && |pageRows| <= 1 && AllImportable(pageRows)
    ensures ImportRows(Batch(graphs, 0, 0, 0), pageRows).Ok?
  {
    if pageRows != [] {
      var row := pageRows[0];
      UniqueMeansAtMostOne(graphs, row.caseId, row.version);
      assert pageRows[..0] == [];
      assert ImportRows(Batch(graphs, 0, 0, 0), pageRows) == ImportRow(Batch(graphs, 0, 0, 0), row);
    }
  }

  /** A fresh delivery moves on by a row or completes. */
  lemma FreshDeliveryAdvances(rows: seq<LegacyCase>, w: World, step: Step)
    requires MigrationInv(rows, w) && Possible(rows, w, step) && AllImportable(rows)
    requires IsFreshDelivery(w.backfill, step) && Remaining(rows, w.backfill) > 0
    ensures Remaining(rows, Next(rows, w, step).backfill) < Remaining(rows, w.backfill)
  {
    var Backfill(batchId, cursor, limit, page) := step;
    assert Admit(w.backfill, batchId, cursor).Proceed?;
    var pageRows := RowsFor(rows, cursor, page);
    SmallPageImports(w.graphs, pageRows);
    var end := ImportRows(Batch(w.graphs, 0, 0, 0), pageRows).value;
    AdvanceMeans(rows, w.backfill, batchId, cursor, page, end.inserted, end.skipped);
  }

  /** No step of anyone takes the backfill back. */
  lemma NothingGoesBack(rows: seq<LegacyCase>, w: World, step: Step)
    requires MigrationInv(rows, w) && Possible(rows, w, step)
    ensures Remaining(rows, Next(rows, w, step).backfill) <= Remaining(rows, w.backfill)
  {
    if step.Backfill? && Next(rows, w, step).backfill != w.backfill {
      var end := BackfillMeans(rows, w, step);
      AdvanceMeans(rows, w.backfill, step.batchId, step.cursor, step.page, end.inserted, end.skipped);
    }
  }

  lemma RemainingIsNatural(rows: seq<LegacyCase>, w: World)
    requires MigrationInv(rows, w)
    ensures Remaining(rows, w.backfill) >= 0
    ensures Remaining(rows, w.backfill) == 0 <==> w.backfill.Some? && w.backfill.value.complete
  {
  }

  /** If every legacy row is importable, a run completes the backfill as soon as it holds one fresh delivery of a
      one-row page for each row left and one more, whatever larger pages, retries, stale cursors, inventories and
      other writers' graphs come in between; and it stays complete. */
  lemma {:induction false} FreshDeliveriesComplete(rows: seq<LegacyCase>, w: World, steps: seq<Step>)
    requires MigrationInv(rows, w) && PossibleRun(rows, w, steps) && AllImportable(rows)
    requires FreshDeliveries(rows, w, steps) >= Remaining(rows, w.backfill)
    ensures var n := Run(rows, w, steps);
            && n.backfill.Some? && n.backfill.value.complete && n.backfill.value.processed == |rows|
            && forall i :: 0 <= i < |rows| ==> Imported(n.graphs, rows[i])
    decreases |steps|
  {
    RemainingIsNatural(rows, w);
    if steps != [] {
      MigrationKept(rows, w, steps[0]);
      NothingGoesBack(rows, w, steps[0]);
      if IsFreshDelivery(w.backfill, steps[0]) && Remaining(rows, w.backfill) > 0 {
        FreshDeliveryAdvances(rows, w, steps[0]);
      }
      RemainingIsNatural(rows, Next(rows, w, steps[0]));
      FreshDeliveriesComplete(rows, Next(rows, w, steps[0]), steps[1..]);
    }
  }

  /** The page of one row, or the empty last page, at a position. */
  function OneRowPage(rows: seq<LegacyCase>, position: nat): Page {
    if position < |rows| then Page(1, position + 1 == |rows|, position + 1) else Page(0, true, 0)
  }

  /** Deliveries of one row after another under the given batch ids, each at the cursor the last one left. */
  function OneRowRun(rows: seq<LegacyCase>, w: World, batchIds: seq<string>): seq<Step>
    decreases |batchIds|
  {
    if batchIds == [] then []
    else
      var cursor := CursorOf(w.backfill);
      var step := Backfill(batchIds[0], cursor, Some(1), OneRowPage(rows, Start(cursor)));
      [step] + OneRowRun(rows, Next(rows, w, step), batchIds[1..])
  }

  predicate FreshIds(checkpoint: Option<Checkpoint>, batchIds: seq<string>) {
    && (checkpoint.Some? && batchIds != [] ==> checkpoint.value.lastBatchId != batchIds[0])
    && forall i :: 0 < i < |batchIds| ==> batchIds[i - 1] != batchIds[i]
  }

  lemma OneRowPageIsPage(rows: seq<LegacyCase>, w: World)
    requires MigrationInv(rows, w) && Remaining(rows, w.backfill) > 0
    ensures IsPage(rows, CursorOf(w.backfill), 1, OneRowPage(rows, Start(CursorOf(w.backfill))))
  {
  }

  /** A fresh delivery leaves its batch id in the checkpoint. */
  lemma FreshDeliveryIsLast(rows: seq<LegacyCase>, w: World, step: Step)
    requires MigrationInv(rows, w) && Possible(rows, w, step) && AllImportable(rows)
    requires IsFreshDelivery(w.backfill, step) && Remaining(rows, w.backfill) > 0
    ensures var next := Next(rows, w, step).backfill; next.Some? && next.value.lastBatchId == step.batchId
  {
    assert Admit(w.backfill, step.batchId, step.cursor).Proceed?;
    SmallPageImports(w.graphs, RowsFor(rows, step.cursor, step.page));
  }

  lemma OneRowStepIsFresh(rows: seq<LegacyCase>, w: World, batchIds: seq<string>)
    requires MigrationInv(rows, w) && AllImportable(rows) && batchIds != [] && FreshIds(w.backfill, batchIds)
    ensures var cursor := CursorOf(w.backfill);
            var step := Backfill(batchIds[0], cursor, Some(1), OneRowPage(rows, Start(cursor)));
            && Possible(rows, w, step) && IsFreshDelivery(w.backfill, step)
            && (Remaining(rows, w.backfill) > 0 ==> FreshIds(Next(rows, w, step).backfill, batchIds[1..]))
  {
    var cursor := CursorOf(w.backfill);
    var step := Backfill(batchIds[0], cursor, Some(1), OneRowPage(rows, Start(cursor)));
    if Remaining(rows, w.backfill) > 0 {
      OneRowPageIsPage(rows, w);
      FreshDeliveryIsLast(rows, w, step);
    }
  }

  lemma {:induction false} OneRowRunLeavesNone(rows: seq<LegacyCase>, w: World, batchIds: seq<string>)
    requires MigrationInv(rows, w) && AllImportable(rows) && |batchIds| >= Remaining(rows, w.backfill)
    requires Remaining(rows, w.backfill) > 0 ==> FreshIds(w.backfill, batchIds)
    ensures PossibleRun(rows, w, OneRowRun(rows, w, batchIds))
    ensures Remaining(rows, Run(rows, w, OneRowRun(rows, w, batchIds)).backfill) == 0
    decreases |batchIds|
  {
    RemainingIsNatural(rows, w);
    if batchIds != [] {
      var cursor := CursorOf(w.backfill);
      var step := Backfill(batchIds[0], cursor, Some(1), OneRowPage(rows, Start(cursor)));
      var n := Next(rows, w, step);
      if Remaining(rows, w.backfill) > 0 {
        OneRowStepIsFresh(rows, w, batchIds);
        FreshDeliveryAdvances(rows, w, step);
      }
      assert Possible(rows, w, step);
      MigrationKept(rows, w, step);
      NothingGoesBack(rows, w, step);
      OneRowRunLeavesNone(rows, n, batchIds[1..]);
      assert OneRowRun(rows, w, batchIds)[1..] == OneRowRun(rows, n, batchIds[1..]);
    }
  }

  /** Such a run exists from every state, and completes: as many batch ids as rows are left and one more, each
      different from the one before, finish the backfill. */
  lemma OneRowRunCompletes(rows: seq<LegacyCase>, w: World, batchIds: seq<string>)
    requires MigrationInv(rows, w) && AllImportable(rows) && FreshIds(w.backfill, batchIds)
    requires |batchIds| >= Remaining(rows, w.backfill)
    ensures PossibleRun(rows, w, OneRowRun(rows, w, batchIds))
    ensures var n := Run(rows, w, OneRowRun(rows, w, batchIds));
            && n.backfill.Some? && n.backfill.value.complete
            && forall i :: 0 <= i < |rows| ==> Imported(n.graphs, rows[i])
  {
    OneRowRunLeavesNone(rows, w, batchIds);
    RunKeepsMigration(rows, w, OneRowRun(rows, w, batchIds));
    RemainingIsNatural(rows, Run(rows, w, OneRowRun(rows, w, batchIds)));
  }
}
