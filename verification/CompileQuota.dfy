/** The rolling compile quota (convex/caseCompileQuota.ts, and its copy in convex/caseCompileClaims.ts).

    A client key may start five compilations in any ten minutes. Each request rewrites the key's
    row and prunes a batch of stale rows that belong to other keys. */
module CompileQuota {
  import opened Outcomes

  const WINDOW_MS := 600000
  const MAX_ATTEMPTS := 5
  const RETENTION_MS := 2 * WINDOW_MS
  const PRUNE_BATCH_SIZE := 64

  datatype QuotaError = InvalidTime | InvalidState | DuplicateRecord

  datatype Permit = Permit(allowed: bool, retryAfterSeconds: int)

  datatype Transition = Transition(permit: Permit, attemptedAt: seq<int>)

  // ---------------------------------------------------------------- the pure transition

  /** `Math.ceil(ms / 1000)`; Dafny's `/` rounds towards minus infinity for a positive divisor. */
  function CeilSeconds(ms: int): int {
    -((-ms) / 1000)
  }

  function After(times: seq<int>, cutoff: int): seq<int> {
    if times == [] then []
    else (if times[0] > cutoff then [times[0]] else []) + After(times[1..], cutoff)
  }

  function Insert(sorted: seq<int>, t: int): seq<int> {
    if sorted == [] || t < sorted[0] then [t] + sorted
    else [sorted[0]] + Insert(sorted[1..], t)
  }

  function Sort(times: seq<int>): seq<int> {
    if times == [] then [] else Insert(Sort(times[..|times| - 1]), times[|times| - 1])
  }

  predicate StateAccepted(attemptedAt: seq<int>) {
    |attemptedAt| <= MAX_ATTEMPTS && forall i :: 0 <= i < |attemptedAt| ==> attemptedAt[i] >= 0
  }

  function EvaluatePermit(stored: Option<seq<int>>, now: int): Result<Transition, QuotaError> {
    var attemptedAt := if stored.Some? then stored.value else [];
    if !SafeTimestamp(now) then Err(InvalidTime)
    else if !StateAccepted(attemptedAt) then Err(InvalidState)
    else
      var recent := Sort(After(attemptedAt, now - WINDOW_MS));
      if |recent| >= MAX_ATTEMPTS then
        var seconds := CeilSeconds(recent[0] + WINDOW_MS - now);
        var atLeastOne := if seconds < 1 then 1 else seconds;
        var clamped := if atLeastOne > 600 then 600 else atLeastOne;
        Ok(Transition(Permit(false, clamped), recent))
      else
        Ok(Transition(Permit(true, 0), Sort(recent + [now])))
  }

  function PruneCutoff(now: int): int {
    if now - RETENTION_MS < 0 then 0 else now - RETENTION_MS
  }

  // ---------------------------------------------------------------- facts about sorting and filtering

  ghost predicate Ascending(times: seq<int>) {
    forall i, j :: 0 <= i < j < |times| ==> times[i] <= times[j]
  }

  lemma AscendingCons(head: int, rest: seq<int>)
    requires Ascending(rest) && forall x :: x in rest ==> head <= x
    ensures Ascending([head] + rest)
  {
    var times := [head] + rest;
    forall i, j | 0 <= i < j < |times| ensures times[i] <= times[j] {
      assert times[j] == rest[j - 1];
      if i > 0 {
        assert times[i] == rest[i - 1];
      } else {
        assert rest[j - 1] in rest;
      }
    }
  }

  lemma AscendingSnoc(times: seq<int>, last: int)
    requires Ascending(times) && forall x :: x in times ==> x <= last
    ensures Ascending(times + [last])
  {
    forall i, j | 0 <= i < j < |times| + 1 ensures (times + [last])[i] <= (times + [last])[j] {
      assert times[i] in times;
    }
  }

  lemma {:induction false} InsertPermutes(sorted: seq<int>, t: int)
    ensures multiset(Insert(sorted, t)) == multiset(sorted) + multiset{t}
  {
    if sorted != [] && t >= sorted[0] {
      InsertPermutes(sorted[1..], t);
      assert sorted == [sorted[0]] + sorted[1..];
    }
  }

  lemma {:induction false} InsertKeepsOrder(sorted: seq<int>, t: int)
    requires Ascending(sorted)
    ensures Ascending(Insert(sorted, t))
  {
    if sorted == [] {
    } else if t < sorted[0] {
      AscendingCons(t, sorted);
    } else {
      var head, rest := sorted[0], sorted[1..];
      InsertKeepsOrder(rest, t);
      InsertPermutes(rest, t);
      forall x | x in Insert(rest, t) ensures head <= x {
        assert x in multiset(Insert(rest, t));
        assert x == t || x in rest;
      }
      AscendingCons(head, Insert(rest, t));
    }
  }

  /** Sorting is specified independently: ascending and a permutation. */
  lemma {:induction false} SortSpec(times: seq<int>)
    ensures Ascending(Sort(times)) && multiset(Sort(times)) == multiset(times)
    ensures |Sort(times)| == |times|
  {
    if times != [] {
      var front, t := times[..|times| - 1], times[|times| - 1];
      SortSpec(front);
      InsertKeepsOrder(Sort(front), t);
      InsertPermutes(Sort(front), t);
      assert times == front + [t];
    }
    assert |multiset(Sort(times))| == |multiset(times)|;
  }

  lemma {:induction false} InsertAtEnd(sorted: seq<int>, t: int)
    requires forall i :: 0 <= i < |sorted| ==> sorted[i] <= t
    ensures Insert(sorted, t) == sorted + [t]
  {
    if sorted != [] {
      InsertAtEnd(sorted[1..], t);
      assert sorted == [sorted[0]] + sorted[1..];
    }
  }

  lemma {:induction false} SortOfAscending(times: seq<int>)
    requires Ascending(times)
    ensures Sort(times) == times
  {
    if times != [] {
      var front, t := times[..|times| - 1], times[|times| - 1];
      SortOfAscending(front);
      InsertAtEnd(front, t);
      assert times == front + [t];
    }
  }

  lemma {:induction false} AfterAppend(times: seq<int>, t: int, cutoff: int)
    ensures After(times + [t], cutoff) == After(times, cutoff) + if t > cutoff then [t] else []
  {
    if times == [] {
      assert [] + [t] == [t];
    } else {
      AfterAppend(times[1..], t, cutoff);
      assert (times + [t])[1..] == times[1..] + [t];
    }
  }

  lemma {:induction false} AfterMembers(times: seq<int>, cutoff: int)
    ensures forall t :: t in After(times, cutoff) <==> t in times && t > cutoff
    ensures |After(times, cutoff)| <= |times|
  {
    if times != [] {
      AfterMembers(times[1..], cutoff);
      assert times == [times[0]] + times[1..];
    }
  }

  // ---------------------------------------------------------------- retry-after is exact

  /** The row a denial leaves: five live attempts in order. */
  lemma DeniedRow(stored: seq<int>, now: int)
    requires EvaluatePermit(Some(stored), now).Ok?
    requires !EvaluatePermit(Some(stored), now).value.permit.allowed
    ensures SafeTimestamp(now) && StateAccepted(stored)
    ensures var row := EvaluatePermit(Some(stored), now).value.attemptedAt;
            && |row| == MAX_ATTEMPTS && Ascending(row) && StateAccepted(row)
            && forall t :: t in row <==> t in stored && t > now - WINDOW_MS
  {
    var live := After(stored, now - WINDOW_MS);
    AfterMembers(stored, now - WINDOW_MS);
    SortSpec(live);
    var row := Sort(live);
    forall t ensures t in row <==> t in live {
      assert t in multiset(row) <==> t in multiset(live);
    }
    forall i | 0 <= i < |row| ensures row[i] >= 0 {
      assert row[i] in stored;
    }
  }

  /** On a row of five live attempts, a later request is granted exactly when the oldest has left the window. */
  lemma GrantedOnceOldestLeaves(row: seq<int>, at: int)
    requires SafeTimestamp(at) && |row| == MAX_ATTEMPTS && StateAccepted(row) && Ascending(row)
    ensures EvaluatePermit(Some(row), at).Ok?
    ensures EvaluatePermit(Some(row), at).value.permit.allowed <==> row[0] <= at - WINDOW_MS
  {
    var cutoff := at - WINDOW_MS;
    SortSpec(After(row, cutoff));
    if row[0] > cutoff {
      AfterAll(row, cutoff);
    } else {
      AfterMembers(row[1..], cutoff);
    }
  }

  /** A request that is denied at `now` is told to wait for `retryAfterSeconds`. With stored attempts
      no later than now the value lies in 1..600, neither clamp of the code ever changes it, and it
      is the least whole number of seconds after which a request on the stored row is granted. */
  lemma RetryAfterIsExact(stored: seq<int>, now: int, seconds: nat)
    requires SafeTimestamp(now + 1000 * seconds)
    requires forall i :: 0 <= i < |stored| ==> stored[i] <= now
    requires EvaluatePermit(Some(stored), now).Ok?
    requires !EvaluatePermit(Some(stored), now).value.permit.allowed
    ensures var denied := EvaluatePermit(Some(stored), now).value;
            && |denied.attemptedAt| == MAX_ATTEMPTS
            && 1 <= denied.permit.retryAfterSeconds <= 600
            && denied.permit.retryAfterSeconds == CeilSeconds(denied.attemptedAt[0] + WINDOW_MS - now)
            && EvaluatePermit(Some(denied.attemptedAt), now + 1000 * seconds).Ok?
            && (EvaluatePermit(Some(denied.attemptedAt), now + 1000 * seconds).value.permit.allowed
                <==> seconds >= denied.permit.retryAfterSeconds)
  {
    DeniedRow(stored, now);
    var row := EvaluatePermit(Some(stored), now).value.attemptedAt;
    assert row[0] in row;
    GrantedOnceOldestLeaves(row, now + 1000 * seconds);
  }

  lemma {:induction false} AfterAll(times: seq<int>, cutoff: int)
    requires forall i :: 0 <= i < |times| ==> times[i] > cutoff
    ensures After(times, cutoff) == times
  {
    if times != [] {
      AfterAll(times[1..], cutoff);
    }
  }

  /** What the clamps are for: the upper one acts exactly when the clock ran backwards past the
      oldest live attempt; the lower one never acts. */
  lemma ClampsActOnlyOnBackwardClock(stored: seq<int>, now: int)
    requires EvaluatePermit(Some(stored), now).Ok?
    requires !EvaluatePermit(Some(stored), now).value.permit.allowed
    ensures var denied := EvaluatePermit(Some(stored), now).value;
            && |denied.attemptedAt| == MAX_ATTEMPTS
            && (denied.permit.retryAfterSeconds != CeilSeconds(denied.attemptedAt[0] + WINDOW_MS - now)
                <==> denied.attemptedAt[0] > now)
  {
    DeniedRow(stored, now);
    var row := EvaluatePermit(Some(stored), now).value.attemptedAt;
    assert row[0] in row;
  }

  // ---------------------------------------------------------------- the table

  /** One document of the `caseCompileQuotas` table. */
  datatype QuotaRow = QuotaRow(clientKeyHash: string, attemptedAt: seq<int>, updatedAt: int)

  /** The table by document id, and the next unused id. */
  datatype Table = Table(rows: map<nat, QuotaRow>, nextId: nat)

  function RowsOf(rows: map<nat, QuotaRow>, key: string): set<nat> {
    set id | id in rows && rows[id].clientKeyHash == key
  }

  function StaleRows(rows: map<nat, QuotaRow>, cutoff: int): set<nat> {
    set id | id in rows && rows[id].updatedAt < cutoff
  }

  /** `page` is what the `by_updated_at` scan returns: the 64 oldest stale rows, or all of them. */
  ghost predicate IsOldestStale(rows: map<nat, QuotaRow>, cutoff: int, page: set<nat>) {
    && page <= StaleRows(rows, cutoff)
    && |page| <= PRUNE_BATCH_SIZE
    && (|page| < PRUNE_BATCH_SIZE ==> page == StaleRows(rows, cutoff))
    && forall i, j :: i in page && j in StaleRows(rows, cutoff) && j !in page ==>
         rows[i].updatedAt <= rows[j].updatedAt
  }

  datatype Consumed = Consumed(table: Table, recordId: nat, permit: Permit)

  /** The row rewrite of a request, before pruning. */
  ghost function Rewrite(table: Table, key: string, now: int): Result<Consumed, QuotaError> {
    var matches := RowsOf(table.rows, key);
    if |matches| > 1 then Err(DuplicateRecord)
    else
      var recordId := if matches == {} then table.nextId else var id :| id in matches; id;
      var stored := if matches == {} then None else Some(table.rows[recordId].attemptedAt);
      var transition :- EvaluatePermit(stored, now);
      var nextId := if matches == {} then table.nextId + 1 else table.nextId;
      var row := QuotaRow(key, transition.attemptedAt, now);
      Ok(Consumed(Table(table.rows[recordId := row], nextId), recordId, transition.permit))
  }

  /** One whole request; `page` is the prune scan's result. */
  ghost function Consume(table: Table, key: string, now: int, page: set<nat>): Result<Consumed, QuotaError> {
    var rewritten :- Rewrite(table, key, now);
    var pruned := rewritten.table.rows - (page - {rewritten.recordId});
    Ok(rewritten.(table := Table(pruned, rewritten.table.nextId)))
  }

  class QuotaTable {
    var rows: map<nat, QuotaRow>
    var nextId: nat

    constructor ()
      ensures Contents() == Table(map[], 0)
    {
      rows, nextId := map[], 0;
    }

    ghost function Contents(): Table
      reads this
    {
      Table(rows, nextId)
    }

    /** The `by_updated_at` range read, oldest first, at most 64 rows. */
    /** The first of some rows in the order of their last update. */
    method OldestOf(candidates: set<nat>) returns (oldest: nat)
      requires candidates != {} && candidates <= rows.Keys
      ensures oldest in candidates
      ensures forall j :: j in candidates ==> rows[oldest].updatedAt <= rows[j].updatedAt
    {
      oldest :| oldest in candidates;
      var unseen := candidates - {oldest};
      while unseen != {}
        invariant oldest in candidates && unseen <= candidates
        invariant forall j :: j in candidates && j !in unseen ==> rows[oldest].updatedAt <= rows[j].updatedAt
        decreases unseen
      {
        var j :| j in unseen;
        if rows[j].updatedAt < rows[oldest].updatedAt {
          oldest := j;
        }
        unseen := unseen - {j};
      }
    }

    method OldestStale(cutoff: int) returns (page: set<nat>)
      ensures IsOldestStale(rows, cutoff, page)
    {
      page := {};
      var rest := StaleRows(rows, cutoff);
      while |page| < PRUNE_BATCH_SIZE && rest != {}
        invariant page + rest == StaleRows(rows, cutoff) && page !! rest
        invariant |page| <= PRUNE_BATCH_SIZE
        invariant forall i, j :: i in page && j in rest ==> rows[i].updatedAt <= rows[j].updatedAt
        decreases rest
      {
        var oldest := OldestOf(rest);
        page, rest := page + {oldest}, rest - {oldest};
      }
    }

    /** Reads the key's row and writes it back with the transition's attempts. */
    method WriteAttempts(key: string, now: int) returns (result: Result<Consumed, QuotaError>)
      modifies this
      ensures result.Ok? ==> Contents() == result.value.table
      ensures result.Err? ==> Contents() == old(Contents())
      ensures result == Rewrite(old(Contents()), key, now)
    {
      var matches := RowsOf(rows, key);
      if |matches| > 1 {
        return Err(DuplicateRecord);
      }
      var recordId := nextId;
      var stored := None;
      if matches != {} {
        recordId :| recordId in matches;
        SingletonIs(matches, recordId);
        stored := Some(rows[recordId].attemptedAt);
      }
      var evaluated := EvaluatePermit(stored, now);
      if evaluated.Err? {
        return Err(evaluated.error);
      }
      rows := rows[recordId := QuotaRow(key, evaluated.value.attemptedAt, now)];
      if matches == {} {
        nextId := nextId + 1;
      }
      result := Ok(Consumed(Table(rows, nextId), recordId, evaluated.value.permit));
    }

    /** Deletes the scanned rows one by one, except the one just written. */
    method Prune(page: set<nat>, recordId: nat)
      modifies this
      ensures nextId == old(nextId) && rows == old(rows) - (page - {recordId})
    {
      var remaining := page;
      while remaining != {}
        invariant remaining <= page && nextId == old(nextId)
        invariant rows == old(rows) - ((page - remaining) - {recordId})
        decreases remaining
      {
        var id :| id in remaining;
        if id != recordId {
          rows := rows - {id};
        }
        remaining := remaining - {id};
      }
      assert (page - remaining) - {recordId} == page - {recordId};
    }

    /** One request: reads the key's row, writes it, then prunes. A throw changes nothing. */
    method ConsumePermit(key: string, now: int) returns (result: Result<Permit, QuotaError>, ghost page: set<nat>)
      modifies this
      ensures result.Err? ==> Rewrite(old(Contents()), key, now) == Err(result.error)
      ensures result.Err? ==> Contents() == old(Contents())
      ensures result.Ok? ==>
                && Rewrite(old(Contents()), key, now).Ok?
                && IsOldestStale(Rewrite(old(Contents()), key, now).value.table.rows, PruneCutoff(now), page)
                && Consume(old(Contents()), key, now, page)
                   == Ok(Consumed(Contents(), Rewrite(old(Contents()), key, now).value.recordId, result.value))
    {
      page := {};
      var written := WriteAttempts(key, now);
      if written.Err? {
        return Err(written.error), {};
      }
      var stale := OldestStale(PruneCutoff(now));
      Prune(stale, written.value.recordId);
      result, page := Ok(written.value.permit), stale;
    }
  }

  lemma SingletonIs(s: set<nat>, x: nat)
    requires |s| <= 1 && x in s
    ensures s == {x}
  {
    if exists y :: y in s && y != x {
      var y :| y in s && y != x;
      assert |s - {x}| >= 1 by { assert y in s - {x}; }
    }
  }

  // ---------------------------------------------------------------- runs

  datatype Grant = Grant(clientKeyHash: string, at: int)

  /** The grant times of one key that are later than `lo`, in order. */
  ghost function Times(log: seq<Grant>, key: string, lo: int): seq<int> {
    if log == [] then []
    else
      var last := log[|log| - 1];
      Times(log[..|log| - 1], key, lo) + if last.clientKeyHash == key && last.at > lo then [last.at] else []
  }

  /** How many grants a key received in the half-open window [lo, lo + WINDOW_MS). */
  ghost function InWindow(log: seq<Grant>, key: string, lo: int): nat {
    if log == [] then 0
    else
      var last := log[|log| - 1];
      InWindow(log[..|log| - 1], key, lo)
      + if last.clientKeyHash == key && lo <= last.at < lo + WINDOW_MS then 1 else 0
  }

  ghost predicate WindowsBounded(log: seq<Grant>) {
    forall key, lo :: InWindow(log, key, lo) <= MAX_ATTEMPTS
  }

  ghost predicate UniqueKeys(rows: map<nat, QuotaRow>) {
    forall i, j :: i in rows && j in rows && rows[i].clientKeyHash == rows[j].clientKeyHash ==> i == j
  }

  /** What every reachable table keeps: one row per key, and each row holds exactly the grants of
      its key that were live when it was written. A key without a row has no live grant. */
  ghost predicate QuotaInv(table: Table, log: seq<Grant>, clock: int) {
    && clock <= MAX_SAFE_INTEGER
    && (forall id :: id in table.rows ==> id < table.nextId)
    && UniqueKeys(table.rows)
    && (forall i :: 0 <= i < |log| ==> 0 <= log[i].at <= clock)
    && (forall i, j :: 0 <= i < j < |log| ==> log[i].at <= log[j].at)
    && (forall id :: id in table.rows ==> RowExact(table.rows[id], log, clock))
    && (forall key :: !HasRow(table.rows, key) ==> Times(log, key, clock - WINDOW_MS) == [])
  }

  ghost predicate HasRow(rows: map<nat, QuotaRow>, key: string) {
    exists id :: id in rows && rows[id].clientKeyHash == key
  }

  ghost predicate RowExact(row: QuotaRow, log: seq<Grant>, clock: int) {
    && 0 <= row.updatedAt <= clock
    && |row.attemptedAt| <= MAX_ATTEMPTS
    && row.attemptedAt == Times(log, row.clientKeyHash, row.updatedAt - WINDOW_MS)
    && Times(log, row.clientKeyHash, row.updatedAt) == []
  }

  lemma {:induction false} TimesFiltered(log: seq<Grant>, key: string, lo: int, hi: int)
    requires lo <= hi
    ensures Times(log, key, hi) == After(Times(log, key, lo), hi)
  {
    if log != [] {
      var front, last := log[..|log| - 1], log[|log| - 1];
      TimesFiltered(front, key, lo, hi);
      if last.clientKeyHash == key && last.at > lo {
        AfterAppend(Times(front, key, lo), last.at, hi);
      } else {
        assert Times(front, key, lo) + [] == Times(front, key, lo);
      }
    }
  }

  lemma {:induction false} TimesOrdered(log: seq<Grant>, key: string, lo: int, clock: int)
    requires forall i :: 0 <= i < |log| ==> 0 <= log[i].at <= clock
    requires forall i, j :: 0 <= i < j < |log| ==> log[i].at <= log[j].at
    ensures Ascending(Times(log, key, lo))
    ensures forall t :: t in Times(log, key, lo) ==> 0 <= t <= clock && t > lo
  {
    if log != [] {
      var front, last := log[..|log| - 1], log[|log| - 1];
      TimesOrdered(front, key, lo, last.at);
      if last.clientKeyHash == key && last.at > lo {
        AscendingSnoc(Times(front, key, lo), last.at);
      } else {
        assert Times(front, key, lo) + [] == Times(front, key, lo);
      }
    }
  }

  lemma {:induction false} WindowWithinTimes(log: seq<Grant>, key: string, lo: int, since: int)
    requires since < lo
    ensures InWindow(log, key, lo) <= |Times(log, key, since)|
  {
    if log != [] {
      WindowWithinTimes(log[..|log| - 1], key, lo, since);
    }
  }

  lemma {:induction false} TimesAppend(log: seq<Grant>, grant: Grant, key: string, lo: int)
    ensures Times(log + [grant], key, lo)
         == Times(log, key, lo) + if grant.clientKeyHash == key && grant.at > lo then [grant.at] else []
    ensures InWindow(log + [grant], key, lo)
         == InWindow(log, key, lo) + if grant.clientKeyHash == key && lo <= grant.at < lo + WINDOW_MS then 1 else 0
  {
    assert (log + [grant])[..|log|] == log;
  }

  ghost function Logged(log: seq<Grant>, key: string, now: int, permit: Permit): seq<Grant> {
    if permit.allowed then log + [Grant(key, now)] else log
  }

  /** What a request stores once its live attempts are known. */
  lemma LiveTransition(stored: Option<seq<int>>, live: seq<int>, now: int)
    requires SafeTimestamp(now)
    requires stored.Some? ==> StateAccepted(stored.value) && After(stored.value, now - WINDOW_MS) == live
    requires stored.None? ==> live == []
    requires Ascending(live) && forall t :: t in live ==> t <= now
    ensures EvaluatePermit(stored, now).Ok?
    ensures var done := EvaluatePermit(stored, now).value;
            && |live| <= MAX_ATTEMPTS
            && (done.permit.allowed <==> |live| < MAX_ATTEMPTS)
            && done.attemptedAt == if |live| < MAX_ATTEMPTS then live + [now] else live
  {
    SortOfAscending(live);
    AscendingSnoc(live, now);
    SortOfAscending(live + [now]);
    if stored.Some? {
      AfterMembers(stored.value, now - WINDOW_MS);
    }
  }

  /** An exact row's attempts, cut to the window, are the live grants of its key. */
  lemma LiveOfRow(row: QuotaRow, log: seq<Grant>, clock: int, now: int)
    requires RowExact(row, log, clock) && clock <= now <= MAX_SAFE_INTEGER
    requires forall i :: 0 <= i < |log| ==> 0 <= log[i].at <= clock
    requires forall i, j :: 0 <= i < j < |log| ==> log[i].at <= log[j].at
    ensures StateAccepted(row.attemptedAt)
    ensures After(row.attemptedAt, now - WINDOW_MS) == Times(log, row.clientKeyHash, now - WINDOW_MS)
  {
    TimesFiltered(log, row.clientKeyHash, row.updatedAt - WINDOW_MS, now - WINDOW_MS);
    TimesOrdered(log, row.clientKeyHash, row.updatedAt - WINDOW_MS, clock);
    assert forall i :: 0 <= i < |row.attemptedAt| ==> row.attemptedAt[i] in row.attemptedAt;
  }

  /** The stored attempts a request reads are exactly the key's live grants. */
  lemma StoredAreLive(table: Table, log: seq<Grant>, clock: int, key: string, now: int)
    requires QuotaInv(table, log, clock) && clock <= now && SafeTimestamp(now)
    ensures var matches := RowsOf(table.rows, key);
            && |matches| <= 1
            && (matches == {} <==> !HasRow(table.rows, key))
            && (matches == {} ==> Times(log, key, now - WINDOW_MS) == [])
            && forall id :: id in matches ==>
                 matches == {id} && StateAccepted(table.rows[id].attemptedAt)
                 && After(table.rows[id].attemptedAt, now - WINDOW_MS) == Times(log, key, now - WINDOW_MS)
  {
    var matches := RowsOf(table.rows, key);
    if matches == {} {
      assert forall id :: id in table.rows && table.rows[id].clientKeyHash == key ==> id in matches;
      TimesFiltered(log, key, clock - WINDOW_MS, now - WINDOW_MS);
    } else {
      forall id | id in matches
        ensures matches == {id} && StateAccepted(table.rows[id].attemptedAt)
        ensures After(table.rows[id].attemptedAt, now - WINDOW_MS) == Times(log, key, now - WINDOW_MS)
      {
        assert forall other :: other in matches ==> other == id;
        assert matches == {id};
        LiveOfRow(table.rows[id], log, clock, now);
      }
    }
  }

  lemma ReadsLiveGrants(table: Table, log: seq<Grant>, clock: int, key: string, now: int)
    requires QuotaInv(table, log, clock) && clock <= now && SafeTimestamp(now)
    ensures Rewrite(table, key, now).Ok?
    ensures var live := Times(log, key, now - WINDOW_MS);
            var written := Rewrite(table, key, now).value;
            var row := QuotaRow(key, if |live| < MAX_ATTEMPTS then live + [now] else live, now);
            && |live| <= MAX_ATTEMPTS
            && (written.permit.allowed <==> |live| < MAX_ATTEMPTS)
            && (if HasRow(table.rows, key)
                then written.recordId in table.rows && table.rows[written.recordId].clientKeyHash == key
                else written.recordId == table.nextId)
            && written.table.rows == table.rows[written.recordId := row]
            && written.table.nextId == if HasRow(table.rows, key) then table.nextId else table.nextId + 1
  {
    StoredAreLive(table, log, clock, key, now);
    TimesOrdered(log, key, now - WINDOW_MS, clock);
    var matches := RowsOf(table.rows, key);
    var live := Times(log, key, now - WINDOW_MS);
    if matches == {} {
      LiveTransition(None, live, now);
    } else {
      var id :| id in matches;
      LiveTransition(Some(table.rows[id].attemptedAt), live, now);
    }
  }

  lemma {:induction false} NoneAfter(log: seq<Grant>, key: string, clock: int)
    requires forall i :: 0 <= i < |log| ==> log[i].at <= clock
    ensures Times(log, key, clock) == []
  {
    if log != [] {
      NoneAfter(log[..|log| - 1], key, clock);
    }
  }

  /** A row the prune deletes holds no attempt that could still count. */
  lemma PrunedRowIsDead(row: QuotaRow, log: seq<Grant>, clock: int, now: int)
    requires RowExact(row, log, clock) && row.updatedAt < PruneCutoff(now)
    ensures Times(log, row.clientKeyHash, now - WINDOW_MS) == []
  {
    TimesFiltered(log, row.clientKeyHash, row.updatedAt, now - WINDOW_MS);
  }

  /** The rewritten row is exact after its own grant; every other row stays exact. */
  lemma RowsStayExact(row: QuotaRow, log: seq<Grant>, clock: int, key: string, now: int, permit: Permit)
    requires RowExact(row, log, clock) && clock <= now && row.clientKeyHash != key
    ensures RowExact(row, Logged(log, key, now, permit), now)
  {
    TimesAppend(log, Grant(key, now), row.clientKeyHash, row.updatedAt - WINDOW_MS);
    TimesAppend(log, Grant(key, now), row.clientKeyHash, row.updatedAt);
  }

  lemma GrantKeepsWindows(log: seq<Grant>, key: string, now: int)
    requires WindowsBounded(log)
    requires |Times(log, key, now - WINDOW_MS)| < MAX_ATTEMPTS
    ensures WindowsBounded(log + [Grant(key, now)])
  {
    var log' := log + [Grant(key, now)];
    TimesAppend(log, Grant(key, now), key, now - WINDOW_MS);
    forall k, lo ensures InWindow(log', k, lo) <= MAX_ATTEMPTS {
      TimesAppend(log, Grant(key, now), k, lo);
      if k == key && lo <= now < lo + WINDOW_MS {
        WindowWithinTimes(log', key, lo, now - WINDOW_MS);
      } else {
        assert InWindow(log, k, lo) <= MAX_ATTEMPTS;
      }
    }
  }

  /** What a request leaves, in terms of the key's live grants: its row is rewritten and the scanned
      rows of other keys are gone. */
  ghost predicate Leaves(table: Table, log: seq<Grant>, key: string, now: int, page: set<nat>, done: Consumed) {
    var live := Times(log, key, now - WINDOW_MS);
    var row := QuotaRow(key, if done.permit.allowed then live + [now] else live, now);
    && |live| <= MAX_ATTEMPTS
    && (done.permit.allowed <==> |live| < MAX_ATTEMPTS)
    && (if HasRow(table.rows, key)
        then done.recordId in table.rows && table.rows[done.recordId].clientKeyHash == key
        else done.recordId == table.nextId)
    && done.table.rows == table.rows[done.recordId := row] - (page - {done.recordId})
    && done.table.nextId == if HasRow(table.rows, key) then table.nextId else table.nextId + 1
  }

  /** The row a request writes lists exactly the grants of its key that count from now on. */
  lemma OwnRowIsExact(log: seq<Grant>, clock: int, key: string, now: int, permit: Permit)
    requires clock <= now && 0 <= now && forall i :: 0 <= i < |log| ==> log[i].at <= clock
    requires |Times(log, key, now - WINDOW_MS)| <= MAX_ATTEMPTS
    requires permit.allowed <==> |Times(log, key, now - WINDOW_MS)| < MAX_ATTEMPTS
    ensures var live := Times(log, key, now - WINDOW_MS);
            RowExact(QuotaRow(key, if permit.allowed then live + [now] else live, now), Logged(log, key, now, permit),
                     now)
  {
    TimesAppend(log, Grant(key, now), key, now - WINDOW_MS);
    TimesAppend(log, Grant(key, now), key, now);
    NoneAfter(log, key, now);
  }

  lemma RowsAfterRequest(table: Table, log: seq<Grant>, clock: int, key: string, now: int, page: set<nat>,
                         done: Consumed, id: nat)
    requires QuotaInv(table, log, clock) && clock <= now && SafeTimestamp(now)
    requires Leaves(table, log, key, now, page, done) && id in done.table.rows
    ensures RowExact(done.table.rows[id], Logged(log, key, now, done.permit), now) && id < done.table.nextId
    ensures id == done.recordId || (id in table.rows && done.table.rows[id] == table.rows[id])
    ensures id == done.recordId <==> done.table.rows[id].clientKeyHash == key
  {
    if id == done.recordId {
      OwnRowIsExact(log, clock, key, now, done.permit);
    } else {
      assert id in table.rows && done.table.rows[id] == table.rows[id];
      assert table.rows[id].clientKeyHash != key;
      RowsStayExact(table.rows[id], log, clock, key, now, done.permit);
    }
  }

  /** A row that a request removes was on its page. */
  lemma PrunedRow(table: Table, log: seq<Grant>, key: string, now: int, page: set<nat>, done: Consumed, other: string)
    returns (id: nat)
    requires Leaves(table, log, key, now, page, done) && other != key
    requires forall id :: id in table.rows ==> id < table.nextId
    requires HasRow(table.rows, other) && !HasRow(done.table.rows, other)
    ensures id in page && id in table.rows && table.rows[id].clientKeyHash == other
  {
    id :| id in table.rows && table.rows[id].clientKeyHash == other;
    assert id != done.recordId;
    assert id in page || id in done.table.rows;
  }

  lemma KeysWithoutRowAfterRequest(table: Table, log: seq<Grant>, clock: int, key: string, now: int, page: set<nat>,
                                   done: Consumed, other: string)
    requires QuotaInv(table, log, clock) && clock <= now
    requires Leaves(table, log, key, now, page, done) && !HasRow(done.table.rows, other)
    requires forall id :: id in page && id in table.rows && table.rows[id].clientKeyHash != key ==>
               table.rows[id].updatedAt < PruneCutoff(now)
    ensures Times(Logged(log, key, now, done.permit), other, now - WINDOW_MS) == []
  {
    assert other != key by {
      assert done.recordId in done.table.rows;
    }
    TimesAppend(log, Grant(key, now), other, now - WINDOW_MS);
    if HasRow(table.rows, other) {
      var id := PrunedRow(table, log, key, now, page, done, other);
      PrunedRowIsDead(table.rows[id], log, clock, now);
    } else {
      TimesFiltered(log, other, clock - WINDOW_MS, now - WINDOW_MS);
    }
  }

  lemma LeavesQuotaInv(table: Table, log: seq<Grant>, clock: int, key: string, now: int, page: set<nat>, done: Consumed)
    requires QuotaInv(table, log, clock) && clock <= now && SafeTimestamp(now)
    requires Leaves(table, log, key, now, page, done)
    requires forall id :: id in page && id in table.rows && table.rows[id].clientKeyHash != key ==>
               table.rows[id].updatedAt < PruneCutoff(now)
    ensures QuotaInv(done.table, Logged(log, key, now, done.permit), now)
  {
    var log' := Logged(log, key, now, done.permit);
    forall id | id in done.table.rows
      ensures RowExact(done.table.rows[id], log', now) && id < done.table.nextId
      ensures id == done.recordId || (id in table.rows && done.table.rows[id] == table.rows[id])
      ensures id == done.recordId <==> done.table.rows[id].clientKeyHash == key
    {
      RowsAfterRequest(table, log, clock, key, now, page, done, id);
    }
    forall other | !HasRow(done.table.rows, other) ensures Times(log', other, now - WINDOW_MS) == [] {
      KeysWithoutRowAfterRequest(table, log, clock, key, now, page, done, other);
    }
  }

  /** One request keeps the invariant and the window bound, whatever batch of stale rows it prunes. */
  lemma RequestKeepsQuota(table: Table, log: seq<Grant>, clock: int, key: string, now: int, page: set<nat>)
    requires QuotaInv(table, log, clock) && WindowsBounded(log)
    requires clock <= now && SafeTimestamp(now)
    requires Rewrite(table, key, now).Ok? ==>
               IsOldestStale(Rewrite(table, key, now).value.table.rows, PruneCutoff(now), page)
    ensures Consume(table, key, now, page).Ok?
    ensures var done := Consume(table, key, now, page).value;
            && QuotaInv(done.table, Logged(log, key, now, done.permit), now)
            && WindowsBounded(Logged(log, key, now, done.permit))
  {
    ReadsLiveGrants(table, log, clock, key, now);
    var done := Consume(table, key, now, page).value;
    assert Leaves(table, log, key, now, page, done);
    LeavesQuotaInv(table, log, clock, key, now, page, done);
    if done.permit.allowed {
      GrantKeepsWindows(log, key, now);
    }
  }

  datatype Request = Request(clientKeyHash: string, now: int, page: set<nat>)

  datatype Run = Run(table: Table, log: seq<Grant>, clock: int)

  /** A run from the empty table: each request is made at a time no earlier than the one before,
      and prunes what the scan finds. A request that throws changes nothing. */
  ghost predicate IsRun(requests: seq<Request>, run: Run) {
    if requests == [] then run == Run(Table(map[], 0), [], 0)
    else
      var r := requests[|requests| - 1];
      exists before: Run :: IsRun(requests[..|requests| - 1], before) && IsRequest(before, r, run)
  }

  ghost predicate IsRequest(before: Run, r: Request, run: Run) {
    && before.clock <= r.now
    && match Consume(before.table, r.clientKeyHash, r.now, r.page)
       case Err(_) => run == before
       case Ok(done) =>
         && IsOldestStale(Rewrite(before.table, r.clientKeyHash, r.now).value.table.rows, PruneCutoff(r.now), r.page)
         && run == Run(done.table, Logged(before.log, r.clientKeyHash, r.now, done.permit), r.now)
  }

  /** Over any run with a clock that never goes back, no half-open window of ten minutes holds more
      than five grants of one client key, although other clients' requests delete rows. */
  lemma {:induction false} AtMostFivePermitsPerWindow(requests: seq<Request>, run: Run)
    requires IsRun(requests, run)
    ensures QuotaInv(run.table, run.log, run.clock)
    ensures WindowsBounded(run.log)
  {
    if requests != [] {
      var r := requests[|requests| - 1];
      var before :| IsRun(requests[..|requests| - 1], before) && IsRequest(before, r, run);
      AtMostFivePermitsPerWindow(requests[..|requests| - 1], before);
      if SafeTimestamp(r.now) {
        ReadsLiveGrants(before.table, before.log, before.clock, r.clientKeyHash, r.now);
        if Consume(before.table, r.clientKeyHash, r.now, r.page).Ok? {
          RequestKeepsQuota(before.table, before.log, before.clock, r.clientKeyHash, r.now, r.page);
        }
      }
    }
  }
}
