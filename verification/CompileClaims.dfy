/** The lease transitions of one case-compile claim (convex/caseCompileClaims.ts).

    The evaluation functions are pure, as in the source: they take the stored claim, a request and
    the time, and return the next claim and a response, or throw. */
module CompileClaims {
  import opened Outcomes

  const LEASE_TTL_MS := 60000

  datatype Identity = Identity(ownerId: string, uploadId: string, caseId: string, contentDigest: string)

  /** SHA-256 of the identity is taken to be injective: the id is the tuple it was computed from. */
  datatype ClaimId = ClaimId(digestOf: Identity)

  function DeriveClaimId(identity: Identity): ClaimId {
    ClaimId(identity)
  }

  datatype Status = Leased | RetryableFailed | TerminalFailed | Completed

  datatype Claim = Claim(
    claimId: ClaimId,
    identity: Identity,
    clientKeyHash: string,
    status: Status,
    generation: int,
    leaseToken: Option<string>,
    leaseExpiresAt: Option<int>,
    lastHeartbeatAt: Option<int>,
    failureCode: Option<string>,
    completedAt: Option<int>,
    quotaConsumedAt: Option<int>,
    createdAt: int,
    updatedAt: int)

  datatype ClaimError = ClaimConflict | ClaimFence | SchemaRejected | TimeInvalid

  datatype AcquireRequest = AcquireRequest(identity: Identity, clientKeyHash: string, leaseToken: string)

  datatype Fence = Fence(identity: Identity, claimId: ClaimId, generation: int, leaseToken: string)

  datatype Acquisition = New | Idempotent | Takeover | Retry

  datatype AcquireResponse =
    | Acquired(acquisition: Acquisition, claimId: ClaimId, generation: int, leaseToken: string, leaseExpiresAt: int)
    | Busy(claimId: ClaimId, retryAfterSeconds: int)
    | AlreadyCompleted(claimId: ClaimId, identity: Identity, generation: int)
    | TerminallyFailed(claimId: ClaimId, generation: int)

  datatype Evaluation = Evaluation(quotaRequired: bool, persist: bool, claim: Claim, response: AcquireResponse)

  datatype Transition = Transition(persist: bool, claim: Claim, replayed: bool)

  // ---------------------------------------------------------------- the claim schema

  predicate SafeWhenPresent(t: Option<int>) {
    t.Some? ==> SafeTimestamp(t.value)
  }

  predicate LeasedShape(c: Claim) {
    && c.generation >= 1
    && c.leaseToken.Some? && c.leaseExpiresAt.Some? && c.lastHeartbeatAt.Some? && c.quotaConsumedAt.Some?
    && c.failureCode.None? && c.completedAt.None?
    && c.lastHeartbeatAt.value >= c.createdAt
    && c.updatedAt == c.lastHeartbeatAt.value
    && c.leaseExpiresAt.value == c.lastHeartbeatAt.value + LEASE_TTL_MS
  }

  predicate InactiveShape(c: Claim) {
    && c.leaseExpiresAt.None?
    && if c.status == Completed then c.failureCode.None? && c.completedAt.Some?
       else c.failureCode.Some? && c.completedAt.None? && c.leaseToken.Some? && c.quotaConsumedAt.Some?
  }

  predicate SchemaAccepts(c: Claim) {
    && 0 <= c.generation <= MAX_SAFE_INTEGER
    && SafeTimestamp(c.createdAt) && SafeTimestamp(c.updatedAt)
    && SafeWhenPresent(c.leaseExpiresAt) && SafeWhenPresent(c.lastHeartbeatAt)
    && SafeWhenPresent(c.completedAt) && SafeWhenPresent(c.quotaConsumedAt)
    && c.updatedAt >= c.createdAt
    && if c.status == Leased then LeasedShape(c) else InactiveShape(c)
  }

  function Parse(c: Claim): Result<Claim, ClaimError> {
    if SchemaAccepts(c) then Ok(c) else Err(SchemaRejected)
  }

  predicate IdentityMatches(c: Claim, identity: Identity) {
    c.claimId == DeriveClaimId(identity) && c.identity == identity
  }

  // ---------------------------------------------------------------- transitions

  function LeaseExpiry(now: int): Result<int, ClaimError> {
    if SafeTimestamp(now + LEASE_TTL_MS) then Ok(now + LEASE_TTL_MS) else Err(TimeInvalid)
  }

  predicate ActiveLease(c: Claim, generation: int, leaseToken: string, now: int) {
    && c.status == Leased
    && c.generation == generation
    && c.leaseToken == Some(leaseToken)
    && c.leaseExpiresAt.Some? && now < c.leaseExpiresAt.value
  }

  function AcquiredResponse(c: Claim, acquisition: Acquisition): Result<AcquireResponse, ClaimError> {
    if c.leaseToken.None? || c.leaseExpiresAt.None? then Err(ClaimConflict)
    else Ok(Acquired(acquisition, c.claimId, c.generation, c.leaseToken.value, c.leaseExpiresAt.value))
  }

  /** `Math.max(1, Math.ceil((expiry - now) / 1000))`, which the response schema bounds by 60. */
  function BusyResponse(c: Claim, now: int): Result<AcquireResponse, ClaimError>
    requires c.leaseExpiresAt.Some?
  {
    var seconds := -((-(c.leaseExpiresAt.value - now)) / 1000);
    var retryAfter := if seconds < 1 then 1 else seconds;
    if retryAfter > LEASE_TTL_MS / 1000 then Err(SchemaRejected) else Ok(Busy(c.claimId, retryAfter))
  }

  function EvaluateClaim(existing: Option<Claim>, request: AcquireRequest, now: int): Result<Evaluation, ClaimError> {
    if !SafeTimestamp(now) then Err(SchemaRejected)
    else if existing.None? then
      var expiry :- LeaseExpiry(now);
      var claim :- Parse(Claim(DeriveClaimId(request.identity), request.identity, request.clientKeyHash, Leased, 1,
                               Some(request.leaseToken), Some(expiry), Some(now), None, None, Some(now), now, now));
      var response :- AcquiredResponse(claim, New);
      Ok(Evaluation(true, true, claim, response))
    else
      var c :- Parse(existing.value);
      if !IdentityMatches(c, request.identity) then Err(ClaimConflict)
      else if c.status == Completed then
        Ok(Evaluation(false, false, c, AlreadyCompleted(c.claimId, c.identity, c.generation)))
      else if c.status == TerminalFailed then
        Ok(Evaluation(false, false, c, TerminallyFailed(c.claimId, c.generation)))
      else if c.status == Leased && c.leaseToken == Some(request.leaseToken)
              && c.leaseExpiresAt.Some? && now < c.leaseExpiresAt.value then
        var response :- AcquiredResponse(c, Idempotent);
        Ok(Evaluation(false, false, c, response))
      else if c.status == Leased && c.leaseExpiresAt.Some? && now < c.leaseExpiresAt.value then
        var response :- BusyResponse(c, now);
        Ok(Evaluation(false, false, c, response))
      else
        var expiry :- LeaseExpiry(now);
        var next :- Parse(c.(status := Leased, generation := c.generation + 1,
                             leaseToken := Some(request.leaseToken), leaseExpiresAt := Some(expiry),
                             lastHeartbeatAt := Some(now), failureCode := None, completedAt := None,
                             quotaConsumedAt := Some(now), updatedAt := now));
        var response :- AcquiredResponse(next, if c.status == RetryableFailed then Retry else Takeover);
        Ok(Evaluation(true, true, next, response))
  }

  function ParseFenced(existing: Claim, fence: Fence): Result<Claim, ClaimError> {
    var c :- Parse(existing);
    if !IdentityMatches(c, fence.identity) || fence.claimId != DeriveClaimId(fence.identity) then Err(ClaimConflict)
    else Ok(c)
  }

  function EvaluateHeartbeat(existing: Claim, fence: Fence, now: int): Result<Transition, ClaimError> {
    if !SafeTimestamp(now) then Err(SchemaRejected)
    else
      var c :- ParseFenced(existing, fence);
      if !ActiveLease(c, fence.generation, fence.leaseToken, now) then Err(ClaimFence)
      else
        var expiry :- LeaseExpiry(now);
        var next :- Parse(c.(leaseExpiresAt := Some(expiry), lastHeartbeatAt := Some(now), updatedAt := now));
        Ok(Transition(true, next, false))
  }

  function EvaluateRelease(existing: Claim, fence: Fence, disposition: Status, failureCode: string, now: int)
    : Result<Transition, ClaimError>
    requires disposition == RetryableFailed || disposition == TerminalFailed
  {
    if !SafeTimestamp(now) then Err(SchemaRejected)
    else
      var c :- ParseFenced(existing, fence);
      if c.status == disposition && c.generation == fence.generation && c.leaseToken == Some(fence.leaseToken)
         && c.failureCode == Some(failureCode) then
        Ok(Transition(false, c, true))
      else if !ActiveLease(c, fence.generation, fence.leaseToken, now) then Err(ClaimFence)
      else
        var next :- Parse(c.(status := disposition, leaseExpiresAt := None, failureCode := Some(failureCode),
                             completedAt := None, updatedAt := now));
        Ok(Transition(true, next, false))
  }

  function EvaluateCompletion(existing: Claim, fence: Fence, now: int): Result<Transition, ClaimError> {
    if !SafeTimestamp(now) then Err(SchemaRejected)
    else
      var c :- ParseFenced(existing, fence);
      if c.status == Completed then Ok(Transition(false, c, true))
      else if !ActiveLease(c, fence.generation, fence.leaseToken, now) then Err(ClaimFence)
      else
        var next :- Parse(c.(status := Completed, leaseToken := None, leaseExpiresAt := None, failureCode := None,
                             completedAt := Some(now), updatedAt := now));
        Ok(Transition(true, next, false))
  }

  /** What `acquire` stores when the durable draft already exists. */
  function CompletedReplayClaim(existing: Option<Claim>, request: AcquireRequest, now: int): Result<Claim, ClaimError> {
    if existing.Some? then
      var c := existing.value;
      Parse(c.(status := Completed, leaseToken := None, leaseExpiresAt := None, failureCode := None,
               completedAt := Some(if c.completedAt.Some? then c.completedAt.value else now), updatedAt := now))
    else
      Parse(Claim(DeriveClaimId(request.identity), request.identity, request.clientKeyHash, Completed, 0,
                  None, None, None, None, Some(now), None, now, now))
  }

  // ---------------------------------------------------------------- runs of one claim

  /** One mutation on the claim. For `Acquire`, `draftExists` is what the durable-replay lookup answers
      and `permitted` what the quota answers when it is asked. */
  datatype Command =
    | Acquire(request: AcquireRequest, draftExists: bool, permitted: bool, now: int)
    | Heartbeat(fence: Fence, now: int)
    | Release(fence: Fence, terminal: bool, failureCode: string, now: int)
    | Complete(fence: Fence, now: int)

  /** What callers have been told: a generation was acquired, an expiry was handed out (again), or a
      generation was released. */
  datatype Event =
    | Gained(generation: int, at: int, expiresAt: int)
    | Handed(generation: int, at: int, expiresAt: int)
    | GaveUp(generation: int, at: int)

  datatype Run = Run(claim: Option<Claim>, log: seq<Event>, clock: int)

  function Step(run: Run, c: Command): Run {
    var run := run.(clock := c.now);
    if c.Acquire? then AcquireStep(run, c.request, c.draftExists, c.permitted, c.now)
    else if run.claim.None? then run
    else if c.Heartbeat? then
      var t := EvaluateHeartbeat(run.claim.value, c.fence, c.now);
      if t.Err? || t.value.claim.leaseExpiresAt.None? then run
      else Run(Some(t.value.claim), run.log + [Handed(c.fence.generation, c.now, t.value.claim.leaseExpiresAt.value)],
               c.now)
    else if c.Release? then
      var t := EvaluateRelease(run.claim.value, c.fence, if c.terminal then TerminalFailed else RetryableFailed,
                               c.failureCode, c.now);
      if t.Err? then run else Run(Some(t.value.claim), run.log + [GaveUp(c.fence.generation, c.now)], c.now)
    else
      var t := EvaluateCompletion(run.claim.value, c.fence, c.now);
      if t.Err? then run else run.(claim := Some(t.value.claim))
  }

  function AcquireStep(run: Run, request: AcquireRequest, draftExists: bool, permitted: bool, now: int): Run {
    if draftExists then
      var c := CompletedReplayClaim(run.claim, request, now);
      if c.Err? then run else run.(claim := Some(c.value))
    else if run.claim.Some? && run.claim.value.status == Completed then run
    else
      var e := EvaluateClaim(run.claim, request, now);
      if e.Err? || (e.value.quotaRequired && !permitted) then run
      else if !e.value.response.Acquired? then run
      else if e.value.quotaRequired then
        Run(Some(e.value.claim),
            run.log + [Gained(e.value.response.generation, now, e.value.response.leaseExpiresAt)], now)
      else
        run.(log := run.log + [Handed(e.value.response.generation, now, e.value.response.leaseExpiresAt)])
  }

  function Steps(run: Run, commands: seq<Command>): Run {
    if commands == [] then run else Step(Steps(run, commands[..|commands| - 1]), commands[|commands| - 1])
  }

  ghost predicate ClockForward(clock: int, commands: seq<Command>) {
    && (forall i :: 0 <= i < |commands| ==> clock <= commands[i].now)
    && (forall i, j :: 0 <= i < j < |commands| ==> commands[i].now <= commands[j].now)
  }

  const NEW_RUN := Run(None, [], 0)

  // ---------------------------------------------------------------- lease safety

  ghost predicate WasReleased(log: seq<Event>, generation: int) {
    exists k :: 0 <= k < |log| && log[k].GaveUp? && log[k].generation == generation
  }

  ghost predicate WasGained(log: seq<Event>, generation: int, until: int) {
    exists k :: 0 <= k < |log| && log[k].Gained? && log[k].generation == generation && log[k].at <= until
  }

  predicate IsExpiry(e: Event) {
    e.Gained? || e.Handed?
  }

  /** Once a later generation is gained, every expiry ever handed to an earlier one has passed, or the
      earlier one gave the lease up itself. */
  ghost predicate LeaseSafe(log: seq<Event>) {
    forall i, j :: 0 <= i < |log| && 0 <= j < |log| && IsExpiry(log[i]) && log[j].Gained?
                   && log[i].generation < log[j].generation ==>
                     log[i].expiresAt <= log[j].at || WasReleased(log, log[i].generation)
  }

  /** No expiry is handed to a generation after a later one was gained, and each generation is gained once. */
  ghost predicate GenerationsOrdered(log: seq<Event>) {
    && (forall i, j :: 0 <= i < j < |log| ==> log[i].generation <= log[j].generation)
    && (forall i, j :: 0 <= i < j < |log| && log[i].Gained? && log[j].Gained? ==> log[i].generation < log[j].generation)
  }

  ghost predicate LeaseInv(run: Run) {
    && LeaseSafe(run.log) && GenerationsOrdered(run.log)
    && (run.claim.None? ==> run.log == [])
    && (run.claim.Some? ==> ClaimAgrees(run.claim.value, run.log, run.clock))
  }

  ghost predicate ClaimAgrees(c: Claim, log: seq<Event>, clock: int) {
    && SchemaAccepts(c)
    && (forall i :: 0 <= i < |log| ==> log[i].generation <= c.generation && log[i].at <= clock)
    && (if c.generation >= 1 then WasGained(log, c.generation, clock) else log == [] && c.status == Completed)
    && (c.status == Leased ==>
          forall i :: 0 <= i < |log| && IsExpiry(log[i]) && log[i].generation == c.generation ==>
            log[i].expiresAt <= c.leaseExpiresAt.value)
    && (c.status == Leased ==> c.updatedAt <= clock)
    && (c.status == RetryableFailed || c.status == TerminalFailed ==> WasReleased(log, c.generation))
  }

  lemma ReleasedStays(log: seq<Event>, e: Event, generation: int)
    requires WasReleased(log, generation)
    ensures WasReleased(log + [e], generation)
  {
    var k :| 0 <= k < |log| && log[k].GaveUp? && log[k].generation == generation;
    assert (log + [e])[k] == log[k];
  }

  lemma GainedStays(log: seq<Event>, e: Event, generation: int, until: int, later: int)
    requires WasGained(log, generation, until) && until <= later
    ensures WasGained(log + [e], generation, later)
  {
    var k :| 0 <= k < |log| && log[k].Gained? && log[k].generation == generation && log[k].at <= until;
    assert (log + [e])[k] == log[k];
  }

  /** Appending an event of the current generation keeps the order and, unless it gains a new
      generation, the safety of the log. */
  lemma AppendCurrent(log: seq<Event>, e: Event)
    requires LeaseSafe(log) && GenerationsOrdered(log) && !e.Gained?
    requires forall i :: 0 <= i < |log| ==> log[i].generation <= e.generation
    ensures LeaseSafe(log + [e]) && GenerationsOrdered(log + [e])
  {
    var log' := log + [e];
    forall i, j | 0 <= i < |log'| && 0 <= j < |log'| && IsExpiry(log'[i]) && log'[j].Gained?
                  && log'[i].generation < log'[j].generation
      ensures log'[i].expiresAt <= log'[j].at || WasReleased(log', log'[i].generation)
    {
      assert log'[j] == log[j] && log'[i] == log[i];
      if WasReleased(log, log[i].generation) {
        ReleasedStays(log, e, log[i].generation);
      }
    }
  }

  /** Gaining the next generation is safe: the current lease has expired or was released, and every
      earlier one was already over when the current one was gained. */
  lemma AppendGain(log: seq<Event>, e: Event, current: int, clock: int)
    requires LeaseSafe(log) && GenerationsOrdered(log) && e.Gained? && e.generation == current + 1 && clock <= e.at
    requires forall i :: 0 <= i < |log| ==> log[i].generation <= current
    requires current >= 1 ==> WasGained(log, current, clock)
    requires (forall i :: 0 <= i < |log| && IsExpiry(log[i]) && log[i].generation == current ==>
                log[i].expiresAt <= e.at)
             || WasReleased(log, current)
    requires current < 1 ==> log == []
    ensures LeaseSafe(log + [e]) && GenerationsOrdered(log + [e])
  {
    var log' := log + [e];
    forall i, j | 0 <= i < |log'| && 0 <= j < |log'| && IsExpiry(log'[i]) && log'[j].Gained?
                  && log'[i].generation < log'[j].generation
      ensures log'[i].expiresAt <= log'[j].at || WasReleased(log', log'[i].generation)
    {
      assert log'[i] == log[i];
      var g := log[i].generation;
      if WasReleased(log, g) {
        ReleasedStays(log, e, g);
      } else if j == |log| && g < current {
        var k :| 0 <= k < |log| && log[k].Gained? && log[k].generation == current && log[k].at <= clock;
        assert log[i].expiresAt <= log[k].at;
      } else if j < |log| {
        assert log'[j] == log[j];
      }
    }
  }

  /** A claim that hands out an expiry or gives its lease up, within its own generation. */
  lemma SameGenerationKeepsInv(claim: Claim, log: seq<Event>, clock: int, next: Claim, e: Event)
    requires LeaseInv(Run(Some(claim), log, clock)) && claim.status == Leased && clock <= e.at
    requires SchemaAccepts(next) && next.generation == claim.generation == e.generation && !e.Gained?
    requires next.status == Leased ==>
               next.updatedAt <= e.at && claim.leaseExpiresAt.value <= next.leaseExpiresAt.value
               && e.Handed? && e.expiresAt <= next.leaseExpiresAt.value
    requires next.status != Leased ==> e.GaveUp?
    ensures LeaseInv(Run(Some(next), log + [e], e.at))
  {
    AppendCurrent(log, e);
    GainedStays(log, e, claim.generation, clock, e.at);
    assert (log + [e])[|log|] == e;
  }

  /** A release that is repeated says so again and leaves the claim as it is. */
  lemma ReleaseAgainKeepsInv(claim: Claim, log: seq<Event>, clock: int, e: Event)
    requires LeaseInv(Run(Some(claim), log, clock)) && clock <= e.at && e.GaveUp? && e.generation == claim.generation
    requires claim.status != Completed
    ensures LeaseInv(Run(Some(claim), log + [e], e.at))
  {
    AppendCurrent(log, e);
    assert (log + [e])[|log|] == e;
    if claim.generation >= 1 {
      GainedStays(log, e, claim.generation, clock, e.at);
    }
  }

  /** The next generation, after expiry or release. */
  lemma GainKeepsInv(claim: Claim, log: seq<Event>, clock: int, next: Claim, e: Event)
    requires LeaseInv(Run(Some(claim), log, clock)) && clock <= e.at
    requires claim.status == RetryableFailed || (claim.status == Leased && claim.leaseExpiresAt.value <= e.at)
    requires SchemaAccepts(next) && next.status == Leased && next.updatedAt <= e.at
    requires next.generation == claim.generation + 1 == e.generation
    requires e.Gained? && e.expiresAt == next.leaseExpiresAt.value
    ensures LeaseInv(Run(Some(next), log + [e], e.at))
  {
    AppendGain(log, e, claim.generation, clock);
    assert (log + [e])[|log|] == e;
  }

  /** A completion, or a replay that stores nothing, says nothing to the log. */
  lemma QuietKeepsInv(claim: Claim, log: seq<Event>, clock: int, next: Claim, now: int)
    requires LeaseInv(Run(Some(claim), log, clock)) && clock <= now
    requires SchemaAccepts(next) && next.generation == claim.generation
    requires next == claim || next.status == Completed
    ensures LeaseInv(Run(Some(next), log, now))
  {
    if claim.generation >= 1 {
      var k :| 0 <= k < |log| && log[k].Gained? && log[k].generation == claim.generation && log[k].at <= clock;
      assert WasGained(log, claim.generation, now);
    }
  }

  /** When an acquisition request is answered with a lease: the live one again, or the next generation
      after expiry or release. */
  lemma AcquiredMeans(claim: Claim, request: AcquireRequest, now: int)
    requires EvaluateClaim(Some(claim), request, now).Ok?
    requires EvaluateClaim(Some(claim), request, now).value.response.Acquired?
    ensures var e := EvaluateClaim(Some(claim), request, now).value;
            && SchemaAccepts(e.claim) && e.claim.status == Leased
            && e.response.generation == e.claim.generation
            && e.response.leaseExpiresAt == e.claim.leaseExpiresAt.value
            && e.response.leaseToken == request.leaseToken
            && e.persist == e.quotaRequired
            && (!e.quotaRequired ==> e.claim == claim && claim.leaseToken == Some(request.leaseToken))
            && (e.quotaRequired ==>
                  && (claim.status == RetryableFailed || (claim.status == Leased && claim.leaseExpiresAt.value <= now))
                  && e.claim.generation == claim.generation + 1 && e.claim.updatedAt == now)
  {
  }

  /** The first request for a claim is answered with generation one. */
  lemma FirstClaimMeans(request: AcquireRequest, now: int)
    requires EvaluateClaim(None, request, now).Ok?
    ensures var e := EvaluateClaim(None, request, now).value;
            && SchemaAccepts(e.claim) && e.claim.status == Leased && e.claim.generation == 1 && e.claim.updatedAt == now
            && e.quotaRequired && e.response.Acquired? && e.response.generation == 1
            && e.response.leaseExpiresAt == e.claim.leaseExpiresAt.value
  {
  }

  lemma FirstGainInv(claim: Claim, e: Event)
    requires SchemaAccepts(claim) && claim.status == Leased && claim.generation == 1 && claim.updatedAt <= e.at
    requires e.Gained? && e.generation == 1 && e.expiresAt == claim.leaseExpiresAt.value
    ensures LeaseInv(Run(Some(claim), [e], e.at))
  {
    assert [e][0].Gained? && WasGained([e], 1, e.at);
  }

  lemma FirstReplayInv(claim: Claim, clock: int)
    requires SchemaAccepts(claim) && claim.status == Completed && claim.generation < 1
    ensures LeaseInv(Run(Some(claim), [], clock))
  {
  }

  lemma FirstReplayMeans(request: AcquireRequest, now: int)
    requires CompletedReplayClaim(None, request, now).Ok?
    ensures var c := CompletedReplayClaim(None, request, now).value;
            SchemaAccepts(c) && c.status == Completed && c.generation < 1
  {
  }

  lemma FirstAcquireKeepsLeaseInv(run: Run, request: AcquireRequest, draftExists: bool, permitted: bool, now: int)
    requires LeaseInv(run) && run.clock <= now && run.claim.None?
    ensures LeaseInv(AcquireStep(run.(clock := now), request, draftExists, permitted, now))
  {
    var next := AcquireStep(run.(clock := now), request, draftExists, permitted, now);
    FirstAcquireMeans(run, request, draftExists, permitted, now);
    if next.claim.Some? && next.log == [] {
      FirstReplayInv(next.claim.value, now);
    } else if next.claim.Some? {
      FirstGainInv(next.claim.value, next.log[0]);
    }
  }

  /** The first acquisition of a claim changes nothing, or writes a completed claim, or hands out generation one. */
  lemma FirstAcquireMeans(run: Run, request: AcquireRequest, draftExists: bool, permitted: bool, now: int)
    requires run.claim.None? && run.log == []
    ensures var next := AcquireStep(run.(clock := now), request, draftExists, permitted, now);
            && next.clock == now
            && (next.claim.None? ==> next.log == [])
            && (next.claim.Some? && next.log == [] ==>
                  SchemaAccepts(next.claim.value) && next.claim.value.status == Completed
                    && next.claim.value.generation < 1)
            && (next.claim.Some? && next.log != [] ==>
                  && var c := next.claim.value;
                     && SchemaAccepts(c) && c.status == Leased && c.generation == 1 && c.updatedAt == now
                     && next.log == [Gained(1, now, c.leaseExpiresAt.value)])
  {
    if draftExists {
      if CompletedReplayClaim(None, request, now).Ok? {
        FirstReplayMeans(request, now);
      }
    } else if EvaluateClaim(None, request, now).Ok? {
      FirstClaimMeans(request, now);
      var e := EvaluateClaim(None, request, now).value;
      assert [] + [Gained(1, now, e.response.leaseExpiresAt)] == [Gained(1, now, e.response.leaseExpiresAt)];
    }
  }

  lemma AcquireKeepsLeaseInv(run: Run, request: AcquireRequest, draftExists: bool, permitted: bool, now: int)
    requires LeaseInv(run) && run.clock <= now
    ensures LeaseInv(AcquireStep(run.(clock := now), request, draftExists, permitted, now))
  {
    var next := AcquireStep(run.(clock := now), request, draftExists, permitted, now);
    if run.claim.None? {
      FirstAcquireKeepsLeaseInv(run, request, draftExists, permitted, now);
    } else {
      var claim := run.claim.value;
      QuietKeepsInv(claim, run.log, run.clock, claim, now);
      if draftExists {
        if CompletedReplayClaim(run.claim, request, now).Ok? {
          QuietKeepsInv(claim, run.log, run.clock, next.claim.value, now);
        }
      } else if next.log != run.log {
        var e := EvaluateClaim(run.claim, request, now).value;
        AcquiredMeans(claim, request, now);
        if e.quotaRequired {
          GainKeepsInv(claim, run.log, run.clock, e.claim,
                       Gained(e.response.generation, now, e.response.leaseExpiresAt));
        } else {
          SameGenerationKeepsInv(claim, run.log, run.clock, claim,
                                 Handed(e.response.generation, now, e.response.leaseExpiresAt));
        }
      } else {
        assert next.claim == run.claim;
      }
    }
  }

  lemma StepKeepsLeaseInv(run: Run, c: Command)
    requires LeaseInv(run) && run.clock <= c.now
    ensures LeaseInv(Step(run, c)) && Step(run, c).clock == c.now
  {
    if c.Acquire? {
      AcquireKeepsLeaseInv(run, c.request, c.draftExists, c.permitted, c.now);
    } else if run.claim.Some? {
      var claim, next := run.claim.value, Step(run, c);
      QuietKeepsInv(claim, run.log, run.clock, claim, c.now);
      if c.Heartbeat? {
        HeartbeatKeepsLeaseInv(run, c);
      } else if c.Release? {
        ReleaseKeepsLeaseInv(run, c);
      } else {
        QuietKeepsInv(claim, run.log, run.clock, next.claim.value, c.now);
      }
    }
  }

  lemma HeartbeatKeepsLeaseInv(run: Run, c: Command)
    requires LeaseInv(run) && run.clock <= c.now && c.Heartbeat? && run.claim.Some?
    ensures LeaseInv(Step(run, c))
  {
    var claim, next := run.claim.value, Step(run, c);
    QuietKeepsInv(claim, run.log, run.clock, claim, c.now);
    if next.log != run.log {
      SameGenerationKeepsInv(claim, run.log, run.clock, next.claim.value,
                             Handed(c.fence.generation, c.now, next.claim.value.leaseExpiresAt.value));
    }
  }

  lemma ReleaseKeepsLeaseInv(run: Run, c: Command)
    requires LeaseInv(run) && run.clock <= c.now && c.Release? && run.claim.Some?
    ensures LeaseInv(Step(run, c))
  {
    var claim, next := run.claim.value, Step(run, c);
    var e := GaveUp(c.fence.generation, c.now);
    QuietKeepsInv(claim, run.log, run.clock, claim, c.now);
    if next.log != run.log {
      if next.claim == run.claim {
        ReleaseAgainKeepsInv(claim, run.log, run.clock, e);
      } else {
        SameGenerationKeepsInv(claim, run.log, run.clock, next.claim.value, e);
      }
    }
  }

  /** Lease safety over every run of one claim with a clock that does not go back. */
  lemma {:induction false} EveryRunIsLeaseSafe(commands: seq<Command>)
    requires ClockForward(0, commands)
    ensures LeaseInv(Steps(NEW_RUN, commands))
    ensures LeaseSafe(Steps(NEW_RUN, commands).log) && GenerationsOrdered(Steps(NEW_RUN, commands).log)
    ensures Steps(NEW_RUN, commands).clock == if commands == [] then 0 else commands[|commands| - 1].now
  {
    if commands != [] {
      var front := commands[..|commands| - 1];
      EveryRunIsLeaseSafe(front);
      StepKeepsLeaseInv(Steps(NEW_RUN, front), commands[|commands| - 1]);
    }
  }

  // ---------------------------------------------------------------- stale generations

  predicate UsesGeneration(c: Command, generation: int) {
    !c.Acquire? && c.fence.generation == generation
  }

  /** A holder of an older generation can no longer change the claim by any heartbeat, release or
      completion, at any time, with any token. */
  lemma StaleGenerationChangesNothing(run: Run, c: Command, generation: int)
    requires run.claim.Some? && generation < run.claim.value.generation && UsesGeneration(c, generation)
    ensures Step(run, c).claim == run.claim
    ensures c.Heartbeat? ==> EvaluateHeartbeat(run.claim.value, c.fence, c.now).Err?
    ensures c.Release? ==>
              EvaluateRelease(run.claim.value, c.fence, if c.terminal then TerminalFailed else RetryableFailed,
                              c.failureCode, c.now).Err?
    ensures c.Complete? && run.claim.value.status != Completed ==>
              EvaluateCompletion(run.claim.value, c.fence, c.now).Err?
  {
  }

  /** Generations never go down, so a generation once overtaken stays powerless for the rest of the run. */
  lemma {:induction false} OvertakenForever(run: Run, commands: seq<Command>, c: Command, generation: int)
    requires run.claim.Some? && generation < run.claim.value.generation && UsesGeneration(c, generation)
    ensures Steps(run, commands).claim.Some?
    ensures run.claim.value.generation <= Steps(run, commands).claim.value.generation
    ensures Step(Steps(run, commands), c).claim == Steps(run, commands).claim
  {
    if commands != [] {
      OvertakenForever(run, commands[..|commands| - 1], c, generation);
      GenerationNeverFalls(Steps(run, commands[..|commands| - 1]), commands[|commands| - 1]);
    }
    StaleGenerationChangesNothing(Steps(run, commands), c, generation);
  }

  lemma GenerationNeverFalls(run: Run, c: Command)
    requires run.claim.Some?
    ensures Step(run, c).claim.Some? && run.claim.value.generation <= Step(run, c).claim.value.generation
  {
  }

  /** A live lease is exclusive: while it has not expired, no other token acquires, and the holder keeps it. */
  lemma LiveLeaseIsExclusive(claim: Claim, request: AcquireRequest, now: int)
    requires SchemaAccepts(claim) && claim.status == Leased && IdentityMatches(claim, request.identity)
    requires claim.lastHeartbeatAt.value <= now < claim.leaseExpiresAt.value
    ensures EvaluateClaim(Some(claim), request, now).Ok?
    ensures var e := EvaluateClaim(Some(claim), request, now).value;
            && !e.quotaRequired && !e.persist && e.claim == claim
            && (if claim.leaseToken == Some(request.leaseToken)
                then e.response == Acquired(Idempotent, claim.claimId, claim.generation, request.leaseToken,
                                            claim.leaseExpiresAt.value)
                else e.response.Busy? && 1 <= e.response.retryAfterSeconds <= 60
                     && now + 1000 * e.response.retryAfterSeconds >= claim.leaseExpiresAt.value
                     && now + 1000 * (e.response.retryAfterSeconds - 1) < claim.leaseExpiresAt.value)
  {
  }
}
