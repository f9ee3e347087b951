/** The final-bound interruption lease (convex/finalBoundInterruptionClaims.ts) and its recheck inside the
    appending transactions (convex/trialEvents.ts:176-289, 4127-4151, 4569-4622).

    `now` is sent by the caller and is not trusted to move forward; the generation wraps. The lease table is
    keyed by interruption, and the parts of a trial projection the lease reads are modelled as given. */
module FinalBound {
  import opened Outcomes

  const LEASE_DURATION_MS: int := 30000

  datatype LeaseError = TrialNotFound | ClaimStale | ClaimInvalid | ClaimRequired | Conflict | GenerationInvalid

  // ---------------------------------------------------------------- the target

  datatype InterruptionStatus = InterruptionActive | InterruptionResumed | InterruptionOther

  datatype ObjectionStatus = ObjectionPending | Overruled | Sustained | ObjectionOther

  datatype ResponseStatus = ResponsePending | Streaming | ResponseCommitted | Cancelled | ResponseOther

  datatype Interruption = Interruption(
    interruptId: string, objectionId: Option<string>, status: InterruptionStatus, responseId: string,
    sourceEventId: string)

  datatype Objection = Objection(
    status: ObjectionStatus, resumesResponse: bool, questionId: Option<string>, interruptedResponseId: Option<string>)

  datatype Response = Response(status: ResponseStatus, questionId: string, interruptId: Option<string>)

  /** What the lease reads of a trial projection. */
  datatype Projection = Projection(
    ownerId: string, active: Option<Interruption>, objections: map<string, Objection>,
    responses: map<string, Response>, questionTurns: map<string, string>)

  datatype Phase = RulingPending | WitnessPending | Complete

  type Projections = map<string, Projection>

  /** `requireTarget`. */
  function RequireTarget(projections: Projections, ownerId: string, trialId: string, interruptId: string)
    : Result<Phase, LeaseError>
  {
    if trialId !in projections || projections[trialId].ownerId != ownerId then Err(TrialNotFound)
    else
      var p := projections[trialId];
      if p.active.None? || p.active.value.interruptId != interruptId then Err(ClaimStale)
      else
        var active := p.active.value;
        if active.objectionId.None? || active.objectionId.value !in p.objections then Err(ClaimInvalid)
        else
          var objection := p.objections[active.objectionId.value];
          if objection.status == ObjectionPending then
            if active.status != InterruptionActive then Err(ClaimInvalid) else Ok(RulingPending)
          else if active.responseId !in p.responses then Err(ClaimInvalid)
          else
            var response := p.responses[active.responseId].status;
            if objection.status == Overruled && objection.resumesResponse && active.status == InterruptionResumed
               && (response == ResponsePending || response == Streaming)
            then Ok(WitnessPending)
            else if (objection.status == Sustained && response == Cancelled)
                    || (objection.status == Overruled && response == ResponseCommitted)
            then Ok(Complete)
            else Err(ClaimInvalid)
  }

  // ---------------------------------------------------------------- the lease row

  datatype LeaseStatus = LeaseActive | LeaseReleased

  datatype Lease = Lease(
    ownerId: string, trialId: string, decisionId: string, generation: int, tokenHash: string,
    expiresAt: int, status: LeaseStatus, createdAt: int, updatedAt: int)

  type Leases = map<string, Lease>

  /** Who claims what. */
  datatype Party = Party(ownerId: string, trialId: string, interruptId: string, decisionId: string)

  datatype Credential = Credential(party: Party, generation: int, tokenHash: string)

  /** `nextLeaseGeneration`: wraps to one after the largest safe integer. */
  function NextGeneration(current: int): Result<int, LeaseError> {
    if !(1 <= current <= MAX_SAFE_INTEGER) then Err(ClaimInvalid)
    else Ok(if current == MAX_SAFE_INTEGER then 1 else current + 1)
  }

  datatype ClaimReply =
    | Outcome
    | Wait(generation: int, expiresAt: int)
    | Claimed(generation: int, expiresAt: int)

  predicate SameParty(lease: Lease, party: Party) {
    lease.ownerId == party.ownerId && lease.trialId == party.trialId && lease.decisionId == party.decisionId
  }

  /** `claim`. */
  function ClaimStep(projections: Projections, leases: Leases, party: Party, tokenHash: string, now: int)
    : Result<(Leases, ClaimReply), LeaseError>
  {
    if !SafeTimestamp(now) then Err(ClaimInvalid)
    else
      var phase :- RequireTarget(projections, party.ownerId, party.trialId, party.interruptId);
      if phase == Complete then Ok((leases, Outcome))
      else if party.interruptId in leases then
        var existing := leases[party.interruptId];
        if !SameParty(existing, party) then Err(ClaimInvalid)
        else if existing.status == LeaseActive && existing.expiresAt > now then
          Ok((leases, Wait(existing.generation, existing.expiresAt)))
        else
          var generation :- NextGeneration(existing.generation);
          var taken := existing.(generation := generation, tokenHash := tokenHash, expiresAt := now + LEASE_DURATION_MS,
                                 status := LeaseActive, updatedAt := now);
          Ok((leases[party.interruptId := taken], Claimed(generation, now + LEASE_DURATION_MS)))
      else
        var first := Lease(party.ownerId, party.trialId, party.decisionId, 1, tokenHash, now + LEASE_DURATION_MS,
                           LeaseActive, now, now);
        Ok((leases[party.interruptId := first], Claimed(1, now + LEASE_DURATION_MS)))
  }

  /** The row check of `requireLease`. */
  predicate Holds(leases: Leases, credential: Credential, now: int) {
    && credential.party.interruptId in leases
    && var lease := leases[credential.party.interruptId];
       && SameParty(lease, credential.party)
       && lease.generation == credential.generation && lease.tokenHash == credential.tokenHash
       && lease.status == LeaseActive && now < lease.expiresAt
  }

  /** `requireLease`: the phase, if the credential is current. */
  function RequireLease(projections: Projections, leases: Leases, credential: Credential, now: int)
    : Result<Phase, LeaseError>
  {
    if !SafeTimestamp(now) || !(1 <= credential.generation <= MAX_SAFE_INTEGER) then Err(ClaimInvalid)
    else
      var phase :- RequireTarget(projections, credential.party.ownerId, credential.party.trialId,
                                 credential.party.interruptId);
      if !Holds(leases, credential, now) then Err(ClaimStale) else Ok(phase)
  }

  datatype HolderReply = HolderOutcome | Renewed(expiresAt: int) | Released

  function Guarded(projections: Projections, leases: Leases, credential: Credential, now: int)
    : Result<bool, LeaseError>
  {
    var current :- RequireTarget(projections, credential.party.ownerId, credential.party.trialId,
                                 credential.party.interruptId);
    if current == Complete then Ok(false)
    else
      var phase :- RequireLease(projections, leases, credential, now);
      Ok(phase != Complete)
  }

  /** `renew`. */
  function RenewStep(projections: Projections, leases: Leases, credential: Credential, now: int)
    : Result<(Leases, HolderReply), LeaseError>
  {
    var live :- Guarded(projections, leases, credential, now);
    if !live || credential.party.interruptId !in leases then Ok((leases, HolderOutcome))
    else
      var lease := leases[credential.party.interruptId].(expiresAt := now + LEASE_DURATION_MS, updatedAt := now);
      Ok((leases[credential.party.interruptId := lease], Renewed(now + LEASE_DURATION_MS)))
  }

  /** `release`. */
  function ReleaseStep(projections: Projections, leases: Leases, credential: Credential, now: int)
    : Result<(Leases, HolderReply), LeaseError>
  {
    var live :- Guarded(projections, leases, credential, now);
    if !live || credential.party.interruptId !in leases then Ok((leases, HolderOutcome))
    else
      var lease := leases[credential.party.interruptId].(status := LeaseReleased, expiresAt := now, updatedAt := now);
      Ok((leases[credential.party.interruptId := lease], Released))
  }

  // ---------------------------------------------------------------- the recheck in an append

  const FINAL_BOUND_PREFIX := "interrupt:final-bound:"

  predicate IsFinalBound(interruptId: string) {
    FINAL_BOUND_PREFIX <= interruptId
  }

  /** What the gate reads of a stored event. */
  datatype Event = Event(
    actionId: string, eventId: string, beginsInterruption: bool, bySystem: bool, interruptId: Option<string>,
    payloadInterruptId: string, payloadResponseId: string, payloadObjectionId: Option<string>)

  type Events = map<string, Event>

  function EventIdOf(actionId: string): string {
    "event:" + actionId
  }

  /** The stored event that began a final-bound interruption. */
  predicate BeganBy(source: Event, interruptId: string, digest: string) {
    var actionId := "action:final-bound-interruption:" + digest;
    && source.actionId == actionId && source.eventId == EventIdOf(actionId)
    && source.beginsInterruption && source.bySystem
    && source.interruptId == Some(interruptId) && source.payloadInterruptId == interruptId
    && source.payloadResponseId == "response:final-bound:" + digest
    && source.payloadObjectionId == Some("objection:final-bound:" + digest)
  }

  /** Everything about a final-bound interruption is named after the digest in its id. */
  predicate CanonicalShape(p: Projection, events: Events, active: Interruption, digest: string) {
    var objectionId, questionId := "objection:final-bound:" + digest, "question:final-bound:" + digest;
    var responseId, eventId := "response:final-bound:" + digest, EventIdOf("action:final-bound-interruption:" + digest);
    && |digest| == 64
    && active.objectionId == Some(objectionId) && active.responseId == responseId && active.sourceEventId == eventId
    && objectionId in p.objections && p.objections[objectionId].questionId == Some(questionId)
    && p.objections[objectionId].interruptedResponseId == Some(responseId)
    && responseId in p.responses && p.responses[responseId].questionId == questionId
    && p.responses[responseId].interruptId == Some(active.interruptId)
    && questionId in p.questionTurns && p.questionTurns[questionId] == "turn:final-bound-question:" + digest
    && eventId in events && BeganBy(events[eventId], active.interruptId, digest)
  }

  /** A ruling names its interruption and carries its decision; an answer's interruption is its response's. */
  datatype AppendKind = Ruling(interruptId: string, decisionId: string) | Answer

  datatype AppendInput = AppendInput(
    ownerId: string, trialId: string, kind: AppendKind, responseId: string,
    credential: Option<Credential>, now: Option<int>)

  function ExpectedPhase(input: AppendInput): Phase {
    if input.kind.Ruling? then RulingPending else WitnessPending
  }

  /** The interruption an append settles, if any. */
  function Settles(p: Projection, input: AppendInput): Result<Option<string>, LeaseError> {
    if input.kind.Ruling? then Ok(Some(input.kind.interruptId))
    else if input.responseId !in p.responses then Err(GenerationInvalid)
    else Ok(p.responses[input.responseId].interruptId)
  }

  /** `canonicalTargetRequiresFinalBoundClaim`. */
  function TargetRequiresClaim(p: Projection, events: Events, interruptId: string, responseId: string)
    : Result<bool, LeaseError>
  {
    if p.active.None? || p.active.value.interruptId != interruptId || p.active.value.responseId != responseId
    then Err(Conflict)
    else if !IsFinalBound(interruptId) then Ok(false)
    else if !CanonicalShape(p, events, p.active.value, interruptId[|FINAL_BOUND_PREFIX|..]) then Err(Conflict)
    else Ok(true)
  }

  /** `requireFinalBoundClaimForAppend`; owner and trial come from the append, not from the credential. */
  function RequireClaimForAppend(projections: Projections, leases: Leases, input: AppendInput, required: bool)
    : Result<bool, LeaseError>
  {
    if input.credential.None? && input.now.None? then
      if required then Err(ClaimRequired) else Ok(false)
    else if input.credential.None? || input.now.None? || !SafeTimestamp(input.now.value) then Err(ClaimInvalid)
    else
      var sent := input.credential.value;
      if input.kind.Ruling? && sent.party.decisionId != input.kind.decisionId then Err(ClaimInvalid)
      else
        var credential := Bound(input, sent);
        var phase :- RequireLease(projections, leases, credential, input.now.value);
        if phase != ExpectedPhase(input) then Err(ClaimStale) else Ok(true)
  }

  function Bound(input: AppendInput, sent: Credential): Credential {
    sent.(party := sent.party.(ownerId := input.ownerId, trialId := input.trialId))
  }

  /** An append that may go ahead: the interruption it settles, and whether it goes in under a lease. */
  datatype Admission = Admission(interruptId: Option<string>, underLease: bool)

  /** The whole gate before a ruling or an answer is appended. */
  function AppendGate(projections: Projections, events: Events, leases: Leases, input: AppendInput)
    : Result<Admission, LeaseError>
  {
    if input.trialId !in projections || projections[input.trialId].ownerId != input.ownerId then Err(TrialNotFound)
    else
      var p := projections[input.trialId];
      var settles :- Settles(p, input);
      var required :-
        if settles.None? then Ok(false) else TargetRequiresClaim(p, events, settles.value, input.responseId);
      var underLease :- RequireClaimForAppend(projections, leases, input, required);
      Ok(Admission(settles, underLease))
  }

  // ---------------------------------------------------------------- the mutations

  class LeaseTable {
    var projections: Projections
    var leases: Leases

    constructor ()
      ensures projections == map[] && leases == map[]
    {
      projections, leases := map[], map[];
    }

    method Claim(party: Party, tokenHash: string, now: int) returns (reply: Result<ClaimReply, LeaseError>)
      modifies `leases
      ensures var step := ClaimStep(projections, old(leases), party, tokenHash, now);
              if step.Err? then leases == old(leases) && reply == Err(step.error)
              else leases == step.value.0 && reply == Ok(step.value.1)
    {
      if !SafeTimestamp(now) {
        return Err(ClaimInvalid);
      }
      var phase :- RequireTarget(projections, party.ownerId, party.trialId, party.interruptId);
      if phase == Complete {
        return Ok(Outcome);
      }
      if party.interruptId in leases {
        var existing := leases[party.interruptId];
        if existing.ownerId != party.ownerId || existing.trialId != party.trialId
           || existing.decisionId != party.decisionId
        {
          return Err(ClaimInvalid);
        }
        if existing.status == LeaseActive && existing.expiresAt > now {
          return Ok(Wait(existing.generation, existing.expiresAt));
        }
        var generation :- NextGeneration(existing.generation);
        leases := leases[party.interruptId := existing.(
          generation := generation, tokenHash := tokenHash, expiresAt := now + LEASE_DURATION_MS,
          status := LeaseActive, updatedAt := now)];
        return Ok(Claimed(generation, now + LEASE_DURATION_MS));
      }
      leases := leases[party.interruptId :=
        Lease(party.ownerId, party.trialId, party.decisionId, 1, tokenHash, now + LEASE_DURATION_MS, LeaseActive, now,
              now)];
      reply := Ok(Claimed(1, now + LEASE_DURATION_MS));
    }

    method Renew(credential: Credential, now: int) returns (reply: Result<HolderReply, LeaseError>)
      modifies `leases
      ensures var step := RenewStep(projections, old(leases), credential, now);
              if step.Err? then leases == old(leases) && reply == Err(step.error)
              else leases == step.value.0 && reply == Ok(step.value.1)
    {
      var party := credential.party;
      var current :- RequireTarget(projections, party.ownerId, party.trialId, party.interruptId);
      if current == Complete {
        return Ok(HolderOutcome);
      }
      var phase :- RequireLease(projections, leases, credential, now);
      if phase == Complete {
        return Ok(HolderOutcome);
      }
      leases := leases[party.interruptId :=
        leases[party.interruptId].(expiresAt := now + LEASE_DURATION_MS, updatedAt := now)];
      reply := Ok(Renewed(now + LEASE_DURATION_MS));
    }

    method Release(credential: Credential, now: int) returns (reply: Result<HolderReply, LeaseError>)
      modifies `leases
      ensures var step := ReleaseStep(projections, old(leases), credential, now);
              if step.Err? then leases == old(leases) && reply == Err(step.error)
              else leases == step.value.0 && reply == Ok(step.value.1)
    {
      var party := credential.party;
      var current :- RequireTarget(projections, party.ownerId, party.trialId, party.interruptId);
      if current == Complete {
        return Ok(HolderOutcome);
      }
      var phase :- RequireLease(projections, leases, credential, now);
      if phase == Complete {
        return Ok(HolderOutcome);
      }
      leases := leases[party.interruptId :=
        leases[party.interruptId].(status := LeaseReleased, expiresAt := now, updatedAt := now)];
      reply := Ok(Released);
    }
  }

  // ---------------------------------------------------------------- generations

  /** The generation after `claims` claims of one interruption. */
  function GenerationAfter(claims: nat): int
    requires claims >= 1
  {
    (claims - 1) % MAX_SAFE_INTEGER + 1
  }

  lemma NextGenerationWraps(claims: nat)
    requires claims >= 1
    ensures NextGeneration(GenerationAfter(claims)) == Ok(GenerationAfter(claims + 1))
  {
    var m := MAX_SAFE_INTEGER;
    var q, r := (claims - 1) / m, (claims - 1) % m;
    assert claims - 1 == q * m + r;
    if r == m - 1 {
      ModuloUnique(claims, q + 1, 0);
    } else {
      ModuloUnique(claims, q, r + 1);
    }
  }

  lemma ModuloUnique(n: int, q: int, r: int)
    requires n == q * MAX_SAFE_INTEGER + r && 0 <= r < MAX_SAFE_INTEGER
    ensures n % MAX_SAFE_INTEGER == r
  {
    var m := MAX_SAFE_INTEGER;
    var k := n / m - q;
    assert n % m == r - k * m;
    assert k == 0;
  }

  /** Two claims of one interruption share a generation exactly when a whole number of wraps separates them. */
  lemma GenerationsRepeatEvery(earlier: nat, later: nat)
    requires 1 <= earlier <= later
    ensures GenerationAfter(earlier) == GenerationAfter(later) <==> (later - earlier) % MAX_SAFE_INTEGER == 0
  {
    var m := MAX_SAFE_INTEGER;
    var a, b := (earlier - 1) / m, (later - 1) / m;
    var r, s := (earlier - 1) % m, (later - 1) % m;
    assert later - earlier == (b - a) * m + (s - r);
    if s >= r {
      ModuloUnique(later - earlier, b - a, s - r);
    } else {
      assert later - earlier == (b - a - 1) * m + (s - r + m);
      ModuloUnique(later - earlier, b - a - 1, s - r + m);
    }
  }

  // ---------------------------------------------------------------- runs

  datatype Step =
    | ClaimIt(party: Party, tokenHash: string, now: int)
    | RenewIt(credential: Credential, now: int)
    | ReleaseIt(credential: Credential, now: int)
    | Append(input: AppendInput, after: Projection)
    | TrustedAppend(ownerId: Option<string>, trialId: string, after: Projection)
    | Project(projections: Projections, events: Events)

  /** Claims won so far, oldest first, and the rulings and answers that passed the gate. Steps that are none of the
      lease's own may leave any projection and any event rows behind. */
  datatype World = World(
    projections: Projections, events: Events, leases: Leases, won: seq<Credential>, settled: seq<Settlement>)

  /** A ruling or answer that was committed: its admission, and the claims won until then. */
  datatype Settlement = Settlement(input: AppendInput, admission: Admission, wonBefore: nat)

  const START := World(map[], map[], map[], [], [])

  /** Token hashes are fresh: no claim is won with a hash an earlier claim used. */
  ghost predicate FreshTokens(w: World, step: Step) {
    step.ClaimIt? ==> forall i :: 0 <= i < |w.won| ==> w.won[i].tokenHash != step.tokenHash
  }

  /** The trial's projection after a commit; the engine chooses it, but never its owner. */
  function Committed(w: World, trialId: string, after: Projection): World
    requires trialId in w.projections
  {
    w.(projections := w.projections[trialId := after.(ownerId := w.projections[trialId].ownerId)])
  }

  function Next(w: World, step: Step): World {
    match step
    case ClaimIt(party, tokenHash, now) =>
      var r := ClaimStep(w.projections, w.leases, party, tokenHash, now);
      if r.Err? then w
      else if r.value.1.Claimed? then
        w.(leases := r.value.0, won := w.won + [Credential(party, r.value.1.generation, tokenHash)])
      else w.(leases := r.value.0)
    case RenewIt(credential, now) =>
      var r := RenewStep(w.projections, w.leases, credential, now);
      if r.Err? then w else w.(leases := r.value.0)
    case ReleaseIt(credential, now) =>
      var r := ReleaseStep(w.projections, w.leases, credential, now);
      if r.Err? then w else w.(leases := r.value.0)
    case Append(input, after) =>
      var r := AppendGate(w.projections, w.events, w.leases, input);
      if r.Err? then w
      else Committed(w, input.trialId, after).(settled := w.settled + [Settlement(input, r.value, |w.won|)])
    case TrustedAppend(ownerId, trialId, after) =>
      if trialId !in w.projections || (ownerId.Some? && w.projections[trialId].ownerId != ownerId.value) then w
      else Committed(w, trialId, after)
    case Project(projections, events) => w.(projections := projections, events := events)
  }

  ghost predicate FreshRun(w: World, steps: seq<Step>)
    decreases |steps|
  {
    steps == [] || (FreshTokens(w, steps[0]) && FreshRun(Next(w, steps[0]), steps[1..]))
  }

  function Run(w: World, steps: seq<Step>): World
    decreases |steps|
  {
    if steps == [] then w else Run(Next(w, steps[0]), steps[1..])
  }

  /** Claims won for one interruption. */
  function WonFor(won: seq<Credential>, interruptId: string): seq<Credential> {
    if won == [] then []
    else
      var earlier, last := WonFor(won[..|won| - 1], interruptId), won[|won| - 1];
      if last.party.interruptId == interruptId then earlier + [last] else earlier
  }

  /** The lease row is always the newest claim won for its interruption, numbered modulo the wrap. */
  ghost predicate LeaseInv(w: World) {
    && (forall id :: WonFor(w.won, id) != [] ==> id in w.leases)
    && (forall id :: id in w.leases ==> NewestHolds(WonFor(w.won, id), w.leases[id]))
  }

  predicate NewestHolds(claims: seq<Credential>, lease: Lease) {
    && claims != []
    && lease.generation == GenerationAfter(|claims|)
    && var newest := claims[|claims| - 1];
       newest.generation == lease.generation && newest.tokenHash == lease.tokenHash && SameParty(lease, newest.party)
  }

  lemma {:induction false} WonForAppended(won: seq<Credential>, c: Credential, interruptId: string)
    ensures WonFor(won + [c], interruptId)
            == if c.party.interruptId == interruptId then WonFor(won, interruptId) + [c] else WonFor(won, interruptId)
  {
    assert (won + [c])[..|won|] == won;
  }

  lemma LeaseKept(w: World, step: Step)
    requires LeaseInv(w)
    ensures LeaseInv(Next(w, step))
  {
    match step
    case ClaimIt(party, tokenHash, now) => ClaimKeepsLease(w, party, tokenHash, now);
    case RenewIt(credential, now) =>
    case ReleaseIt(credential, now) =>
    case Append(input, after) =>
    case TrustedAppend(ownerId, trialId, after) =>
    case Project(projections, events) =>
  }

  lemma ClaimKeepsLease(w: World, party: Party, tokenHash: string, now: int)
    requires LeaseInv(w)
    ensures LeaseInv(Next(w, ClaimIt(party, tokenHash, now)))
  {
    var r := ClaimStep(w.projections, w.leases, party, tokenHash, now);
    if r.Ok? && r.value.1.Claimed? {
      ClaimedNext(w, party, tokenHash, now);
      WonLease(w, Credential(party, r.value.1.generation, tokenHash), r.value.0[party.interruptId]);
    }
  }

  /** A claim that is won: its lease row, in the next generation. */
  lemma ClaimedNext(w: World, party: Party, tokenHash: string, now: int)
    requires LeaseInv(w)
    requires var r := ClaimStep(w.projections, w.leases, party, tokenHash, now); r.Ok? && r.value.1.Claimed?
    ensures var r := ClaimStep(w.projections, w.leases, party, tokenHash, now).value;
            && party.interruptId in r.0 && r.0 == w.leases[party.interruptId := r.0[party.interruptId]]
            && NewestHolds(WonFor(w.won, party.interruptId) + [Credential(party, r.1.generation, tokenHash)],
                           r.0[party.interruptId])
  {
    var claims := WonFor(w.won, party.interruptId);
    if claims != [] {
      NextGenerationWraps(|claims|);
      assert NewestHolds(claims, w.leases[party.interruptId]);
    }
  }

  lemma WonLease(w: World, c: Credential, lease: Lease)
    requires LeaseInv(w) && NewestHolds(WonFor(w.won, c.party.interruptId) + [c], lease)
    ensures LeaseInv(w.(leases := w.leases[c.party.interruptId := lease], won := w.won + [c]))
  {
    var n := w.(leases := w.leases[c.party.interruptId := lease], won := w.won + [c]);
    forall id
      ensures WonFor(n.won, id) != [] ==> id in n.leases
      ensures id in n.leases ==> NewestHolds(WonFor(n.won, id), n.leases[id])
    {
      WonForAppended(w.won, c, id);
    }
  }

  /** Every credential that passes is the newest claim of its interruption, whatever `now` it comes with. */
  lemma OnlyNewestHolds(w: World, credential: Credential, now: int)
    requires LeaseInv(w) && Holds(w.leases, credential, now)
    ensures var claims := WonFor(w.won, credential.party.interruptId);
            && claims != []
            && claims[|claims| - 1].generation == credential.generation
            && claims[|claims| - 1].tokenHash == credential.tokenHash
  {
    assert NewestHolds(WonFor(w.won, credential.party.interruptId), w.leases[credential.party.interruptId]);
  }

  /** Without assuming fresh tokens: an earlier claim passes again exactly when it carries the newest claim's
      token and a whole number of generation wraps lies between, under the newest lease's own conditions. */
  lemma EarlierClaimPassesExactly(w: World, interruptId: string, j: nat, now: int)
    requires LeaseInv(w) && Numbered(w) && j < |WonFor(w.won, interruptId)|
    requires interruptId in w.leases
    ensures var claims := WonFor(w.won,
                                 interruptId); var newest := claims[|claims| - 1]; var lease := w.leases[interruptId];
            Holds(w.leases, claims[j], now) <==>
              && claims[j].tokenHash == newest.tokenHash
              && (|claims| - 1 - j) % MAX_SAFE_INTEGER == 0
              && SameParty(lease, claims[j].party)
              && lease.status == LeaseActive && now < lease.expiresAt
  {
    var claims := WonFor(w.won, interruptId);
    assert NewestHolds(claims, w.leases[interruptId]);
    assert ClaimNumbered(claims, interruptId, j);
    GenerationsRepeatEvery(j + 1, |claims|);
  }

  predicate ClaimNumbered(claims: seq<Credential>, interruptId: string, k: nat)
    requires k < |claims|
  {
    claims[k].party.interruptId == interruptId && claims[k].generation == GenerationAfter(k + 1)
  }

  /** The k-th claim won for an interruption carries generation k, modulo the wrap. */
  ghost predicate Numbered(w: World) {
    forall id, k :: 0 <= k < |WonFor(w.won, id)| ==> ClaimNumbered(WonFor(w.won, id), id, k)
  }

  lemma NumberedKept(w: World, step: Step)
    requires LeaseInv(w) && Numbered(w)
    ensures Numbered(Next(w, step))
  {
    var n := Next(w, step);
    if n.won != w.won {
      LeaseKept(w, step);
      NumberedGrows(w, n, n.won[|w.won|]);
    }
  }

  lemma NumberedGrows(w: World, n: World, c: Credential)
    requires Numbered(w) && LeaseInv(n) && n.won == w.won + [c]
    ensures Numbered(n)
  {
    forall id, k | 0 <= k < |WonFor(n.won, id)|
      ensures ClaimNumbered(WonFor(n.won, id), id, k)
    {
      WonForAppended(w.won, c, id);
      if k < |WonFor(w.won, id)| {
        assert ClaimNumbered(WonFor(w.won, id), id, k);
      } else {
        assert NewestHolds(WonFor(n.won, id), n.leases[id]);
      }
    }
  }

  // ---------------------------------------------------------------- fencing

  ghost predicate DistinctTokens(won: seq<Credential>) {
    forall i, j :: 0 <= i < j < |won| ==> won[i].tokenHash != won[j].tokenHash
  }

  lemma {:induction false} WonForIsSubsequence(won: seq<Credential>, interruptId: string, j: nat) returns (at: nat)
    requires j < |WonFor(won, interruptId)|
    ensures at < |won| && won[at] == WonFor(won, interruptId)[j]
    ensures j + 1 < |WonFor(won, interruptId)| ==>
              exists later :: at < later < |won|
                && won[later] == WonFor(won, interruptId)[|WonFor(won, interruptId)| - 1]
  {
    var earlier := won[..|won| - 1];
    if j < |WonFor(earlier, interruptId)| {
      at := WonForIsSubsequence(earlier, interruptId, j);
      if won[|won| - 1].party.interruptId == interruptId {
        assert won[|won| - 1] == WonFor(won, interruptId)[|WonFor(won, interruptId)| - 1];
      } else if j + 1 < |WonFor(won, interruptId)| {
        var later :| at < later < |earlier|
            && earlier[later] == WonFor(earlier, interruptId)[|WonFor(earlier, interruptId)| - 1];
        assert won[later] == earlier[later];
      }
    } else {
      at := |won| - 1;
    }
  }

  /** With fresh tokens, a claim that has been taken over does not pass, for any `now` and any owner fields. */
  lemma TakenOverNeverHolds(w: World, interruptId: string, j: nat, credential: Credential, now: int)
    requires LeaseInv(w) && DistinctTokens(w.won) && j + 1 < |WonFor(w.won, interruptId)|
    requires credential.tokenHash == WonFor(w.won, interruptId)[j].tokenHash
    requires credential.party.interruptId == interruptId
    ensures !Holds(w.leases, credential, now)
  {
    var at := WonForIsSubsequence(w.won, interruptId, j);
    var claims := WonFor(w.won, interruptId);
    var later :| at < later < |w.won| && w.won[later] == claims[|claims| - 1];
    assert claims[j].tokenHash != claims[|claims| - 1].tokenHash;
    if Holds(w.leases, credential, now) {
      OnlyNewestHolds(w, credential, now);
    }
  }

  /** Every ruling or answer of a final-bound interruption went in under the newest claim of that interruption. */
  ghost predicate SettledInv(w: World) {
    forall i :: 0 <= i < |w.settled| && OfFinalBound(w.settled[i].admission) ==> SettledUnderNewest(w.won, w.settled[i])
  }

  predicate OfFinalBound(admission: Admission) {
    admission.interruptId.Some? && IsFinalBound(admission.interruptId.value)
  }

  ghost predicate SettledUnderNewest(won: seq<Credential>, s: Settlement)
    requires s.admission.interruptId.Some?
  {
    var interruptId := s.admission.interruptId.value;
    && s.admission.underLease && s.input.credential.Some? && s.wonBefore <= |won|
    && s.input.credential.value.party.interruptId == interruptId
    && var claims := WonFor(won[..s.wonBefore], interruptId);
       && claims != []
       && claims[|claims| - 1].tokenHash == s.input.credential.value.tokenHash
       && claims[|claims| - 1].generation == s.input.credential.value.generation
  }

  /** What admission to a final-bound interruption means: the credential is for that interruption, holds its lease,
      and carries the ruling's decision, and the interruption is in the phase that the append settles. */
  lemma GateMeans(projections: Projections, events: Events, leases: Leases, input: AppendInput)
    requires AppendGate(projections, events, leases, input).Ok?
    requires OfFinalBound(AppendGate(projections, events, leases, input).value)
    ensures var admission := AppendGate(projections, events, leases, input).value;
            && admission.underLease && input.credential.Some? && input.now.Some?
            && input.credential.value.party.interruptId == admission.interruptId.value
            && (input.kind.Ruling? ==> input.credential.value.party.decisionId == input.kind.decisionId)
            && Holds(leases, Bound(input, input.credential.value), input.now.value)
            && RequireTarget(projections, input.ownerId, input.trialId, admission.interruptId.value)
               == Ok(ExpectedPhase(input))
            && CanonicalShape(projections[input.trialId], events, projections[input.trialId].active.value,
                              admission.interruptId.value[|FINAL_BOUND_PREFIX|..])
  {
  }

  lemma SettledStays(won: seq<Credential>, longer: seq<Credential>, s: Settlement)
    requires won <= longer && s.admission.interruptId.Some? && SettledUnderNewest(won, s)
    ensures SettledUnderNewest(longer, s)
  {
    assert longer[..s.wonBefore] == won[..s.wonBefore];
  }

  lemma SettledNow(w: World, input: AppendInput)
    requires LeaseInv(w) && AppendGate(w.projections, w.events, w.leases, input).Ok?
    requires OfFinalBound(AppendGate(w.projections, w.events, w.leases, input).value)
    ensures SettledUnderNewest(w.won,
                               Settlement(input, AppendGate(w.projections, w.events, w.leases, input).value, |w.won|))
  {
    GateMeans(w.projections, w.events, w.leases, input);
    OnlyNewestHolds(w, Bound(input, input.credential.value), input.now.value);
    assert w.won[..|w.won|] == w.won;
  }

  /** What a step adds to the two logs. */
  lemma StepLogs(w: World, step: Step)
    ensures Next(w, step).won == w.won
            || (step.ClaimIt? && w.won < Next(w, step).won && |Next(w, step).won| == |w.won| + 1
                && Next(w, step).won[|w.won|].tokenHash == step.tokenHash)
    ensures Next(w, step).settled == w.settled
            || (step.Append? && AppendGate(w.projections, w.events, w.leases, step.input).Ok?
                && Next(w, step).settled
                   == w.settled + [Settlement(step.input,
                                              AppendGate(w.projections, w.events, w.leases,
                                                         step.input).value, |w.won|)])
  {
  }

  lemma SettledKept(w: World, step: Step, n: World)
    requires LeaseInv(w) && SettledInv(w) && w.won <= n.won
    requires n.settled == w.settled
             || (step.Append? && AppendGate(w.projections, w.events, w.leases, step.input).Ok?
                 && n.settled
                    == w.settled + [Settlement(step.input,
                                               AppendGate(w.projections, w.events, w.leases,
                                                          step.input).value, |w.won|)])
    ensures SettledInv(n)
  {
    forall i | 0 <= i < |n.settled| && OfFinalBound(n.settled[i].admission)
      ensures SettledUnderNewest(n.won, n.settled[i])
    {
      if i == |w.settled| {
        SettledNow(w, step.input);
      }
      SettledStays(w.won, n.won, n.settled[i]);
    }
  }

  lemma StepKeepsFencing(w: World, step: Step)
    requires FencingInv(w)
    ensures FencingInv(Next(w, step)) && w.won <= Next(w, step).won
    ensures DistinctTokens(w.won) && FreshTokens(w, step) ==> DistinctTokens(Next(w, step).won)
  {
    LeaseKept(w, step);
    NumberedKept(w, step);
    StepLogs(w, step);
    SettledKept(w, step, Next(w, step));
  }

  ghost predicate FencingInv(w: World) {
    LeaseInv(w) && Numbered(w) && SettledInv(w)
  }

  lemma {:induction false} RunKeepsFencing(w: World, steps: seq<Step>)
    requires FencingInv(w)
    ensures FencingInv(Run(w, steps))
    ensures w.won <= Run(w, steps).won
    ensures DistinctTokens(w.won) && FreshRun(w, steps) ==> DistinctTokens(Run(w, steps).won)
    decreases |steps|
  {
    if steps != [] {
      StepKeepsFencing(w, steps[0]);
      RunKeepsFencing(Next(w, steps[0]), steps[1..]);
    }
  }

  /** No clock assumption: in every run, each committed ruling or answer of a final-bound interruption that came
      through the gated mutations went in under the credential that was the newest claim of its interruption in that
      very transaction. Trusted appends have no gate; they may change the projection between any two of these. */
  lemma EveryFinalBoundAppendIsFenced(steps: seq<Step>)
    ensures FencingInv(Run(START, steps))
  {
    RunKeepsFencing(START, steps);
  }

  lemma {:induction false} WonForGrows(won: seq<Credential>, more: seq<Credential>, interruptId: string)
    ensures WonFor(won, interruptId) <= WonFor(won + more, interruptId)
  {
    if more == [] {
      assert won + more == won;
    } else {
      WonForGrows(won, more[..|more| - 1], interruptId);
      assert won + more == (won + more[..|more| - 1]) + [more[|more| - 1]];
      WonForAppended(won + more[..|more| - 1], more[|more| - 1], interruptId);
    }
  }

  /** Once a takeover is won, no earlier credential passes again in any later state of a run with fresh
      tokens, whatever `now` the callers send and however often the generation wraps. */
  lemma TakenOverForever(w: World, steps: seq<Step>, interruptId: string, j: nat, credential: Credential, now: int)
    requires FencingInv(w) && DistinctTokens(w.won) && FreshRun(w, steps)
    requires j + 1 < |WonFor(w.won, interruptId)|
    requires credential.tokenHash == WonFor(w.won, interruptId)[j].tokenHash
    requires credential.party.interruptId == interruptId
    ensures var n := Run(w, steps);
            !Holds(n.leases, credential, now) && RequireLease(n.projections, n.leases, credential, now).Err?
  {
    RunKeepsFencing(w, steps);
    EarlierClaimsRemain(w.won, Run(w, steps).won, interruptId, j);
    TakenOverNeverHolds(Run(w, steps), interruptId, j, credential, now);
  }

  lemma EarlierClaimsRemain(before: seq<Credential>, after: seq<Credential>, interruptId: string, j: nat)
    requires before <= after && j + 1 < |WonFor(before, interruptId)|
    ensures j + 1 < |WonFor(after, interruptId)| && WonFor(after, interruptId)[j] == WonFor(before, interruptId)[j]
  {
    assert after == before + after[|before|..];
    WonForGrows(before, after[|before|..], interruptId);
  }
}
