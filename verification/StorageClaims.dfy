/** Which compile claim accounts for a stored object (convex/caseStorageReconciler.ts:176-209, 511-548).

    The sweeper reads two index heads, the newest claim created in the day before the object and the
    newest claim active within a day of it, and keeps the first that is associated. Object creation
    times are platform instants with fractional milliseconds; claim times are whole milliseconds. */
module StorageClaims {
  import opened Outcomes
  import DigestCodec

  const DAY_MS: int := 86400000
  const ACTIVITY_HORIZON_MS: int := DAY_MS

  type Instant = t: real | 0.0 <= t

  datatype ClaimRow = ClaimRow(contentDigest: string, createdAt: int, updatedAt: int)

  function LowerBound(created: Instant): real {
    if created < ACTIVITY_HORIZON_MS as real then 0.0 else created - ACTIVITY_HORIZON_MS as real
  }

  function UpperBound(created: Instant): real {
    created + ACTIVITY_HORIZON_MS as real
  }

  predicate Associated(created: Instant, digest: string, claim: ClaimRow) {
    && SafeTimestamp(claim.createdAt) && claim.createdAt as real <= created
    && SafeTimestamp(claim.updatedAt) && claim.createdAt <= claim.updatedAt
    && DigestCodec.IsHex64(digest) && digest == claim.contentDigest
    && (LowerBound(created) <= claim.createdAt as real
        || LowerBound(created) <= claim.updatedAt as real <= UpperBound(created))
  }

  // ---------------------------------------------------------------- index heads

  /** The two indexes read: by digest and creation time, by digest and last update. */
  datatype ClaimIndex = ByCreation | ByUpdate

  function IndexKey(index: ClaimIndex, claim: ClaimRow): int {
    if index == ByCreation then claim.createdAt else claim.updatedAt
  }

  predicate InRange(index: ClaimIndex, digest: string, low: real, high: real, claim: ClaimRow) {
    claim.contentDigest == digest && low <= IndexKey(index, claim) as real <= high
  }

  /** Descending index scan, first row; rows are kept in insertion order, which breaks ties. */
  function Newest(index: ClaimIndex, digest: string, low: real, high: real, claims: seq<ClaimRow>): Option<ClaimRow> {
    if claims == [] then None
    else
      var earlier, last := Newest(index, digest, low, high, claims[..|claims| - 1]), claims[|claims| - 1];
      if InRange(index, digest, low, high, last)
         && (earlier.None? || IndexKey(index, earlier.value) <= IndexKey(index, last))
      then Some(last) else earlier
  }

  lemma {:induction false} NewestIsHead(
    index: ClaimIndex, digest: string, low: real, high: real, claims: seq<ClaimRow>)
    ensures var head := Newest(index, digest, low, high, claims);
            && (head.None? ==> forall c :: c in claims ==> !InRange(index, digest, low, high, c))
            && (head.Some? ==>
                  && head.value in claims && InRange(index, digest, low, high, head.value)
                  && forall c :: c in claims && InRange(index, digest, low, high, c) ==>
                       IndexKey(index, c) <= IndexKey(index, head.value))
  {
    if claims != [] {
      var earlier := claims[..|claims| - 1];
      NewestIsHead(index, digest, low, high, earlier);
      assert claims == earlier + [claims[|claims| - 1]];
    }
  }

  function CreatedHead(created: Instant, digest: string, claims: seq<ClaimRow>): Option<ClaimRow> {
    Newest(ByCreation, digest, LowerBound(created), created, claims)
  }

  function ActiveHead(created: Instant, digest: string, claims: seq<ClaimRow>): Option<ClaimRow> {
    Newest(ByUpdate, digest, LowerBound(created), UpperBound(created), claims)
  }

  /** `[claimByCreation, claimByActivity].find(associated)`. */
  function FindClaim(created: Instant, digest: string, claims: seq<ClaimRow>): Option<ClaimRow> {
    var byCreation, byActivity := CreatedHead(created, digest, claims), ActiveHead(created, digest, claims);
    if byCreation.Some? && Associated(created, digest, byCreation.value) then byCreation
    else if byActivity.Some? && Associated(created, digest, byActivity.value) then byActivity
    else None
  }

  // ---------------------------------------------------------------- what the lookup finds

  lemma FoundClaimIsAssociated(created: Instant, digest: string, claims: seq<ClaimRow>)
    requires FindClaim(created, digest, claims).Some?
    ensures var claim := FindClaim(created, digest, claims).value;
            claim in claims && Associated(created, digest, claim)
  {
    NewestIsHead(ByCreation, digest, LowerBound(created), created, claims);
    NewestIsHead(ByUpdate, digest, LowerBound(created), UpperBound(created), claims);
  }

  /** Every claim writer stores whole, ordered timestamps. */
  predicate WellFormedClaims(claims: seq<ClaimRow>) {
    forall c :: c in claims ==> 0 <= c.createdAt <= c.updatedAt <= MAX_SAFE_INTEGER
  }

  predicate CreatedTheDayBefore(created: Instant, digest: string, claim: ClaimRow) {
    InRange(ByCreation, digest, LowerBound(created), created, claim)
  }

  /** When the lookup finds a claim: some claim was created in the day before the object, or the claim
      most recently active within a day of it is no younger than the object. */
  lemma ClaimFoundExactly(created: Instant, digest: string, claims: seq<ClaimRow>)
    requires WellFormedClaims(claims) && DigestCodec.IsHex64(digest)
    ensures FindClaim(created, digest, claims).Some?
            <==> || (exists c :: c in claims && CreatedTheDayBefore(created, digest, c))
                 || (ActiveHead(created, digest, claims).Some?
                     && ActiveHead(created, digest, claims).value.createdAt as real <= created)
  {
    NewestIsHead(ByCreation, digest, LowerBound(created), created, claims);
    NewestIsHead(ByUpdate, digest, LowerBound(created), UpperBound(created), claims);
    var byCreation := CreatedHead(created, digest, claims);
    if byCreation.Some? {
      assert CreatedTheDayBefore(created, digest, byCreation.value);
    }
  }

  /** An associated claim is missed exactly when it was created more than a day before the object and a
      younger claim was active later in the window. The object is then retained, never deleted. */
  lemma AssociatedClaimHidden(created: Instant, digest: string, claims: seq<ClaimRow>, claim: ClaimRow)
    requires WellFormedClaims(claims) && claim in claims && Associated(created, digest, claim)
    ensures FindClaim(created, digest, claims).None?
            <==> && (forall c :: c in claims ==> !CreatedTheDayBefore(created, digest, c))
                 && ActiveHead(created, digest, claims).Some?
                 && ActiveHead(created, digest, claims).value.createdAt as real > created
                 && claim.updatedAt <= ActiveHead(created, digest, claims).value.updatedAt
  {
    ClaimFoundExactly(created, digest, claims);
    NewestIsHead(ByUpdate, digest, LowerBound(created), UpperBound(created), claims);
    if forall c :: c in claims ==> !CreatedTheDayBefore(created, digest, c) {
      assert !CreatedTheDayBefore(created, digest, claim);
      assert InRange(ByUpdate, digest, LowerBound(created), UpperBound(created), claim);
    }
  }

  /** Such an input: the first claim made the object and is still active, the second is a later retry. */
  lemma HiddenClaimExample(digest: string)
    requires DigestCodec.IsHex64(digest)
    ensures var blob: Instant := 10.0 * DAY_MS as real;
            var maker := ClaimRow(digest, 8 * DAY_MS, 10 * DAY_MS);
            var later := ClaimRow(digest, 10 * DAY_MS + 1, 10 * DAY_MS + 1);
            && Associated(blob, digest, maker)
            && FindClaim(blob, digest, [maker, later]).None?
            && FindClaim(blob, digest, [maker]) == Some(maker)
  {
    var blob: Instant := 10.0 * DAY_MS as real;
    var maker := ClaimRow(digest, 8 * DAY_MS, 10 * DAY_MS);
    var later := ClaimRow(digest, 10 * DAY_MS + 1, 10 * DAY_MS + 1);
    var both := [maker, later];
    ClaimFoundExactly(blob, digest, both);
    ClaimFoundExactly(blob, digest, [maker]);
    NewestIsHead(ByUpdate, digest, LowerBound(blob), UpperBound(blob), both);
    NewestIsHead(ByUpdate, digest, LowerBound(blob), UpperBound(blob), [maker]);
    assert InRange(ByUpdate, digest, LowerBound(blob), UpperBound(blob), later) && later in both;
    assert InRange(ByUpdate, digest, LowerBound(blob), UpperBound(blob), maker) && maker in [maker];
    FoundClaimIsAssociated(blob, digest, [maker]);
  }
}
