/** The ids of server review provenance: a prefix, sixteen digits of the publication token and a sequence
    number padded to four digits (convex/caseServiceBoundary.ts:458-466, convex/caseCompileReplay.ts:144-149). */
module ReviewIds {

  predicate IsDigit(c: char) {
    '0' <= c <= '9'
  }

  predicate IsHexDigit(c: char) {
    IsDigit(c) || 'a' <= c <= 'f'
  }

  predicate IsIdStart(c: char) {
    IsDigit(c) || 'a' <= c <= 'z' || 'A' <= c <= 'Z'
  }

  /** The schema's pattern and least length of ids. */
  predicate IsEntityId(id: string) {
    && |id| >= 3 && IsIdStart(id[0])
    && forall i :: 0 <= i < |id| ==> IsIdStart(id[i]) || id[i] in "._:-"
  }

  function Digit(d: nat): char
    requires d < 10
  {
    '0' + d as char
  }

  /** `String(n)`. */
  function Decimal(n: nat): (s: string)
    ensures |s| >= 1 && forall i :: 0 <= i < |s| ==> IsDigit(s[i])
  {
    if n < 10 then [Digit(n)] else Decimal(n / 10) + [Digit(n % 10)]
  }

  /** `s.padStart(4, "0")`. */
  function Pad4(s: string): string {
    if |s| >= 4 then s else "0000"[..4 - |s|] + s
  }

  const GRAPH_PREFIX := "graph:published:"

  predicate IsPublicationId(id: string) {
    && |id| == |GRAPH_PREFIX| + 64
    && id[..|GRAPH_PREFIX|] == GRAPH_PREFIX
    && forall i :: |GRAPH_PREFIX| <= i < |id| ==> IsHexDigit(id[i])
  }

  /** The captured token, cut to its first sixteen digits. */
  function TokenOf(publicationGraphId: string): string {
    if |publicationGraphId| < |GRAPH_PREFIX| + 16 then ""
    else publicationGraphId[|GRAPH_PREFIX|..|GRAPH_PREFIX| + 16]
  }

  function IdPrefix(token: string): string {
    "prov:review:" + token + ":"
  }

  function ReviewId(token: string, n: nat): string {
    IdPrefix(token) + Pad4(Decimal(n))
  }

  /** The pattern that stripping recognises: the prefix and exactly four digits. */
  predicate IsReviewId(token: string, id: string) {
    var prefix := IdPrefix(token);
    && |id| == |prefix| + 4
    && id[..|prefix|] == prefix
    && forall i :: |prefix| <= i < |id| ==> IsDigit(id[i])
  }

  // ---------------------------------------------------------------- ids and numbers

  ghost function ValueOf(s: string): int {
    if s == "" then 0 else 10 * ValueOf(s[..|s| - 1]) + (s[|s| - 1] as int - '0' as int)
  }

  lemma {:induction false} ValueOfDecimal(n: nat)
    ensures ValueOf(Decimal(n)) == n
  {
    if n >= 10 {
      ValueOfDecimal(n / 10);
      var front, last := Decimal(n / 10), [Digit(n % 10)];
      assert (front + last)[..|front|] == front;
    } else {
      assert [Digit(n)][..0] == "";
    }
  }

  lemma {:induction false} ValueOfZeros(zeros: string, s: string)
    requires forall i :: 0 <= i < |zeros| ==> zeros[i] == '0'
    ensures ValueOf(zeros + s) == ValueOf(s)
  {
    if s != "" {
      ValueOfZeros(zeros, s[..|s| - 1]);
      assert (zeros + s)[..|zeros + s| - 1] == zeros + s[..|s| - 1];
    } else if zeros != "" {
      ValueOfZeros(zeros[..|zeros| - 1], "");
      assert zeros[..|zeros| - 1] + "" == zeros[..|zeros| - 1] && zeros + "" == zeros;
    }
  }

  lemma ValueOfPadded(n: nat)
    ensures ValueOf(Pad4(Decimal(n))) == n
    ensures |Pad4(Decimal(n))| == if |Decimal(n)| < 4 then 4 else |Decimal(n)|
    ensures forall i :: 0 <= i < |Pad4(Decimal(n))| ==> IsDigit(Pad4(Decimal(n))[i])
  {
    ValueOfDecimal(n);
    var s := Decimal(n);
    if |s| < 4 {
      var zeros := "0000"[..4 - |s|];
      ValueOfZeros(zeros, s);
    }
  }

  lemma DecimalLength(n: nat)
    ensures |Decimal(n)| <= 4 <==> n <= 9999
  {
    if n >= 10 {
      var a := n / 10;
      assert |Decimal(n)| == |Decimal(a)| + 1;
      if a >= 10 {
        var b := a / 10;
        assert |Decimal(a)| == |Decimal(b)| + 1;
        if b >= 10 {
          var c := b / 10;
          assert |Decimal(b)| == |Decimal(c)| + 1;
          assert |Decimal(c)| == 1 <==> c < 10;
        }
      }
    }
  }

  /** Different sequence numbers give different ids. */
  lemma ReviewIdInjective(token: string, m: nat, n: nat)
    requires ReviewId(token, m) == ReviewId(token, n)
    ensures m == n
  {
    ValueOfPadded(m);
    ValueOfPadded(n);
    var prefix := IdPrefix(token);
    assert ReviewId(token, m)[|prefix|..] == Pad4(Decimal(m));
    assert ReviewId(token, n)[|prefix|..] == Pad4(Decimal(n));
  }

  /** Stripping recognises exactly the ids of the first 9999 sequence numbers. */
  lemma RecognisedExactlyToFourDigits(token: string, n: nat)
    ensures IsReviewId(token, ReviewId(token, n)) <==> n <= 9999
  {
    ValueOfPadded(n);
    DecimalLength(n);
    var prefix, digits, id := IdPrefix(token), Pad4(Decimal(n)), ReviewId(token, n);
    assert id[..|prefix|] == prefix;
    forall i | |prefix| <= i < |id| ensures IsDigit(id[i]) {
      assert id[i] == digits[i - |prefix|];
    }
  }

  /** Every review id fits the pattern of ids. */
  lemma ReviewIdIsEntityId(publicationGraphId: string, n: nat)
    requires IsPublicationId(publicationGraphId)
    ensures IsEntityId(ReviewId(TokenOf(publicationGraphId), n))
  {
    ValueOfPadded(n);
    var token, digits := TokenOf(publicationGraphId), Pad4(Decimal(n));
    var id := ReviewId(token, n);
    assert id == "prov:review:" + token + ":" + digits && |token| == 16;
    forall i | 0 <= i < |id| ensures IsIdStart(id[i]) || id[i] in "._:-" {
      if 12 <= i < 28 {
        assert id[i] == token[i - 12] == publicationGraphId[|GRAPH_PREFIX| + i - 12];
        assert IsHexDigit(id[i]);
      } else if i > 28 {
        assert id[i] == digits[i - 29];
      }
    }
  }

  // ---------------------------------------------------------------- allocation

  /** The used ids that lie beyond a sequence number. */
  ghost function Beyond(used: set<string>, token: string, sequence: nat): set<string> {
    set id | id in used && exists n: nat :: n > sequence && id == ReviewId(token, n)
  }

  lemma BeyondShrinks(used: set<string>, token: string, sequence: nat)
    requires ReviewId(token, sequence + 1) in used
    ensures Beyond(used, token, sequence + 1) < Beyond(used, token, sequence)
  {
    var id := ReviewId(token, sequence + 1);
    assert id in Beyond(used, token, sequence);
    if id in Beyond(used, token, sequence + 1) {
      var n: nat :| n > sequence + 1 && id == ReviewId(token, n);
      ReviewIdInjective(token, n, sequence + 1);
    }
    assert Beyond(used, token, sequence + 1) <= Beyond(used, token, sequence);
  }

  /** The next sequence number whose id is free. */
  function NextFree(used: set<string>, token: string, sequence: nat): (n: nat)
    ensures n > sequence && ReviewId(token, n) !in used
    decreases Beyond(used, token, sequence)
  {
    var candidate := ReviewId(token, sequence + 1);
    if candidate in used then
      BeyondShrinks(used, token, sequence);
      NextFree(used, token, sequence + 1)
    else sequence + 1
  }

  lemma {:induction false} NextFreeSkipsUsed(used: set<string>, token: string, sequence: nat, m: nat)
    requires sequence < m < NextFree(used, token, sequence)
    ensures ReviewId(token, m) in used
    decreases Beyond(used, token, sequence)
  {
    if ReviewId(token, sequence + 1) in used {
      BeyondShrinks(used, token, sequence);
      if m > sequence + 1 {
        NextFreeSkipsUsed(used, token, sequence + 1, m);
      }
    }
  }
}
