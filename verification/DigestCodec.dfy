/** SHA-256 digests in hex and base64 (convex/storageIntegrity.ts, and the decoding half of
    convex/caseStorageReconciler.ts; sections 4 and 5 of RFC 4648).

    Shifts and masks of the source act on disjoint bit fields and are written as multiplications and
    divisions by powers of two. */
module DigestCodec {
  import opened Outcomes

  // ---------------------------------------------------------------- alphabets

  /** `BASE64_ALPHABET.charAt(v)`: upper case, lower case, digits, then `+` and `/`. */
  function Sextet(v: int): char
    requires 0 <= v < 64
  {
    if v < 26 then 'A' + v as char
    else if v < 52 then 'a' + (v - 26) as char
    else if v < 62 then '0' + (v - 52) as char
    else if v == 62 then '+' else '/'
  }

  /** `BASE64_ALPHABET.indexOf(c)`, or -1. */
  function IndexOf(c: char): int {
    if 'A' <= c <= 'Z' then c as int - 'A' as int
    else if 'a' <= c <= 'z' then c as int - 'a' as int + 26
    else if '0' <= c <= '9' then c as int - '0' as int + 52
    else if c == '+' then 62
    else if c == '/' then 63
    else -1
  }

  lemma AlphabetIsIndexed(v: int)
    requires 0 <= v < 64
    ensures IndexOf(Sextet(v)) == v && Sextet(v) != '='
  {
  }

  predicate IsLowerHex(c: char) {
    '0' <= c <= '9' || 'a' <= c <= 'f'
  }

  predicate IsHexAnyCase(c: char) {
    IsLowerHex(c) || 'A' <= c <= 'F'
  }

  /** `/^[a-f0-9]{64}$/` and its case-insensitive form. */
  predicate IsHex64(s: string) {
    |s| == 64 && forall i :: 0 <= i < 64 ==> IsLowerHex(s[i])
  }

  predicate IsHex64AnyCase(s: string) {
    |s| == 64 && forall i :: 0 <= i < 64 ==> IsHexAnyCase(s[i])
  }

  function LowerChar(c: char): char {
    if 'A' <= c <= 'Z' then 'a' + (c as int - 'A' as int) as char else c
  }

  function ToLower(s: string): string {
    seq(|s|, i requires 0 <= i < |s| => LowerChar(s[i]))
  }

  function HexValue(c: char): int
    requires IsLowerHex(c)
  {
    if '0' <= c <= '9' then c as int - '0' as int else c as int - 'a' as int + 10
  }

  function HexDigit(v: int): char
    requires 0 <= v < 16
  {
    if v < 10 then '0' + v as char else 'a' + (v - 10) as char
  }

  type Byte = b: int | 0 <= b < 256

  // ---------------------------------------------------------------- hex

  function HexToBytes(hex: string): (bytes: seq<Byte>)
    requires |hex| % 2 == 0 && forall i :: 0 <= i < |hex| ==> IsLowerHex(hex[i])
    ensures |bytes| == |hex| / 2
  {
    if hex == "" then [] else [16 * HexValue(hex[0]) + HexValue(hex[1])] + HexToBytes(hex[2..])
  }

  function BytesToHex(bytes: seq<Byte>): (hex: string)
    ensures |hex| == 2 * |bytes| && forall i :: 0 <= i < |hex| ==> IsLowerHex(hex[i])
  {
    if bytes == [] then "" else [HexDigit(bytes[0] / 16), HexDigit(bytes[0] % 16)] + BytesToHex(bytes[1..])
  }

  lemma HexPair(c: char, d: char)
    requires IsLowerHex(c) && IsLowerHex(d)
    ensures var b := 16 * HexValue(c) + HexValue(d);
            0 <= b < 256 && HexDigit(b / 16) == c && HexDigit(b % 16) == d
  {
    var b := 16 * HexValue(c) + HexValue(d);
    assert b / 16 == HexValue(c) && b % 16 == HexValue(d);
  }

  lemma {:induction false} HexRoundTrip(hex: string)
    requires |hex| % 2 == 0 && forall i :: 0 <= i < |hex| ==> IsLowerHex(hex[i])
    ensures BytesToHex(HexToBytes(hex)) == hex
  {
    if hex != "" {
      HexRoundTrip(hex[2..]);
      HexPair(hex[0], hex[1]);
      assert HexToBytes(hex)[1..] == HexToBytes(hex[2..]);
      assert hex == [hex[0], hex[1]] + hex[2..];
    }
  }

  lemma {:induction false} BytesRoundTrip(bytes: seq<Byte>)
    ensures HexToBytes(BytesToHex(bytes)) == bytes
  {
    if bytes != [] {
      BytesRoundTrip(bytes[1..]);
      var hex := BytesToHex(bytes);
      assert hex[2..] == BytesToHex(bytes[1..]);
      assert bytes == [bytes[0]] + bytes[1..];
    }
  }

  // ---------------------------------------------------------------- base64

  function Group(first: Byte, second: Byte, third: Byte): int {
    65536 * first + 256 * second + third
  }

  /** Four characters, the unit of base64. */
  type Quad = s: string | |s| == 4 witness "AAAA"

  /** The characters of one group of three bytes. */
  function EncodeGroup(first: Byte, second: Byte, third: Byte): Quad {
    var combined := Group(first, second, third);
    [Sextet(combined / 262144 % 64), Sextet(combined / 4096 % 64), Sextet(combined / 64 % 64), Sextet(combined % 64)]
  }

  /** Groups of three bytes through `group`, with `=` for the bytes a last short group lacks. */
  function EncodeBlocks(group: (Byte, Byte, Byte) -> Quad, bytes: seq<Byte>): string {
    if bytes == [] then ""
    else if |bytes| == 1 then group(bytes[0], 0, 0)[..2] + "=="
    else if |bytes| == 2 then group(bytes[0], bytes[1], 0)[..3] + "="
    else group(bytes[0], bytes[1], bytes[2]) + EncodeBlocks(group, bytes[3..])
  }

  /** Base64 with padding. */
  function Encode(bytes: seq<Byte>): string {
    EncodeBlocks(EncodeGroup, bytes)
  }

  /** One step of the decoder: the bytes of four characters, if all are in the alphabet. */
  function DecodeGroup(s: Quad): Option<seq<Byte>> {
    DecodeFields(IndexOf(s[0]), IndexOf(s[1]), IndexOf(s[2]), if s[3] == '=' then 0 else IndexOf(s[3]), s[3] == '=')
  }

  function DecodeFields(first: int, second: int, third: int, fourth: int, padded: bool): Option<seq<Byte>> {
    if first < 0 || second < 0 || third < 0 || fourth < 0 then None
    else
      var combined := 262144 * first + 4096 * second + 64 * third + fourth;
      if padded then Some([combined / 65536 % 256, combined / 256 % 256])
      else Some([combined / 65536 % 256, combined / 256 % 256, combined % 256])
  }

  function DecodeBlocks(step: Quad -> Option<seq<Byte>>, s: string): Option<seq<Byte>>
    requires |s| % 4 == 0
  {
    if s == "" then Some([])
    else
      var first, rest := step(s[..4]), DecodeBlocks(step, s[4..]);
      if first.None? || rest.None? then None else Some(first.value + rest.value)
  }

  function DecodeGroups(s: string): Option<seq<Byte>>
    requires |s| % 4 == 0
  {
    DecodeBlocks(DecodeGroup, s)
  }

  function ReplaceChar(s: string, from: char, to: char): string {
    seq(|s|, i requires 0 <= i < |s| => if s[i] == from then to else s[i])
  }

  /** Section 5 of RFC 4648: the URL alphabet, both ways. */
  function FromUrl(s: string): string {
    ReplaceChar(ReplaceChar(s, '-', '+'), '_', '/')
  }

  function ToUrl(s: string): string {
    ReplaceChar(ReplaceChar(s, '+', '-'), '/', '_')
  }

  /** `s.replace(/=+$/, "")`. */
  function Unpad(s: string): string {
    if s != "" && s[|s| - 1] == '=' then Unpad(s[..|s| - 1]) else s
  }

  predicate IsPaddedDigest(s: string) {
    |s| == 44 && s[43] == '=' && forall i :: 0 <= i < 43 ==> IndexOf(s[i]) >= 0
  }

  function Padded(value: string): string {
    if |FromUrl(value)| == 43 then FromUrl(value) + "=" else FromUrl(value)
  }

  function DecodeBase64Sha256(value: string): Option<seq<Byte>> {
    var padded := Padded(value);
    if !IsPaddedDigest(padded) then None
    else
      var bytes := DecodeGroups(padded);
      if bytes.None? || |bytes.value| != 32 then None else bytes
  }

  function Sha256HexToBase64(hex: string): string
    requires IsHex64(hex)
  {
    Encode(HexToBytes(hex))
  }

  /** Normalises a stored digest to lowercase hex. */
  function StoredSha256ToHex(value: string): Option<string> {
    if IsHex64AnyCase(value) then Some(ToLower(value))
    else
      var bytes := DecodeBase64Sha256(value);
      if bytes.None? then None
      else
        var hex := BytesToHex(bytes.value);
        var canonical := Encode(bytes.value);
        if value == canonical || value == Unpad(canonical) || value == ToUrl(Unpad(canonical)) then Some(hex) else None
  }

  predicate StoredSha256Matches(stored: string, expectedHex: string) {
    && IsHex64(expectedHex)
    && var base64 := Sha256HexToBase64(expectedHex);
       stored == expectedHex || stored == base64 || stored == Unpad(ToUrl(base64))
  }

  // ---------------------------------------------------------------- base64 round trip

  /** The four six-bit fields of three bytes, and the bytes back. */
  lemma Fields(first: Byte, second: Byte, third: Byte)
    ensures var n := Group(first, second, third);
            && n / 262144 % 64 == first / 4
            && n / 4096 % 64 == first % 4 * 16 + second / 16
            && n / 64 % 64 == second % 16 * 4 + third / 64
            && n % 64 == third % 64
            && n / 65536 % 256 == first && n / 256 % 256 == second && n % 256 == third
            && 262144 * (first / 4) + 4096 * (first % 4 * 16 + second / 16) + 64 * (second % 16 * 4 + third / 64)
               + third % 64 == n
  {
    Quotients(first, second, third);
    Remainders(first, second, third);
  }

  lemma Quotients(first: Byte, second: Byte, third: Byte)
    ensures var n := Group(first, second, third);
            && n / 262144 == first / 4
            && n / 4096 == 16 * first + second / 16
            && n / 64 == 1024 * first + 4 * second + third / 64
            && n / 65536 == first && n / 256 == 256 * first + second
  {
  }

  /** The six-bit and eight-bit ends of the quotients. */
  lemma Remainders(first: Byte, second: Byte, third: Byte)
    ensures first / 4 % 64 == first / 4
    ensures (16 * first + second / 16) % 64 == first % 4 * 16 + second / 16
    ensures (1024 * first + 4 * second + third / 64) % 64 == second % 16 * 4 + third / 64
    ensures first % 256 == first && (256 * first + second) % 256 == second
    ensures Group(first, second, third) % 64 == third % 64 && Group(first, second, third) % 256 == third
  {
    Modulo64(16 * first + second / 16, first / 4, first % 4 * 16 + second / 16);
    Modulo64(1024 * first + 4 * second + third / 64, 16 * first + second / 16, second % 16 * 4 + third / 64);
    Modulo64(Group(first, second, third), 1024 * first + 4 * second + third / 64, third % 64);
    Modulo256(256 * first + second, first, second);
    Modulo256(Group(first, second, third), 256 * first + second, third);
  }

  lemma Modulo64(n: int, quotient: int, remainder: int)
    requires n == 64 * quotient + remainder && 0 <= remainder < 64
    ensures n % 64 == remainder
  {
  }

  lemma Modulo256(n: int, quotient: int, remainder: int)
    requires n == 256 * quotient + remainder && 0 <= remainder < 256
    ensures n % 256 == remainder
  {
  }

  lemma FieldsAreSextets(first: Byte, second: Byte, third: Byte)
    ensures var s := EncodeGroup(first, second, third);
            && IndexOf(s[0]) == first / 4 && s[0] != '='
            && IndexOf(s[1]) == first % 4 * 16 + second / 16 && s[1] != '='
            && IndexOf(s[2]) == second % 16 * 4 + third / 64 && s[2] != '='
            && IndexOf(s[3]) == third % 64 && s[3] != '='
  {
    Fields(first, second, third);
    AlphabetIsIndexed(first / 4);
    AlphabetIsIndexed(first % 4 * 16 + second / 16);
    AlphabetIsIndexed(second % 16 * 4 + third / 64);
    AlphabetIsIndexed(third % 64);
  }

  lemma FieldsDecode(first: Byte, second: Byte, third: Byte)
    ensures DecodeFields(first / 4, first % 4 * 16 + second / 16, second % 16 * 4 + third / 64, third % 64, false)
            == Some([first, second, third])
    ensures third == 0 ==>
              DecodeFields(first / 4, first % 4 * 16 + second / 16, second % 16 * 4, 0, true) == Some([first, second])
  {
    Fields(first, second, third);
  }

  lemma GroupRoundTrip(first: Byte, second: Byte, third: Byte)
    ensures DecodeGroup(EncodeGroup(first, second, third)) == Some([first, second, third])
  {
    FieldsAreSextets(first, second, third);
    FieldsDecode(first, second, third);
  }

  lemma TailRoundTrip(first: Byte, second: Byte)
    ensures DecodeGroup(EncodeGroup(first, second, 0)[..3] + "=") == Some([first, second])
  {
    FieldsAreSextets(first, second, 0);
    FieldsDecode(first, second, 0);
  }

  /** What a group encoder must satisfy for its blocks to decode. */
  ghost predicate Inverts(step: Quad -> Option<seq<Byte>>, group: (Byte, Byte, Byte) -> Quad) {
    forall a: Byte, b: Byte, c: Byte ::
      && step(group(a, b, c)) == Some([a, b, c])
      && (c == 0 ==> step(group(a, b, c)[..3] + "=") == Some([a, b]))
  }

  ghost predicate StaysIn(group: (Byte, Byte, Byte) -> Quad, alphabet: char -> bool) {
    forall a: Byte, b: Byte, c: Byte, i :: 0 <= i < 4 ==> alphabet(group(a, b, c)[i])
  }

  /** Alphabet characters only, up to the padding of a two-byte tail. */
  lemma {:induction false} BlocksShape(group: (Byte, Byte, Byte) -> Quad, alphabet: char -> bool, bytes: seq<Byte>)
    returns (body: string)
    requires StaysIn(group, alphabet) && |bytes| % 3 == 2
    ensures EncodeBlocks(group, bytes) == body + "=" && |body| + 1 == (|bytes| + 1) / 3 * 4
    ensures forall i :: 0 <= i < |body| ==> alphabet(body[i])
  {
    if |bytes| == 2 {
      body := group(bytes[0], bytes[1], 0)[..3];
    } else {
      var rest := BlocksShape(group, alphabet, bytes[3..]);
      body := group(bytes[0], bytes[1], bytes[2]) + rest;
    }
  }

  lemma {:induction false} BlocksDecode(
    step: Quad -> Option<seq<Byte>>, group: (Byte, Byte, Byte) -> Quad, bytes: seq<Byte>)
    requires Inverts(step, group) && |bytes| % 3 == 2
    ensures |EncodeBlocks(group, bytes)| % 4 == 0
    ensures DecodeBlocks(step, EncodeBlocks(group, bytes)) == Some(bytes)
  {
    var s := EncodeBlocks(group, bytes);
    if |bytes| == 2 {
      var head := group(bytes[0], bytes[1], 0)[..3] + "=";
      assert s == head && s[..4] == head && s[4..] == "";
      assert step(head) == Some([bytes[0], bytes[1]]) && bytes == [bytes[0], bytes[1]] + [];
    } else {
      BlocksDecode(step, group, bytes[3..]);
      var head := group(bytes[0], bytes[1], bytes[2]);
      assert s[..4] == head && s[4..] == EncodeBlocks(group, bytes[3..]);
      assert bytes == [bytes[0], bytes[1], bytes[2]] + bytes[3..];
    }
  }

  lemma CodeIsSound()
    ensures Inverts(DecodeGroup, EncodeGroup) && StaysIn(EncodeGroup, c => IndexOf(c) >= 0)
  {
    forall a: Byte, b: Byte, c: Byte
      ensures DecodeGroup(EncodeGroup(a, b, c)) == Some([a, b, c])
      ensures c == 0 ==> DecodeGroup(EncodeGroup(a, b, c)[..3] + "=") == Some([a, b])
    {
      GroupRoundTrip(a, b, c);
      TailRoundTrip(a, b);
    }
    forall a: Byte, b: Byte, c: Byte, i | 0 <= i < 4
      ensures IndexOf(EncodeGroup(a, b, c)[i]) >= 0
    {
      FieldsAreSextets(a, b, c);
    }
  }

  lemma EncodedDigest(bytes: seq<Byte>)
    requires |bytes| == 32
    ensures IsPaddedDigest(Encode(bytes)) && DecodeGroups(Encode(bytes)) == Some(bytes)
  {
    CodeIsSound();
    BlocksDecode(DecodeGroup, EncodeGroup, bytes);
    var body := BlocksShape(EncodeGroup, c => IndexOf(c) >= 0, bytes);
    ShapeIsPadded(Encode(bytes), body);
  }

  lemma ShapeIsPadded(s: string, body: string)
    requires s == body + "=" && |body| == 43 && forall i :: 0 <= i < 43 ==> IndexOf(body[i]) >= 0
    ensures IsPaddedDigest(s)
  {
    assert forall i :: 0 <= i < 43 ==> s[i] == body[i];
  }

  lemma ThreeSpellings(s: string)
    requires IsPaddedDigest(s)
    ensures Unpad(s) == s[..43] && Unpad(ToUrl(s)) == ToUrl(s[..43])
    ensures FromUrl(s) == s && FromUrl(s[..43]) == s[..43] && FromUrl(ToUrl(s[..43])) == s[..43]
  {
    var u := s[..43];
    assert IndexOf(u[42]) >= 0;
    assert Unpad(u) == u;
    assert ToUrl(s)[..43] == ToUrl(u);
    assert Unpad(ToUrl(u)) == ToUrl(u);
  }

  lemma CanonicalForms(bytes: seq<Byte>)
    requires |bytes| == 32
    ensures var s := Encode(bytes);
            && IsPaddedDigest(s) && DecodeGroups(s) == Some(bytes)
            && Unpad(s) == s[..43] && Unpad(ToUrl(s)) == ToUrl(s[..43])
            && FromUrl(s) == s && FromUrl(s[..43]) == s[..43] && FromUrl(ToUrl(s[..43])) == s[..43]
  {
    EncodedDigest(bytes);
    ThreeSpellings(Encode(bytes));
  }

  /** Each canonical form of a digest decodes to the digest. */
  lemma CanonicalFormsDecode(bytes: seq<Byte>, value: string)
    requires |bytes| == 32
    requires value == Encode(bytes) || value == Unpad(Encode(bytes)) || value == ToUrl(Unpad(Encode(bytes)))
    ensures DecodeBase64Sha256(value) == Some(bytes) && |value| != 64
  {
    CanonicalForms(bytes);
    var s := Encode(bytes);
    assert s[..43] + "=" == s;
    assert Padded(value) == s;
  }

  // ---------------------------------------------------------------- main results

  /** The decoder is exact: it yields the digest `hex` for precisely the hex spelling in any mix of cases
      and the three base64 spellings (padded, unpadded, unpadded URL), and for nothing else. */
  lemma StoredDigestDecodesExactly(value: string, hex: string)
    requires IsHex64(hex)
    ensures StoredSha256ToHex(value) == Some(hex)
            <==> || (IsHex64AnyCase(value) && ToLower(value) == hex)
                 || value == Sha256HexToBase64(hex)
                 || value == Unpad(Sha256HexToBase64(hex))
                 || value == ToUrl(Unpad(Sha256HexToBase64(hex)))
  {
    var bytes := HexToBytes(hex);
    HexRoundTrip(hex);
    CanonicalForms(bytes);
    if value == Encode(bytes) || value == Unpad(Encode(bytes)) || value == ToUrl(Unpad(Encode(bytes))) {
      CanonicalFormsDecode(bytes, value);
    }
    if StoredSha256ToHex(value) == Some(hex) && !IsHex64AnyCase(value) {
      BytesRoundTrip(DecodeBase64Sha256(value).value);
    }
  }

  /** Distinct digests have no spelling in common. */
  lemma SpellingsDetermineDigest(value: string, a: string, b: string)
    requires IsHex64(a) && IsHex64(b)
    requires StoredSha256Matches(value, a) && StoredSha256Matches(value, b)
    ensures a == b
  {
    MatchesDecodes(value, a);
    MatchesDecodes(value, b);
  }

  /** The registration check and the sweeper agree: whatever is accepted for a digest decodes to it. */
  lemma MatchesDecodes(value: string, hex: string)
    requires StoredSha256Matches(value, hex)
    ensures StoredSha256ToHex(value) == Some(hex)
  {
    StoredDigestDecodesExactly(value, hex);
    CanonicalForms(HexToBytes(hex));
    if value == hex {
      assert ToLower(value) == hex;
    }
  }

  /** The converse fails only for two families of spellings: hex with an upper-case digit, and unpadded
      base64 that still uses the standard alphabet's `+` or `/`. */
  lemma DecodesButDoesNotMatch(value: string, hex: string)
    requires IsHex64(hex) && StoredSha256ToHex(value) == Some(hex)
    ensures !StoredSha256Matches(value, hex)
            <==> (IsHex64AnyCase(value) && !IsHex64(value))
                 || (value == Unpad(Sha256HexToBase64(hex)) && ('+' in value || '/' in value))
  {
    StoredDigestDecodesExactly(value, hex);
    DigestSpellings(hex);
    UpperCaseChanges(value);
    UrlChangesStandardOnly(value);
  }

  /** The lengths of the base64 spellings, and the two ways the URL spelling is written. */
  lemma DigestSpellings(hex: string)
    requires IsHex64(hex)
    ensures var base64 := Sha256HexToBase64(hex);
            |base64| == 44 && |Unpad(base64)| == 43 && |ToUrl(Unpad(base64))| == 43
            && Unpad(ToUrl(base64)) == ToUrl(Unpad(base64)) && base64 != Unpad(base64)
  {
    CanonicalForms(HexToBytes(hex));
  }

  lemma UpperCaseChanges(value: string)
    ensures IsHex64AnyCase(value) ==> (ToLower(value) == value <==> IsHex64(value))
    ensures IsHex64(value) ==> IsHex64AnyCase(value)
    ensures IsHex64AnyCase(value) ==> |value| == 64
  {
    if IsHex64AnyCase(value) && ToLower(value) == value {
      forall i | 0 <= i < 64 ensures IsLowerHex(value[i]) {
        assert ToLower(value)[i] == value[i];
      }
    }
  }

  lemma UrlChangesStandardOnly(value: string)
    ensures ToUrl(value) == value <==> !('+' in value || '/' in value)
  {
    if ToUrl(value) == value {
      forall i | 0 <= i < |value| ensures value[i] != '+' && value[i] != '/' {
        assert ToUrl(value)[i] == value[i];
      }
    }
  }

  // ---------------------------------------------------------------- the loops

  datatype CodecError = HexInvalid

  function From(bytes: seq<Byte>, index: nat): seq<Byte> {
    if index < |bytes| then bytes[index..] else []
  }

  function ByteOr0(bytes: seq<Byte>, index: nat): Byte {
    if index < |bytes| then bytes[index] else 0
  }

  /** The four characters one round of the encoding loop appends. */
  function Round(group: (Byte, Byte, Byte) -> Quad, bytes: seq<Byte>, index: nat): string
    requires index < |bytes|
  {
    var quad := group(bytes[index], ByteOr0(bytes, index + 1), ByteOr0(bytes, index + 2));
    quad[..2] + [if index + 1 < |bytes| then quad[2] else '=', if index + 2 < |bytes| then quad[3] else '=']
  }

  lemma RoundStartsEncoding(group: (Byte, Byte, Byte) -> Quad, bytes: seq<Byte>, index: nat)
    requires index < |bytes|
    ensures EncodeBlocks(group, From(bytes, index))
            == Round(group, bytes, index) + EncodeBlocks(group, From(bytes, index + 3))
  {
    var rest := From(bytes, index);
    if |rest| >= 3 {
      assert rest[3..] == From(bytes, index + 3);
    } else {
      assert EncodeBlocks(group, From(bytes, index + 3)) == "";
    }
  }

  lemma Regroup(group: (Byte, Byte, Byte) -> Quad, bytes: seq<Byte>, index: nat, encoded: string)
    requires index < |bytes|
    ensures (encoded + Round(group, bytes, index)) + EncodeBlocks(group, From(bytes, index + 3))
            == encoded + EncodeBlocks(group, From(bytes, index))
  {
    RoundStartsEncoding(group, bytes, index);
    var round, tail := Round(group, bytes, index), EncodeBlocks(group, From(bytes, index + 3));
    assert (encoded + round) + tail == encoded + (round + tail);
  }

  /** Three bytes at a time, appending to a string. */
  method EncodeBytes(group: (Byte, Byte, Byte) -> Quad, bytes: seq<Byte>) returns (encoded: string)
    ensures encoded == EncodeBlocks(group, bytes)
  {
    encoded := "";
    var index := 0;
    while index < |bytes|
      invariant 0 <= index
      invariant encoded + EncodeBlocks(group, From(bytes, index)) == EncodeBlocks(group, bytes)
    {
      Regroup(group, bytes, index, encoded);
      encoded := AppendRound(group, bytes, index, encoded);
      index := index + 3;
    }
  }

  /** The body of the loop: one group of four characters, appended one by one. */
  method AppendRound(group: (Byte, Byte, Byte) -> Quad, bytes: seq<Byte>, index: nat, before: string)
    returns (encoded: string)
    requires index < |bytes|
    ensures encoded == before + Round(group, bytes, index)
  {
    var quad := group(bytes[index], ByteOr0(bytes, index + 1), ByteOr0(bytes, index + 2));
    encoded := before + [quad[0]];
    encoded := encoded + [quad[1]];
    encoded := encoded + [if index + 1 < |bytes| then quad[2] else '='];
    encoded := encoded + [if index + 2 < |bytes| then quad[3] else '='];
  }

  /** `sha256HexToBase64`. */
  method EncodeHex(value: string) returns (result: Result<string, CodecError>)
    ensures result == if IsHex64(value) then Ok(Sha256HexToBase64(value)) else Err(HexInvalid)
  {
    if !IsHex64(value) {
      return Err(HexInvalid);
    }
    var encoded := EncodeBytes(EncodeGroup, HexToBytes(value));
    result := Ok(encoded);
  }

  /** Four characters at a time, pushing bytes; stops at a group with a character outside the alphabet. */
  method DecodeChars(step: Quad -> Option<seq<Byte>>, padded: string) returns (result: Option<seq<Byte>>)
    requires |padded| % 4 == 0
    ensures result == DecodeBlocks(step, padded)
  {
    var bytes: seq<Byte> := [];
    var offset := 0;
    assert padded[0..] == padded;
    assert forall rest: seq<Byte> :: [] + rest == rest;
    while offset < |padded|
      invariant 0 <= offset <= |padded| && offset % 4 == 0
      invariant var rest := DecodeBlocks(step, padded[offset..]);
                DecodeBlocks(step, padded) == if rest.None? then None else Some(bytes + rest.value)
    {
      assert padded[offset..][..4] == padded[offset..offset + 4];
      assert padded[offset..][4..] == padded[offset + 4..];
      var group := step(padded[offset..offset + 4]);
      if group.None? {
        return None;
      }
      ghost var rest := DecodeBlocks(step, padded[offset + 4..]);
      assert rest.Some? ==> bytes + (group.value + rest.value) == (bytes + group.value) + rest.value;
      bytes := bytes + group.value;
      offset := offset + 4;
    }
    assert padded[offset..] == "" && bytes + [] == bytes;
    result := Some(bytes);
  }

  /** `decodeBase64Sha256`. */
  method DecodeDigest(value: string) returns (result: Option<seq<Byte>>)
    ensures result == DecodeBase64Sha256(value)
  {
    var padded := Padded(value);
    if !IsPaddedDigest(padded) {
      return None;
    }
    var bytes := DecodeChars(DecodeGroup, padded);
    result := if bytes.None? || |bytes.value| != 32 then None else bytes;
  }
}
