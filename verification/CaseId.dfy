/** Case identities: the UUID of version 7 derived from an event, and the two printed forms of a Case id. */
module CaseId {
  import opened Results
  import opened Texts
  import opened Binary64
  import J = Json

  const MUNICIPAL_CASE_ID_PREFIX := "urn:stadtstack:case:municipality:"
  const SYNTHETIC_CASE_ID_PREFIX := "urn:stadtstack:synthetic-case:municipality:"
  const LAST_UUID_TIME: nat := 0xFFFF_FFFF_FFFF

  predicate IsHex(c: char) {
    '0' <= c <= '9' || 'a' <= c <= 'f'
  }

  predicate AllHex(s: string) {
    forall i :: 0 <= i < |s| ==> IsHex(s[i])
  }

  predicate IsAlphanumeric(c: char) {
    'a' <= c <= 'z' || '0' <= c <= '9'
  }

  /** `MUNICIPALITY_ID`. */
  predicate IsMunicipality(s: string) {
    && 1 <= |s| <= 63 && IsAlphanumeric(s[0]) && IsAlphanumeric(s[|s| - 1])
    && forall i :: 0 <= i < |s| ==> IsAlphanumeric(s[i]) || s[i] == '-'
  }

  predicate IsDash(i: int) {
    i == 8 || i == 13 || i == 18 || i == 23
  }

  /** `UUID_V7`: version 7 in the third group, variant 10 in the fourth. */
  predicate IsUuidV7(s: string) {
    && |s| == 36 && s[14] == '7' && (s[19] == '8' || s[19] == '9' || s[19] == 'a' || s[19] == 'b')
    && forall i :: 0 <= i < 36 ==> if IsDash(i) then s[i] == '-' else IsHex(s[i])
  }

  // Printed Case ids.

  datatype Identity = Identity(municipalityId: string, uuidV7: string, caseId: string)

  function Canonical(prefix: string, municipalityId: string, uuidV7: string): Option<string> {
    if !IsMunicipality(municipalityId) || !IsUuidV7(uuidV7) then None
    else Some(prefix + municipalityId + ":" + uuidV7)
  }

  /** The match of the anchored pattern: the prefix, a municipality, a colon and a UUID. */
  function ParseId(prefix: string, s: string): Option<Identity> {
    if !(prefix <= s) || |s| < |prefix| + 38 then None
    else
      var m, u := s[|prefix|..|s| - 37], s[|s| - 36..];
      if s[|s| - 37] == ':' && IsMunicipality(m) && IsUuidV7(u) then Some(Identity(m, u, s)) else None
  }

  function CanonicalMunicipalCaseId(municipalityId: string, uuidV7: string): Option<string> {
    Canonical(MUNICIPAL_CASE_ID_PREFIX, municipalityId, uuidV7)
  }

  function ParseMunicipalCaseId(s: string): Option<Identity> {
    ParseId(MUNICIPAL_CASE_ID_PREFIX, s)
  }

  function CanonicalSyntheticCaseId(municipalityId: string, uuidV7: string): Option<string> {
    Canonical(SYNTHETIC_CASE_ID_PREFIX, municipalityId, uuidV7)
  }

  function ParseSyntheticCaseId(s: string): Option<Identity> {
    ParseId(SYNTHETIC_CASE_ID_PREFIX, s)
  }

  /** Printer and parser are inverse to each other, for either prefix. */
  lemma PrintAndParse(prefix: string, m: string, u: string, s: string)
    ensures Canonical(prefix, m, u) == Some(s) <==> ParseId(prefix, s) == Some(Identity(m, u, s))
  {
    var t := prefix + m + ":" + u;
    if IsMunicipality(m) && IsUuidV7(u) {
      assert t[|prefix|..|t| - 37] == m && t[|t| - 36..] == u && t[|t| - 37] == ':';
    }
    if ParseId(prefix, s) == Some(Identity(m, u, s)) {
      assert s[..|prefix|] == prefix && [s[|s| - 37]] == ":";
      assert s == s[..|prefix|] + s[|prefix|..|s| - 37] + [s[|s| - 37]] + s[|s| - 36..];
      assert s == prefix + m + ":" + u;
    }
  }

  /** No text is both a municipal and a synthetic Case id. */
  lemma IdsDisjoint(s: string)
    ensures ParseMunicipalCaseId(s).None? || ParseSyntheticCaseId(s).None?
  {
    assert MUNICIPAL_CASE_ID_PREFIX[15] == 'c' && SYNTHETIC_CASE_ID_PREFIX[15] == 's';
  }

  // The derived UUID.

  /** `toString(16)`. */
  function Hex(n: nat): (s: string)
    ensures AllHex(s) && s != []
  {
    if n < 16 then [J.Digit(n)] else Hex(n / 16) + [J.Digit(n % 16)]
  }

  /** `padStart(width, "0")`. */
  function PadStart(s: string, width: nat): (r: string)
    ensures AllHex(s) ==> AllHex(r)
    ensures |r| == if |s| < width then width else |s|
    decreases width - |s|
  {
    if |s| >= width then s else PadStart(['0'] + s, width)
  }

  function DigitOf(c: char): nat
    requires IsHex(c)
  {
    if c <= '9' then c as int - '0' as int else c as int - 'a' as int + 10
  }

  function HexNumber(s: string): nat
    requires AllHex(s)
  {
    if s == [] then 0 else 16 * HexNumber(s[..|s| - 1]) + DigitOf(s[|s| - 1])
  }

  /** `deriveCaseUuidV7`; `entropy` is the SHA-256 of the event id in hexadecimal. */
  function DeriveCaseUuidV7(createdAt: int, entropy: string): Result<string>
    requires |entropy| == 64 && AllHex(entropy)
  {
    if !(createdAt <= MAX_SAFE_INTEGER && -createdAt <= MAX_SAFE_INTEGER) || createdAt < 0 then
      Err(TopicCaseTimestampInvalid)
    else
      var timestampMs := Round(createdAt * 1000);
      if timestampMs > MAX_SAFE_INTEGER || timestampMs > LAST_UUID_TIME then Err(TopicCaseTimestampInvalid)
      else
        var time := PadStart(Hex(timestampMs), 12);
        assert |time| >= 12;
        var variant := J.Digit(DigitOf(entropy[3]) % 4 + 8);
        Ok(time[..8] + "-" + time[8..] + "-7" + entropy[..3] + "-" + [variant] + entropy[4..7] + "-" + entropy[7..19])
  }

  /** The 48 bits of the time. */
  function UuidTime(uuid: string): nat
    requires IsUuidV7(uuid)
  {
    HexNumber(uuid[..8] + uuid[9..13])
  }

  lemma {:induction false} HexNumberBack(n: nat)
    ensures HexNumber(Hex(n)) == n
  {
    if n >= 16 {
      HexNumberBack(n / 16);
      assert Hex(n)[..|Hex(n)| - 1] == Hex(n / 16);
    } else {
      assert Hex(n)[..0] == [];
    }
  }

  function Power16(k: nat): nat {
    if k == 0 then 1 else 16 * Power16(k - 1)
  }

  lemma {:induction false} HexLength(n: nat, k: nat)
    requires k > 0 && n < Power16(k)
    ensures |Hex(n)| <= k
  {
    if n >= 16 {
      HexLength(n / 16, k - 1);
    }
  }

  lemma {:induction false} LeadingZero(s: string)
    requires AllHex(s)
    ensures HexNumber(['0'] + s) == HexNumber(s)
  {
    if s != [] {
      LeadingZero(s[..|s| - 1]);
      assert (['0'] + s)[..|s|] == ['0'] + s[..|s| - 1];
    }
  }

  lemma {:induction false} PaddingKeepsNumber(s: string, width: nat)
    requires AllHex(s)
    ensures HexNumber(PadStart(s, width)) == HexNumber(s)
    decreases width - |s|
  {
    if |s| < width {
      LeadingZero(s);
      PaddingKeepsNumber(['0'] + s, width);
    }
  }

  /** The padded time of a derived UUID. */
  function TimeText(timestampMs: nat): string {
    PadStart(Hex(timestampMs), 12)
  }

  lemma TimeTextBack(t: nat)
    requires t <= LAST_UUID_TIME
    ensures |TimeText(t)| == 12 && AllHex(TimeText(t)) && HexNumber(TimeText(t)) == t
  {
    assert Power16(12) == LAST_UUID_TIME + 1 by {
      assert Power16(4) == 0x1_0000;
      assert Power16(8) == 0x1_0000_0000;
    }
    HexLength(t, 12);
    HexNumberBack(t);
    PaddingKeepsNumber(Hex(t), 12);
  }

  /**
   A UUID is derived exactly for the times that 48 bits hold; it is of version 7 and variant 10 and holds the
   time.
   */
  lemma DerivedUuid(createdAt: int, entropy: string)
    requires |entropy| == 64 && AllHex(entropy)
    ensures DeriveCaseUuidV7(createdAt, entropy).Ok? <==> 0 <= createdAt && createdAt * 1000 <= LAST_UUID_TIME
    ensures var r := DeriveCaseUuidV7(createdAt, entropy);
            r.Ok? ==> IsUuidV7(r.value) && UuidTime(r.value) == createdAt * 1000
                      && r.value[..8] + r.value[9..13] == TimeText(createdAt * 1000)
  {
    hide PadStart, Hex, HexNumber;
    if createdAt >= 0 {
      RoundAroundTwo53(createdAt * 1000);
    }
    if 0 <= createdAt && createdAt * 1000 <= LAST_UUID_TIME {
      var time := TimeText(createdAt * 1000);
      TimeTextBack(createdAt * 1000);
      var u := DeriveCaseUuidV7(createdAt, entropy).value;
      assert u[..8] == time[..8] && u[9..13] == time[8..];
      assert time[..8] + time[8..] == time;
    }
  }

  /** The groups of a derived UUID: the time, the version, and 74 bits of the entropy. */
  lemma UuidGroups(createdAt: int, entropy: string)
    requires |entropy| == 64 && AllHex(entropy) && DeriveCaseUuidV7(createdAt, entropy).Ok?
    ensures var u := DeriveCaseUuidV7(createdAt, entropy).value;
            && |u| == 36 && 0 <= createdAt && createdAt * 1000 <= LAST_UUID_TIME
            && u[..8] + u[9..13] == TimeText(createdAt * 1000)
            && u[14..18] == "7" + entropy[..3]
            && IsHex(u[19]) && DigitOf(u[19]) == 8 + DigitOf(entropy[3]) % 4
            && u[20..23] == entropy[4..7] && u[24..] == entropy[7..19]
            && u[8] == u[13] == u[18] == u[23] == '-'
  {
    hide PadStart, Hex, HexNumber;
    DerivedUuid(createdAt, entropy);
    TimeTextBack(createdAt * 1000);
  }

  /** Two events have one UUID exactly if they have one time and agree in these 74 bits. */
  lemma SameUuid(first: int, e: string, second: int, f: string)
    requires |e| == |f| == 64 && AllHex(e) && AllHex(f)
    requires DeriveCaseUuidV7(first, e).Ok? && DeriveCaseUuidV7(second, f).Ok?
    ensures DeriveCaseUuidV7(first, e) == DeriveCaseUuidV7(second, f) <==>
            && first == second && e[..3] == f[..3] && DigitOf(e[3]) % 4 == DigitOf(f[3]) % 4 && e[4..19] == f[4..19]
  {
    hide PadStart, Hex, HexNumber, TimeText, DeriveCaseUuidV7;
    var u, v := DeriveCaseUuidV7(first, e).value, DeriveCaseUuidV7(second, f).value;
    UuidGroups(first, e);
    UuidGroups(second, f);
    assert e[4..19] == e[4..7] + e[7..19] && f[4..19] == f[4..7] + f[7..19];
    if u == v {
      TimesBack(first, second);
      assert ("7" + e[..3])[1..] == e[..3] && ("7" + f[..3])[1..] == f[..3];
    }
    if first == second && e[..3] == f[..3] && DigitOf(e[3]) % 4 == DigitOf(f[3]) % 4 && e[4..19] == f[4..19] {
      assert e[4..19][..3] == e[4..7] && f[4..19][..3] == f[4..7];
      assert e[4..19][3..] == e[7..19] && f[4..19][3..] == f[7..19];
      SameDigit(u[19], v[19]);
      GroupsFix(u, v);
    }
  }

  lemma SameDigit(c: char, d: char)
    requires IsHex(c) && IsHex(d) && DigitOf(c) == DigitOf(d)
    ensures c == d
  {
  }

  lemma GroupsFix(u: string, v: string)
    requires |u| == |v| == 36 && u[..8] + u[9..13] == v[..8] + v[9..13] && u[14..18] == v[14..18] && u[19] == v[19]
    requires u[20..23] == v[20..23] && u[24..] == v[24..]
    requires u[8] == u[13] == u[18] == u[23] == v[8] == v[13] == v[18] == v[23]
    ensures u == v
  {
    assert (u[..8] + u[9..13])[..8] == u[..8] && (v[..8] + v[9..13])[..8] == v[..8];
    assert (u[..8] + u[9..13])[8..] == u[9..13] && (v[..8] + v[9..13])[8..] == v[9..13];
    assert u == u[..8] + [u[8]] + u[9..13] + [u[13]] + u[14..18] + [u[18]] + [u[19]] + u[20..23] + [u[23]] + u[24..];
    assert v == v[..8] + [v[8]] + v[9..13] + [v[13]] + v[14..18] + [v[18]] + [v[19]] + v[20..23] + [v[23]] + v[24..];
  }

  lemma TimesBack(first: int, second: int)
    requires first >= 0 && second >= 0 && first * 1000 <= LAST_UUID_TIME && second * 1000 <= LAST_UUID_TIME
    requires TimeText(first * 1000) == TimeText(second * 1000)
    ensures first == second
  {
    TimeTextBack(first * 1000);
    TimeTextBack(second * 1000);
  }

  lemma {:induction false} LessExtends(a: string, b: string, x: string, y: string)
    requires Less(a, b) && |a| == |b|
    ensures Less(a + x, b + y)
  {
    assert (a + x)[1..] == a[1..] + x && (b + y)[1..] == b[1..] + y;
    if a[0] == b[0] {
      LessExtends(a[1..], b[1..], x, y);
    }
  }

  lemma {:induction false} LessAfterPrefix(p: string, x: string, y: string)
    requires Less(x, y)
    ensures Less(p + x, p + y)
  {
    if p == [] {
      assert p + x == x && p + y == y;
    } else {
      assert (p + x)[1..] == p[1..] + x && (p + y)[1..] == p[1..] + y;
      LessAfterPrefix(p[1..], x, y);
    }
  }

  /** Texts of one length in hexadecimal are ordered like their numbers. */
  lemma {:induction false} HexOrder(a: string, b: string)
    requires AllHex(a) && AllHex(b) && |a| == |b| && HexNumber(a) < HexNumber(b)
    ensures Less(a, b)
  {
    var n := |a| - 1;
    var x, y := a[..n], b[..n];
    assert a == x + [a[n]] && b == y + [b[n]];
    if HexNumber(x) < HexNumber(y) {
      HexOrder(x, y);
      LessExtends(x, y, [a[n]], [b[n]]);
    } else {
      if HexNumber(x) > HexNumber(y) {
        assert false;
      }
      HexSame(x, y);
      LessAfterPrefix(x, [a[n]], [b[n]]);
    }
  }

  lemma LastHexDigit(c: char, d: char, x: nat, y: nat)
    requires IsHex(c) && IsHex(d) && 16 * x + DigitOf(c) == 16 * y + DigitOf(d)
    ensures x == y && c == d
  {
  }

  lemma {:induction false} HexSame(a: string, b: string)
    requires AllHex(a) && AllHex(b) && |a| == |b| && HexNumber(a) == HexNumber(b)
    ensures a == b
  {
    if a != [] {
      var n := |a| - 1;
      assert IsHex(a[n]) && IsHex(b[n]);
      LastHexDigit(a[n], b[n], HexNumber(a[..n]), HexNumber(b[..n]));
      HexSame(a[..n], b[..n]);
      assert a == a[..n] + [a[n]] && b == b[..n] + [b[n]];
    }
  }

  /** Later events have UUIDs that sort later as texts, whatever their entropy. */
  lemma LaterSortsLater(first: int, second: int, e: string, f: string)
    requires |e| == |f| == 64 && AllHex(e) && AllHex(f) && first < second
    requires DeriveCaseUuidV7(first, e).Ok? && DeriveCaseUuidV7(second, f).Ok?
    ensures Less(DeriveCaseUuidV7(first, e).value, DeriveCaseUuidV7(second, f).value)
  {
    hide DeriveCaseUuidV7, TimeText, HexNumber;
    DerivedUuid(first, e);
    DerivedUuid(second, f);
    var u, v := DeriveCaseUuidV7(first, e).value, DeriveCaseUuidV7(second, f).value;
    TimeTextBack(first * 1000);
    TimeTextBack(second * 1000);
    HexOrder(TimeText(first * 1000), TimeText(second * 1000));
    DashedOrder(u, v);
  }

  /** The dash between the two parts of the time does not change the order. */
  lemma DashedOrder(u: string, v: string)
    requires IsUuidV7(u) && IsUuidV7(v) && Less(u[..8] + u[9..13], v[..8] + v[9..13])
    ensures Less(u, v)
  {
    assert u == u[..8] + (['-'] + (u[9..13] + u[13..])) && v == v[..8] + (['-'] + (v[9..13] + v[13..]));
    if u[..8] == v[..8] {
      LessWithoutPrefix(u[..8], u[9..13], v[9..13]);
      LessExtends(u[9..13], v[9..13], u[13..], v[13..]);
      LessAfterPrefix(['-'], u[9..13] + u[13..], v[9..13] + v[13..]);
      LessAfterPrefix(u[..8], ['-'] + (u[9..13] + u[13..]), ['-'] + (v[9..13] + v[13..]));
    } else {
      LessTotal(u[..8], v[..8]);
      if Less(v[..8], u[..8]) {
        LessExtends(v[..8], u[..8], v[9..13], u[9..13]);
        LessAsymmetric(u[..8] + u[9..13], v[..8] + v[9..13]);
      }
      LessExtends(u[..8], v[..8], u[8..], v[8..]);
      assert u[..8] + u[8..] == u && v[..8] + v[8..] == v;
    }
  }

  lemma {:induction false} LessWithoutPrefix(p: string, x: string, y: string)
    requires Less(p + x, p + y)
    ensures Less(x, y)
  {
    if p == [] {
      assert p + x == x && p + y == y;
    } else {
      assert (p + x)[1..] == p[1..] + x && (p + y)[1..] == p[1..] + y;
      LessWithoutPrefix(p[1..], x, y);
    }
  }
}
