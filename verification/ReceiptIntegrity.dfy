/**
 What the checksum of a receipt is worth, and what receipts are at all: the closed schemas as tables, a few
 demands across fields, and a seal over everything else.
 */
module ReceiptIntegrity {
  import opened Results
  import opened Json
  import opened JsonRoundTrip
  import opened CaseReceipt
  import opened Pigeonholes
  import CaseId

  // The seal.

  /** Member `i` is the checksum of the record that the other members make up. */
  ghost predicate SealedAt(digest: Digest, v: Value, i: int) {
    && v.Object? && 0 <= i < |v.members|
    && v.members[i]
       == Member("receiptChecksum", Text("sha256:" + digest(Canonical(Object(v.members[..i] + v.members[i + 1..])))))
  }

  ghost predicate Sealed(digest: Digest, v: Value) {
    exists i :: SealedAt(digest, v, i)
  }

  /** The text that the seal is made of. */
  function SealedText(v: Value): string {
    if v.Object? then Canonical(Object(Without(v.members, "receiptChecksum"))) else ""
  }

  lemma {:induction false} WithoutOne(ms: seq<Member>, i: nat)
    requires i < |ms| && DistinctKeys(ms)
    ensures Without(ms, ms[i].key) == ms[..i] + ms[i + 1..]
  {
    if i > 0 {
      WithoutOne(ms[1..], i - 1);
      assert ms[..i] + ms[i + 1..] == [ms[0]] + (ms[1..][..i - 1] + ms[1..][i..]);
    } else {
      WithoutNone(ms[1..], ms[0].key);
    }
  }

  lemma {:induction false} WithoutNone(ms: seq<Member>, key: string)
    requires forall j :: 0 <= j < |ms| ==> ms[j].key != key
    ensures Without(ms, key) == ms
  {
    if ms != [] {
      WithoutNone(ms[1..], key);
      assert ms == [ms[0]] + ms[1..];
    }
  }

  lemma {:induction false} LookupFinds(ms: seq<Member>, key: string)
    ensures Lookup(ms, key).Some? ==> exists i :: 0 <= i < |ms| && ms[i].key == key
                                                  && Lookup(ms, key) == Some(ms[i].value)
    ensures Lookup(ms, key).None? ==> forall i :: 0 <= i < |ms| ==> ms[i].key != key
  {
    if ms != [] && ms[0].key != key {
      LookupFinds(ms[1..], key);
      if Lookup(ms, key).Some? {
        var i :| 0 <= i < |ms[1..]| && ms[1..][i].key == key && Lookup(ms, key) == Some(ms[1..][i].value);
        assert ms[i + 1] == ms[1..][i];
      } else {
        assert forall i :: 0 < i < |ms| ==> ms[i] == ms[1..][i - 1];
      }
    }
  }

  /** A record with distinct keys is sealed exactly if its checksum is that of the text of its other members. */
  lemma SealedExactly(digest: Digest, v: Value)
    requires v.Object? && DistinctKeys(v.members)
    ensures Sealed(digest, v) <==> Field(v, "receiptChecksum") == Some(Text("sha256:" + digest(SealedText(v))))
  {
    hide Canonical, Lookup, Without;
    var ms, key := v.members, "receiptChecksum";
    LookupFinds(ms, key);
    if Lookup(ms, key).Some? {
      var i :| 0 <= i < |ms| && ms[i].key == key && Lookup(ms, key) == Some(ms[i].value);
      WithoutOne(ms, i);
      assert forall j :: 0 <= j < |ms| && ms[j].key == key ==> j == i;
      if Field(v, key) == Some(Text("sha256:" + digest(SealedText(v)))) {
        assert SealedAt(digest, v, i);
      }
    }
  }

  lemma ReceiptIsSealed(digest: Digest, v: Value)
    requires IsReceipt(digest, v)
    ensures Sealed(digest, v) && v.Object? && DistinctKeys(v.members)
    ensures Field(v, "receiptChecksum") == Some(Text("sha256:" + digest(SealedText(v))))
  {
    hide SchemaOf, SchemaOk, CandidateOk, FieldsOf, CommonOk, Sealed, Canonical, Without, DistinctKeys;
    ReceiptIsPlain(digest, v);
    ChecksumIsText(digest, v);
    SealedExactly(digest, v);
  }

  lemma ChecksumIsText(digest: Digest, v: Value)
    requires IsReceipt(digest, v)
    ensures v.Object? && DistinctKeys(v.members)
    ensures Field(v, "receiptChecksum") == Some(Text("sha256:" + digest(SealedText(v))))
  {
    hide SchemaOf, SchemaOk, CandidateOk, FieldsOf, CommonOk, Canonical, Without, DistinctKeys, Lookup;
    ReceiptIsPlain(digest, v);
  }

  /** Two texts with one digest. */
  predicate Collide(digest: Digest, s: string, t: string) {
    s != t && digest(s) == digest(t)
  }

  /** Receipts with one checksum are one receipt, or the texts of their seals are a collision of the digest. */
  lemma ChecksumFixesReceipt(digest: Digest, v: Value, w: Value)
    requires IsReceipt(digest, v) && IsReceipt(digest, w)
    requires TextOf(v, "receiptChecksum") == TextOf(w, "receiptChecksum")
    ensures v == w || Collide(digest, SealedText(v), SealedText(w))
  {
    hide Canonical, Without, Lookup, IsReceipt;
    ReceiptIsSealed(digest, v);
    ReceiptIsSealed(digest, w);
    var a, b := digest(SealedText(v)), digest(SealedText(w));
    assert ("sha256:" + a)[7..] == a && ("sha256:" + b)[7..] == b;
    if SealedText(v) == SealedText(w) {
      OthersFix(digest, v, w);
    }
  }

  /**
   A receipt whose checksum was kept while something else was changed is refused, unless the texts of the
   seals are a collision of the digest.
   */
  lemma TamperedIsRefused(digest: Digest, v: Value, w: Value)
    requires IsReceipt(digest, v) && Normal(w) != v && TextOf(Normal(w), "receiptChecksum")
                                                       == TextOf(v, "receiptChecksum")
    ensures VerifyReceipt(digest, w).Refused? || Collide(digest, SealedText(v), SealedText(Normal(w)))
  {
    hide IsReceipt, VerifyReceipt, SealedText, TextOf, Normal;
    if VerifyReceipt(digest, w).Verified? {
      VerifiedFixed(digest, w);
      ChecksumFixesReceipt(digest, v, Normal(w));
    }
  }

  lemma NormalFirst(ms: seq<Member>)
    requires ms != []
    ensures NormalMembers(ms) == [Member(ms[0].key, Normal(ms[0].value))] + NormalMembers(ms[1..])
  {
    hide Normal;
  }

  lemma {:induction false} NormalMembersSplit(ms: seq<Member>, i: nat)
    requires i < |ms|
    ensures multiset(NormalMembers(ms))
         == multiset(NormalMembers(ms[..i] + ms[i + 1..])) + multiset{Member(ms[i].key, Normal(ms[i].value))}
  {
    hide Normal, NormalMembers;
    var others := ms[..i] + ms[i + 1..];
    NormalFirst(ms);
    if i == 0 {
      assert others == ms[1..];
    } else {
      NormalMembersSplit(ms[1..], i - 1);
      NormalFirst(others);
      assert others[1..] == ms[1..][..i - 1] + ms[1..][i..];
    }
  }

  lemma OthersPlain(v: Value, i: nat)
    requires v.Object? && i < |v.members| && Plain(v)
    ensures Plain(Object(v.members[..i] + v.members[i + 1..]))
  {
    var ms := v.members;
    var others := ms[..i] + ms[i + 1..];
    forall k | 0 <= k < |others| ensures others[k] == ms[if k < i then k else k + 1] {
    }
  }

  /** The member of the checksum, and the text of the others. */
  lemma SealedMember(digest: Digest, v: Value) returns (i: nat)
    requires IsReceipt(digest, v)
    ensures v.Object? && i < |v.members| && DistinctKeys(v.members)
    ensures Some(v.members[i].value) == Field(v, "receiptChecksum") && v.members[i].key == "receiptChecksum"
    ensures v.members[i].value.Text?
    ensures SealedText(v) == Canonical(Object(v.members[..i] + v.members[i + 1..]))
  {
    hide VerifyReceipt, Canonical, Without, Lookup;
    ReceiptIsSealed(digest, v);
    LookupFinds(v.members, "receiptChecksum");
    i :| 0 <= i < |v.members| && v.members[i].key == "receiptChecksum"
         && Lookup(v.members, "receiptChecksum") == Some(v.members[i].value);
    WithoutOne(v.members, i);
  }

  lemma NormalOfRest(v: Value, i: nat, w: Value, j: nat)
    requires v.Object? && w.Object? && DistinctKeys(v.members) && DistinctKeys(w.members)
    requires i < |v.members| && j < |w.members| && v.members[i] == w.members[j]
    requires Plain(v) && Plain(w)
    requires Canonical(Object(v.members[..i] + v.members[i + 1..]))
          == Canonical(Object(w.members[..j] + w.members[j + 1..]))
    ensures Normal(v) == Normal(w)
  {
    hide Canonical, Normal, NormalMembers, Plain;
    var a, b := Object(v.members[..i] + v.members[i + 1..]), Object(w.members[..j] + w.members[j + 1..]);
    OthersPlain(v, i);
    OthersPlain(w, j);
    CanonicalInjective(a, b);
    assert DistinctKeys(a.members) && DistinctKeys(b.members) by { PlainKeys(a); PlainKeys(b); }
    NormalObjects(a.members, b.members);
    NormalMembersSplit(v.members, i);
    NormalMembersSplit(w.members, j);
    NormalObjects(v.members, w.members);
  }

  lemma PlainKeys(v: Value)
    requires Plain(v) && v.Object?
    ensures DistinctKeys(v.members)
  {
  }

  /** The members beside the checksum, and the checksum, make the receipt. */
  lemma OthersFix(digest: Digest, v: Value, w: Value)
    requires IsReceipt(digest, v) && IsReceipt(digest, w)
    requires SealedText(v) == SealedText(w) && Field(v, "receiptChecksum") == Field(w, "receiptChecksum")
    ensures v == w
  {
    hide VerifyReceipt, IsReceipt, Canonical, SealedText, Field, Normal;
    var i := SealedMember(digest, v);
    var j := SealedMember(digest, w);
    ReceiptIsPlain(digest, v);
    ReceiptIsPlain(digest, w);
    NormalOfRest(v, i, w, j);
  }

  // The closed schemas.

  /** What a field may hold. */
  datatype Kind =
    | Exactly(value: Value) | Hex | Sha | Named(prefix: string) | Version | Issuer | AnyText | ThreeTexts

  predicate OfKind(w: Value, kind: Kind) {
    match kind
    case Exactly(value) => w == value
    case Hex => w.Text? && IsHex64(w.text)
    case Sha => w.Text? && "sha256:" <= w.text && IsHex64(w.text[7..])
    case Named(prefix) => w.Text? && prefix <= w.text && IsHex64(w.text[|prefix|..])
    case Version => w.Text? && IsPolicyVersion(w.text)
    case Issuer => w.Text? && IsIssuer(w.text)
    case AnyText => w.Text?
    case ThreeTexts => w.Array? && |w.items| == 3 && forall i :: 0 <= i < 3 ==> w.items[i].Text?
  }

  function CandidateName(s: Schema): string {
    match s
    case SignedV1 => "urn:stadtstack:signed-topic-suggestion:"
    case AdoptedV2 => "urn:stadtstack:citizen-topic-suggestion-adoption:"
    case SyntheticV1 => "urn:stadtstack:synthetic-citizen-adoption-tracer:"
  }

  function SchemaName(s: Schema): string {
    match s
    case SignedV1 => "public_case_binding_receipt_v1"
    case AdoptedV2 => "public_case_binding_receipt_v2"
    case SyntheticV1 => "public_synthetic_case_binding_receipt_v1"
  }

  /** The field is there and holds what it may. */
  predicate Has(v: Value, key: string, kind: Kind) {
    Field(v, key).Some? && OfKind(Field(v, key).value, kind)
  }

  predicate HasIds(s: Schema, v: Value) {
    && Has(v, "rootEventId", Hex) && Has(v, "topicId", AnyText) && Has(v, "candidateId", Named(CandidateName(s)))
    && Has(v, "candidateEventId", Hex) && Has(v, "sourceAnswerEventId", Hex) && Has(v, "caseId", AnyText)
  }

  predicate HasChain(s: Schema, v: Value) {
    && Has(v, "schemaVersion", Exactly(Text(SchemaName(s)))) && Has(v, "caseVersion", Exactly(Number(3)))
    && Has(v, "caseEventIds", ThreeTexts) && Has(v, "journalHeadChecksum", Sha) && Has(v, "admissionEventChecksum", Sha)
    && Has(v, "receiptChecksum", Sha) && Has(v, "authorityBinding", Exactly(Text("none")))
    && Has(v, "openDeskWrite", Exactly(Bool(false)))
  }

  predicate HasAdoption(v: Value, kind: string) {
    && Has(v, "candidateKind", Exactly(Text(kind))) && Has(v, "participantSuggestionEventId", Hex)
    && Has(v, "adopterPubkey", Hex) && Has(v, "adoptionAcceptanceReceiptChecksum", Hex)
    && Has(v, "sourceAnswerReceiptId", Named("urn:stadtstack:mecky-answer:"))
    && Has(v, "administrativeEndorsement", Exactly(Bool(false))) && Has(v, "bindingVote", Exactly(Bool(false)))
    && Has(v, "councilDecision", Exactly(Bool(false))) && Has(v, "treasuryEffect", Exactly(Bool(false)))
    && Has(v, "paymentEffect", Exactly(Bool(false)))
  }

  predicate HasEligibility(v: Value) {
    && Has(v, "eligibilityReceiptId", Named("urn:stadtstack:municipal-civic-eligibility-receipt:"))
    && Has(v, "eligibilityReceiptChecksum", Hex) && Has(v, "eligibilityPolicyVersion", Version)
    && Has(v, "eligibilityIssuer", Issuer)
  }

  predicate HasSynthetic(v: Value) {
    && Has(v, "testPolicyVersion", Version) && Has(v, "environment", Exactly(Text("staging")))
    && Has(v, "testOnly", Exactly(Bool(true))) && Has(v, "civicCaseCreated", Exactly(Bool(false)))
    && Has(v, "syntheticCaseCreated", Exactly(Bool(true)))
  }

  predicate HasFields(s: Schema, v: Value) {
    && HasIds(s, v) && HasChain(s, v)
    && match s
       case SignedV1 => true
       case AdoptedV2 => HasAdoption(v, "eligible_citizen_adopted_topic_suggestion_v1") && HasEligibility(v)
       case SyntheticV1 => HasAdoption(v, "synthetic_citizen_adoption_tracer_v1") && HasSynthetic(v)
  }

  function CommonNames(): seq<string> {
    ["schemaVersion", "rootEventId", "topicId", "candidateId", "candidateEventId", "sourceAnswerEventId", "caseId",
     "caseVersion", "caseEventIds", "journalHeadChecksum", "admissionEventChecksum", "receiptChecksum",
     "authorityBinding", "openDeskWrite"]
  }

  function AdoptionNames(): seq<string> {
    ["candidateKind", "participantSuggestionEventId", "adopterPubkey", "adoptionAcceptanceReceiptChecksum",
     "sourceAnswerReceiptId", "administrativeEndorsement", "bindingVote", "councilDecision", "treasuryEffect",
     "paymentEffect"]
  }

  /** All the field names of a schema. */
  function Names(s: Schema): seq<string> {
    if s == SignedV1 then CommonNames() else CommonNames() + AdoptionNames() + LastNames(s)
  }

  function LastNames(s: Schema): seq<string> {
    match s
    case SignedV1 => []
    case AdoptedV2 =>
      ["eligibilityReceiptId", "eligibilityReceiptChecksum", "eligibilityPolicyVersion", "eligibilityIssuer"]
    case SyntheticV1 => ["testPolicyVersion", "environment", "testOnly", "civicCaseCreated", "syntheticCaseCreated"]
  }

  /** The topic is about the municipality of the Case, and the events are those of its creation. */
  ghost predicate AgreesOnCase(s: Schema, v: Value) {
    var caseId := TextOf(v, "caseId");
    var id := if s == SyntheticV1 then CaseId.ParseSyntheticCaseId(caseId) else CaseId.ParseMunicipalCaseId(caseId);
    && |caseId| <= 256 && id.Some? && AboutTown(TextOf(v, "topicId"), id.value.municipalityId)
    && Field(v, "caseEventIds") == Some(Array([Text("urn:stadtstack:case-event:" + caseId + ":1"),
                                               Text("urn:stadtstack:case-event:" + caseId + ":2"),
                                               Text("urn:stadtstack:case-event:" + caseId + ":3")]))
  }

  /** The other texts that depend on each other. */
  ghost predicate AgreesOnNames(s: Schema, v: Value) {
    && TextOf(v, "admissionEventChecksum") == TextOf(v, "journalHeadChecksum")
    && (s == SignedV1 ==>
          TextOf(v, "candidateId") == "urn:stadtstack:signed-topic-suggestion:" + TextOf(v, "candidateEventId"))
    && (s == AdoptedV2 ==>
          TextOf(v, "eligibilityReceiptId")
          == "urn:stadtstack:municipal-civic-eligibility-receipt:" + TextOf(v, "eligibilityReceiptChecksum"))
  }

  /** A topic of the municipality: its name and a slug. */
  ghost predicate AboutTown(topic: string, municipalityId: string) {
    exists slug :: && topic == "urn:stadtstack:topic:municipality:" + municipalityId + ":" + slug && slug != ""
                   && |topic| <= 256
                   && forall i :: 0 <= i < |slug| ==> CaseId.IsAlphanumeric(slug[i]) || slug[i] == '-'
  }

  /** A record with the fields of its schema, each once, and no other. */
  ghost predicate OfSchema(s: Schema, v: Value) {
    && v.Object? && DistinctKeys(v.members) && (forall i :: 0 <= i < |v.members| ==> v.members[i].key in Names(s))
    && HasFields(s, v) && AgreesOnCase(s, v) && AgreesOnNames(s, v)
  }

  lemma AboutTownExactly(topic: string, municipalityId: string)
    ensures IsTopicOf(topic, municipalityId) <==> AboutTown(topic, municipalityId)
  {
    hide CaseId.IsAlphanumeric;
    var head := "urn:stadtstack:topic:municipality:" + municipalityId + ":";
    if IsTopicOf(topic, municipalityId) {
      var slug := topic[|head|..];
      assert topic == head + slug;
      assert forall i :: 0 <= i < |slug| ==> slug[i] == topic[|head| + i];
      assert AboutTown(topic, municipalityId);
    }
    if slug :| topic == head + slug && slug != "" && |topic| <= 256
               && forall i :: 0 <= i < |slug| ==> CaseId.IsAlphanumeric(slug[i]) || slug[i] == '-'
    {
      assert forall i :: |head| <= i < |topic| ==> topic[i] == slug[i - |head|];
    }
  }

  ghost predicate Differ(names: seq<string>) {
    forall i, j :: 0 <= i < j < |names| ==> names[i] != names[j]
  }

  lemma DifferTogether(xs: seq<string>, ys: seq<string>)
    requires Differ(xs) && Differ(ys) && forall x :: x in xs ==> x !in ys
    ensures Differ(xs + ys)
  {
    var all := xs + ys;
    forall i, j | 0 <= i < j < |all| ensures all[i] != all[j] {
      if i < |xs| <= j {
        assert all[i] in xs && all[j] in ys;
      }
    }
  }

  lemma CommonDiffer()
    ensures Differ(CommonNames())
  {
  }

  lemma AdoptionDiffer()
    ensures Differ(AdoptionNames()) && forall x :: x in CommonNames() ==> x !in AdoptionNames()
  {
  }

  lemma AdoptedDiffer()
    ensures Differ(LastNames(AdoptedV2)) && forall x :: x in CommonNames() ==> x !in LastNames(AdoptedV2)
  {
  }

  lemma SyntheticDiffer()
    ensures Differ(LastNames(SyntheticV1)) && forall x :: x in CommonNames() ==> x !in LastNames(SyntheticV1)
  {
  }

  lemma LastDifferFromAdoption(s: Schema)
    ensures forall x :: x in AdoptionNames() ==> x !in LastNames(s)
  {
  }

  lemma NamesDistinct(s: Schema)
    ensures Differ(Names(s))
  {
    hide CommonNames, AdoptionNames, LastNames, Differ;
    CommonDiffer();
    if s != SignedV1 {
      AdoptionDiffer();
      DifferTogether(CommonNames(), AdoptionNames());
      AdoptedDiffer();
      SyntheticDiffer();
      LastDifferFromAdoption(s);
      DifferTogether(CommonNames() + AdoptionNames(), LastNames(s));
    }
  }

  lemma SameNames(s: Schema)
    ensures Names(s) == FieldsOf(s)
  {
  }

  function KeysOf(v: Value): seq<string>
    requires v.Object?
  {
    seq(|v.members|, i requires 0 <= i < |v.members| => v.members[i].key)
  }

  lemma HasField(v: Value, key: string, kind: Kind)
    ensures Has(v, key, kind) ==> Field(v, key).Some?
  {
  }

  lemma CommonNamed(s: Schema, v: Value)
    requires HasIds(s, v) && HasChain(s, v)
    ensures forall key :: key in CommonNames() ==> Field(v, key).Some?
  {
    hide Field, OfKind, SchemaName, CandidateName;
  }

  lemma AdoptionNamed(v: Value, kind: string)
    requires HasAdoption(v, kind)
    ensures forall key :: key in AdoptionNames() ==> Field(v, key).Some?
  {
    hide Field, OfKind;
  }

  /** Every name has a field. */
  lemma AllNamed(s: Schema, v: Value)
    requires HasFields(s, v)
    ensures forall key :: key in Names(s) ==> Field(v, key).Some?
  {
    hide Field, OfKind, HasIds, HasChain, HasAdoption, CommonNames, AdoptionNames;
    CommonNamed(s, v);
    match s
    case SignedV1 =>
    case AdoptedV2 => AdoptionNamed(v, "eligible_citizen_adopted_topic_suggestion_v1");
    case SyntheticV1 => AdoptionNamed(v, "synthetic_citizen_adoption_tracer_v1");
  }

  /** Exactly the fields of the schema, each once. */
  lemma ExactExactly(s: Schema, v: Value)
    requires v.Object? && HasFields(s, v)
    ensures Exact(v, FieldsOf(s)) <==>
            DistinctKeys(v.members) && forall i :: 0 <= i < |v.members| ==> v.members[i].key in Names(s)
  {
    hide Names, FieldsOf, Lookup, HasFields;
    SameNames(s);
    if DistinctKeys(v.members) && forall i :: 0 <= i < |v.members| ==> v.members[i].key in Names(s) {
      NamesDistinct(s);
      AllNamed(s, v);
      forall key | key in Names(s) ensures key in KeysOf(v) {
        LookupFinds(v.members, key);
        var i :| 0 <= i < |v.members| && v.members[i].key == key;
        assert KeysOf(v)[i] == key;
      }
      Pigeonhole(Names(s), KeysOf(v));
      Pigeonhole(KeysOf(v), Names(s));
    }
  }

  lemma TextField(v: Value, key: string)
    ensures TextOf(v, key) != "" ==> Field(v, key) == Some(Text(TextOf(v, key)))
    ensures Field(v, key).Some? && Field(v, key).value.Text? ==> TextOf(v, key) == Field(v, key).value.text
  {
  }

  lemma SchemaText(v: Value)
    ensures SchemaOf(v).Some? ==> TextOf(v, "schemaVersion") == SchemaName(SchemaOf(v).value)
    ensures forall s :: TextOf(v, "schemaVersion") == SchemaName(s) ==> SchemaOf(v) == Some(s)
  {
  }

  lemma KindText(v: Value, key: string)
    ensures Has(v, key, Hex) <==> IsHex64(TextOf(v, key))
    ensures Has(v, key, Sha) <==> IsChecksum(TextOf(v, key))
    ensures Has(v, key, Version) <==> IsPolicyVersion(TextOf(v, key))
    ensures Has(v, key, Issuer) <==> IsIssuer(TextOf(v, key))
    ensures TextOf(v, key) != "" ==> Has(v, key, AnyText)
  {
    hide Field;
    TextField(v, key);
  }

  lemma NamedText(v: Value, key: string, prefix: string)
    ensures Has(v, key, Named(prefix)) <==> Prefixed(TextOf(v, key), prefix)
  {
    hide Field;
    TextField(v, key);
  }

  lemma ExactText(v: Value, key: string, t: string)
    requires t != ""
    ensures Has(v, key, Exactly(Text(t))) <==> TextOf(v, key) == t
  {
    hide Field;
    TextField(v, key);
  }

  lemma ExactValue(v: Value, key: string, w: Value)
    ensures Has(v, key, Exactly(w)) <==> Field(v, key) == Some(w)
  {
    hide Field;
  }

  lemma AdoptionExactly(v: Value, kind: string)
    ensures AdoptionOk(v, kind) <==> HasAdoption(v, kind)
  {
    hide Field, TextOf, Prefixed, Has, IsHex64;
    KindText(v, "participantSuggestionEventId");
    KindText(v, "adopterPubkey");
    KindText(v, "adoptionAcceptanceReceiptChecksum");
    NamedText(v, "sourceAnswerReceiptId", "urn:stadtstack:mecky-answer:");
    ExactValue(v, "candidateKind", Text(kind));
    ExactValue(v, "administrativeEndorsement", Bool(false));
    ExactValue(v, "bindingVote", Bool(false));
    ExactValue(v, "councilDecision", Bool(false));
    ExactValue(v, "treasuryEffect", Bool(false));
    ExactValue(v, "paymentEffect", Bool(false));
  }

  lemma CaseExactly(s: Schema, v: Value)
    ensures AgreesOnCase(s, v) <==>
            && |TextOf(v, "caseId")| <= 256 && IdentityOf(s, TextOf(v, "caseId")).Some?
            && IsTopicOf(TextOf(v, "topicId"), IdentityOf(s, TextOf(v, "caseId")).value.municipalityId)
            && Field(v, "caseEventIds") == Some(EventIds(TextOf(v, "caseId")))
  {
    hide Field, TextOf, IsTopicOf, AboutTown, CaseId.ParseMunicipalCaseId, CaseId.ParseSyntheticCaseId;
    var id := IdentityOf(s, TextOf(v, "caseId"));
    if id.Some? {
      AboutTownExactly(TextOf(v, "topicId"), id.value.municipalityId);
    }
    SameEventIds(TextOf(v, "caseId"));
  }

  lemma SameEventIds(caseId: string)
    ensures EventIds(caseId) == Array([Text("urn:stadtstack:case-event:" + caseId + ":1"),
                                       Text("urn:stadtstack:case-event:" + caseId + ":2"),
                                       Text("urn:stadtstack:case-event:" + caseId + ":3")])
  {
    assert "urn:stadtstack:case-event:" + caseId + ":" + "1" == "urn:stadtstack:case-event:" + caseId + ":1";
    assert "urn:stadtstack:case-event:" + caseId + ":" + "2" == "urn:stadtstack:case-event:" + caseId + ":2";
    assert "urn:stadtstack:case-event:" + caseId + ":" + "3" == "urn:stadtstack:case-event:" + caseId + ":3";
  }

  /** The case id and the topic are there if they agree. */
  lemma CaseTexts(s: Schema, v: Value)
    requires AgreesOnCase(s, v)
    ensures Has(v, "caseId", AnyText) && Has(v, "topicId", AnyText) && Has(v, "caseEventIds", ThreeTexts)
  {
    hide Field, TextOf, IsTopicOf, AboutTown, AgreesOnCase, CaseId.ParseMunicipalCaseId, CaseId.ParseSyntheticCaseId,
      EventIds, IdentityOf;
    CaseExactly(s, v);
    ThreeEventIds(v, TextOf(v, "caseId"));
    KindText(v, "caseId");
    KindText(v, "topicId");
    IdentityIsText(s, TextOf(v, "caseId"));
    TopicIsText(TextOf(v, "topicId"), IdentityOf(s, TextOf(v, "caseId")).value.municipalityId);
  }

  lemma ThreeEventIds(v: Value, caseId: string)
    requires Field(v, "caseEventIds") == Some(EventIds(caseId))
    ensures Has(v, "caseEventIds", ThreeTexts)
  {
    hide Field;
  }

  lemma CandidateExactly(s: Schema, v: Value)
    ensures CandidateOk(s, v) && IsHex64(TextOf(v, "candidateEventId")) <==>
            && Has(v, "candidateId", Named(CandidateName(s))) && Has(v, "candidateEventId", Hex)
            && (s == SignedV1 ==>
                  TextOf(v, "candidateId") == "urn:stadtstack:signed-topic-suggestion:" + TextOf(v, "candidateEventId"))
  {
    hide Has, IsHex64, TextOf;
    KindText(v, "candidateEventId");
    NamedText(v, "candidateId", CandidateName(s));
    if s == SignedV1 {
      var prefix, hex := "urn:stadtstack:signed-topic-suggestion:", TextOf(v, "candidateEventId");
      assert (prefix + hex)[|prefix|..] == hex;
    }
  }

  lemma CommonExactly(s: Schema, v: Value)
    ensures SchemaOf(v) == Some(s) && CommonOk(s, v) && CandidateOk(s, v) <==>
            && HasIds(s, v) && HasChain(s, v) && AgreesOnCase(s, v)
            && TextOf(v, "admissionEventChecksum") == TextOf(v, "journalHeadChecksum")
            && (s == SignedV1 ==>
                  TextOf(v, "candidateId") == "urn:stadtstack:signed-topic-suggestion:" + TextOf(v, "candidateEventId"))
  {
    hide Has, IsHex64, TextOf, Field, CandidateOk, IsTopicOf, IdentityOf, EventIds, AgreesOnCase, SchemaOf, IsChecksum,
      CandidateName, SchemaName;
    SchemaText(v);
    ExactText(v, "schemaVersion", SchemaName(s)) by { NameIsText(s); }
    CaseExactly(s, v);
    if AgreesOnCase(s, v) {
      CaseTexts(s, v);
    }
    CandidateExactly(s, v);
    KindText(v, "rootEventId");
    KindText(v, "candidateEventId");
    KindText(v, "sourceAnswerEventId");
    KindText(v, "journalHeadChecksum");
    KindText(v, "admissionEventChecksum");
    KindText(v, "receiptChecksum");
    ExactValue(v, "caseVersion", Number(3));
    ExactValue(v, "authorityBinding", Text("none"));
    ExactValue(v, "openDeskWrite", Bool(false));
  }

  lemma NameIsText(s: Schema)
    ensures SchemaName(s) != ""
  {
  }

  lemma SchemaExactly(s: Schema, v: Value)
    ensures SchemaOk(s, v) <==>
            match s
            case SignedV1 => true
            case AdoptedV2 =>
              && HasAdoption(v, "eligible_citizen_adopted_topic_suggestion_v1") && HasEligibility(v)
              && TextOf(v, "eligibilityReceiptId")
                 == "urn:stadtstack:municipal-civic-eligibility-receipt:" + TextOf(v, "eligibilityReceiptChecksum")
            case SyntheticV1 => HasAdoption(v, "synthetic_citizen_adoption_tracer_v1") && HasSynthetic(v)
  {
    hide Has, IsHex64, TextOf, Field, AdoptionOk, HasAdoption, IsPolicyVersion, IsIssuer;
    match s
    case SignedV1 =>
    case AdoptedV2 =>
      AdoptionExactly(v, "eligible_citizen_adopted_topic_suggestion_v1");
      KindText(v, "eligibilityReceiptChecksum");
      KindText(v, "eligibilityPolicyVersion");
      KindText(v, "eligibilityIssuer");
      var prefix, hex := "urn:stadtstack:municipal-civic-eligibility-receipt:", TextOf(v, "eligibilityReceiptChecksum");
      NamedText(v, "eligibilityReceiptId", prefix);
      assert (prefix + hex)[|prefix|..] == hex;
    case SyntheticV1 =>
      AdoptionExactly(v, "synthetic_citizen_adoption_tracer_v1");
      KindText(v, "testPolicyVersion");
      ExactValue(v, "environment", Text("staging"));
      ExactValue(v, "testOnly", Bool(true));
      ExactValue(v, "civicCaseCreated", Bool(false));
      ExactValue(v, "syntheticCaseCreated", Bool(true));
  }

  lemma ShapeExactly(v: Value)
    ensures ShapeOk(v) <==> exists s :: OfSchema(s, v)
  {
    hide Exact, FieldsOf, Names, CommonOk, CandidateOk, SchemaOk, HasIds, HasChain, HasAdoption, HasEligibility,
      HasSynthetic, AgreesOnCase, TextOf, SchemaOf;
    forall s | SchemaOf(v) == Some(s) && CommonOk(s, v) && CandidateOk(s, v) && SchemaOk(s, v) && Exact(v, FieldsOf(s))
      ensures OfSchema(s, v)
    {
      CommonExactly(s, v);
      SchemaExactly(s, v);
      ExactIsObject(v, s);
      ExactExactly(s, v);
    }
    forall s | OfSchema(s, v) ensures ShapeOk(v) {
      CommonExactly(s, v);
      SchemaExactly(s, v);
      ExactExactly(s, v);
    }
  }

  lemma ExactIsObject(v: Value, s: Schema)
    requires Exact(v, FieldsOf(s))
    ensures v.Object?
  {
  }

  /**
   A value is verified exactly if its normal form is a record of one of the three schemas and is sealed; it is
   then that normal form.
   */
  lemma VerifiedExactly(digest: Digest, v: Value)
    ensures VerifyReceipt(digest, v).Verified? <==> (exists s :: OfSchema(s, Normal(v))) && Sealed(digest, Normal(v))
    ensures VerifyReceipt(digest, v).Verified? ==> VerifyReceipt(digest, v).receipt == Normal(v)
    ensures VerifyReceipt(digest, v).Refused? ==>
              VerifyReceipt(digest, v).error
              == if exists s :: OfSchema(s, Normal(v)) then ReceiptChecksumInvalid else ReceiptInvalid
  {
    hide ShapeOk, Normal, OfSchema, Sealed, Canonical, Without, Lookup;
    var n := Normal(v);
    ShapeExactly(n);
    if ShapeOk(n) {
      var s :| OfSchema(s, n);
      SchemaIsRecord(s, n);
      SealedExactly(digest, n);
      ChecksumField(n);
    }
  }

  lemma SchemaIsRecord(s: Schema, v: Value)
    requires OfSchema(s, v)
    ensures v.Object? && DistinctKeys(v.members) && Has(v, "receiptChecksum", Sha)
  {
    hide Has, DistinctKeys, AgreesOnCase, AgreesOnNames;
  }

  lemma ChecksumField(v: Value)
    requires Has(v, "receiptChecksum", Sha)
    ensures Field(v, "receiptChecksum") == Some(Text(TextOf(v, "receiptChecksum")))
  {
    hide Field;
    TextField(v, "receiptChecksum");
  }
}
