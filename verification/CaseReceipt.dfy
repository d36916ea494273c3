/** Public Case-binding receipts: records with exactly the fields of their schema and a checksum over the others. */
module CaseReceipt {
  import opened Results
  import opened Texts
  import opened Json
  import opened JsonRoundTrip
  import CaseId
  import S = Sorting

  /** The lower-case hexadecimal SHA-256 of a text in UTF-8. */
  type Digest = string -> string

  datatype Schema = SignedV1 | AdoptedV2 | SyntheticV1

  datatype ReceiptError = ReceiptInvalid | ReceiptChecksumInvalid

  datatype Verdict = Verified(receipt: Value) | Refused(error: ReceiptError)

  const SIGNED_SCHEMA := "public_case_binding_receipt_v1"
  const ADOPTED_SCHEMA := "public_case_binding_receipt_v2"
  const SYNTHETIC_SCHEMA := "public_synthetic_case_binding_receipt_v1"
  const SIGNED_CANDIDATE_PREFIX := "urn:stadtstack:signed-topic-suggestion:"
  const ADOPTED_CANDIDATE_PREFIX := "urn:stadtstack:citizen-topic-suggestion-adoption:"
  const SYNTHETIC_CANDIDATE_PREFIX := "urn:stadtstack:synthetic-citizen-adoption-tracer:"
  const TOPIC_PREFIX := "urn:stadtstack:topic:municipality:"
  const CASE_EVENT_PREFIX := "urn:stadtstack:case-event:"
  const ELIGIBILITY_PREFIX := "urn:stadtstack:municipal-civic-eligibility-receipt:"
  const ANSWER_PREFIX := "urn:stadtstack:mecky-answer:"
  const CHECKSUM_PREFIX := "sha256:"

  function Lookup(ms: seq<Member>, key: string): Option<Value> {
    if ms == [] then None else if ms[0].key == key then Some(ms[0].value) else Lookup(ms[1..], key)
  }

  function Field(v: Value, key: string): Option<Value> {
    if v.Object? then Lookup(v.members, key) else None
  }

  /** The text of a field; empty if it is not a text. */
  function TextOf(v: Value, key: string): string {
    var f := Field(v, key);
    if f.Some? && f.value.Text? then f.value.text else ""
  }

  /** `exactRecord`: all the given fields and no other. A record has a key once. */
  predicate Exact(v: Value, names: seq<string>) {
    v.Object? && DistinctKeys(v.members) && |v.members| == |names|
    && forall i :: 0 <= i < |v.members| ==> v.members[i].key in names
  }

  function CommonFields(): seq<string> {
    ["schemaVersion", "rootEventId", "topicId", "candidateId", "candidateEventId", "sourceAnswerEventId", "caseId",
     "caseVersion", "caseEventIds", "journalHeadChecksum", "admissionEventChecksum", "receiptChecksum",
     "authorityBinding", "openDeskWrite"]
  }

  function AdoptionFields(): seq<string> {
    ["candidateKind", "participantSuggestionEventId", "adopterPubkey", "adoptionAcceptanceReceiptChecksum",
     "sourceAnswerReceiptId", "administrativeEndorsement", "bindingVote", "councilDecision", "treasuryEffect",
     "paymentEffect"]
  }

  function EligibilityFields(): seq<string> {
    ["eligibilityReceiptId", "eligibilityReceiptChecksum", "eligibilityPolicyVersion", "eligibilityIssuer"]
  }

  function SyntheticFields(): seq<string> {
    ["testPolicyVersion", "environment", "testOnly", "civicCaseCreated", "syntheticCaseCreated"]
  }

  function FieldsOf(s: Schema): seq<string> {
    match s
    case SignedV1 => CommonFields()
    case AdoptedV2 => CommonFields() + AdoptionFields() + EligibilityFields()
    case SyntheticV1 => CommonFields() + AdoptionFields() + SyntheticFields()
  }

  function SchemaOf(v: Value): Option<Schema> {
    var t := TextOf(v, "schemaVersion");
    if t == SIGNED_SCHEMA then Some(SignedV1)
    else if t == ADOPTED_SCHEMA then Some(AdoptedV2)
    else if t == SYNTHETIC_SCHEMA then Some(SyntheticV1)
    else None
  }

  predicate IsHex64(t: string) {
    |t| == 64 && CaseId.AllHex(t)
  }

  predicate After(t: string, prefix: string, hex: string) {
    t == prefix + hex && IsHex64(hex)
  }

  /** A prefix followed by 64 hexadecimal digits. */
  predicate Prefixed(t: string, prefix: string) {
    prefix <= t && IsHex64(t[|prefix|..])
  }

  predicate IsChecksum(t: string) {
    Prefixed(t, CHECKSUM_PREFIX)
  }

  /** `^[a-z0-9][a-z0-9._-]{2,99}$`. */
  predicate IsPolicyVersion(t: string) {
    && 3 <= |t| <= 100 && CaseId.IsAlphanumeric(t[0])
    && forall i :: 0 <= i < |t| ==> CaseId.IsAlphanumeric(t[i]) || t[i] == '.' || t[i] == '_' || t[i] == '-'
  }

  function Utf8Length(s: string): nat {
    if s == [] then 0
    else (if s[0] < '\U{0080}' then 1 else if s[0] < '\U{0800}' then 2 else if s[0] < '\U{10000}' then 3 else 4)
         + Utf8Length(s[1..])
  }

  /** No control characters, no white space at the ends, at most 512 bytes. */
  predicate IsIssuer(t: string) {
    && t != [] && !IsSpace(t[0]) && !IsSpace(t[|t| - 1]) && Utf8Length(t) <= 512
    && forall i :: 0 <= i < |t| ==> t[i] >= '\U{0020}' && t[i] != '\U{007F}'
  }

  /** The topic names the municipality of the Case, then a topic slug; at most 256 bytes, all of them ASCII. */
  predicate IsTopicOf(t: string, municipalityId: string) {
    var head := TOPIC_PREFIX + municipalityId + ":";
    && head < t && |t| <= 256
    && forall i :: |head| <= i < |t| ==> CaseId.IsAlphanumeric(t[i]) || t[i] == '-'
  }

  function IdentityOf(s: Schema, caseId: string): Option<CaseId.Identity> {
    if s == SyntheticV1 then CaseId.ParseSyntheticCaseId(caseId) else CaseId.ParseMunicipalCaseId(caseId)
  }

  function EventIds(caseId: string): Value {
    var head := CASE_EVENT_PREFIX + caseId + ":";
    Array([Text(head + "1"), Text(head + "2"), Text(head + "3")])
  }

  predicate CommonOk(s: Schema, v: Value) {
    && Field(v, "authorityBinding") == Some(Text("none")) && Field(v, "openDeskWrite") == Some(Bool(false))
    && IsHex64(TextOf(v, "rootEventId")) && IsHex64(TextOf(v, "candidateEventId"))
    && IsHex64(TextOf(v, "sourceAnswerEventId"))
    && |TextOf(v, "caseId")| <= 256
    && IdentityOf(s, TextOf(v, "caseId")).Some?
    && IsTopicOf(TextOf(v, "topicId"), IdentityOf(s, TextOf(v, "caseId")).value.municipalityId)
    && Field(v, "caseVersion") == Some(Number(3))
    && Field(v, "caseEventIds") == Some(EventIds(TextOf(v, "caseId")))
    && IsChecksum(TextOf(v, "journalHeadChecksum")) && IsChecksum(TextOf(v, "receiptChecksum"))
    && TextOf(v, "admissionEventChecksum") == TextOf(v, "journalHeadChecksum")
  }

  predicate CandidateOk(s: Schema, v: Value) {
    match s
    case SignedV1 => TextOf(v, "candidateId") == SIGNED_CANDIDATE_PREFIX + TextOf(v, "candidateEventId")
    case AdoptedV2 => Prefixed(TextOf(v, "candidateId"), ADOPTED_CANDIDATE_PREFIX)
    case SyntheticV1 => Prefixed(TextOf(v, "candidateId"), SYNTHETIC_CANDIDATE_PREFIX)
  }

  predicate AdoptionOk(v: Value, kind: string) {
    && Field(v, "candidateKind") == Some(Text(kind))
    && (forall k | k in ["administrativeEndorsement", "bindingVote", "councilDecision", "treasuryEffect",
                         "paymentEffect"] ::
          Field(v, k) == Some(Bool(false)))
    && IsHex64(TextOf(v, "participantSuggestionEventId")) && IsHex64(TextOf(v, "adopterPubkey"))
    && IsHex64(TextOf(v, "adoptionAcceptanceReceiptChecksum"))
    && Prefixed(TextOf(v, "sourceAnswerReceiptId"), ANSWER_PREFIX)
  }

  predicate SchemaOk(s: Schema, v: Value) {
    match s
    case SignedV1 => true
    case AdoptedV2 =>
      && AdoptionOk(v, "eligible_citizen_adopted_topic_suggestion_v1")
      && After(TextOf(v, "eligibilityReceiptId"), ELIGIBILITY_PREFIX, TextOf(v, "eligibilityReceiptChecksum"))
      && IsPolicyVersion(TextOf(v, "eligibilityPolicyVersion")) && IsIssuer(TextOf(v, "eligibilityIssuer"))
    case SyntheticV1 =>
      && AdoptionOk(v, "synthetic_citizen_adoption_tracer_v1")
      && IsPolicyVersion(TextOf(v, "testPolicyVersion"))
      && Field(v, "environment") == Some(Text("staging")) && Field(v, "testOnly") == Some(Bool(true))
      && Field(v, "civicCaseCreated") == Some(Bool(false)) && Field(v, "syntheticCaseCreated") == Some(Bool(true))
  }

  predicate ShapeOk(v: Value) {
    && SchemaOf(v).Some? && Exact(v, FieldsOf(SchemaOf(v).value))
    && CommonOk(SchemaOf(v).value, v) && CandidateOk(SchemaOf(v).value, v) && SchemaOk(SchemaOf(v).value, v)
  }

  function Without(ms: seq<Member>, key: string): seq<Member> {
    if ms == [] then [] else (if ms[0].key == key then [] else [ms[0]]) + Without(ms[1..], key)
  }

  /** The checksum of a receipt is that of its other fields. */
  predicate ChecksumOk(digest: Digest, v: Value) {
    v.Object? && TextOf(v, "receiptChecksum") == CHECKSUM_PREFIX
                                                 + digest(Canonical(Object(Without(v.members, "receiptChecksum"))))
  }

  /** `verifyPublicCaseBindingReceipt`. Every check reads fields by name, so it is made on the normal form. */
  function VerifyReceipt(digest: Digest, v: Value): Verdict {
    var n := Normal(v);
    if !ShapeOk(n) then Refused(ReceiptInvalid)
    else if !ChecksumOk(digest, n) then Refused(ReceiptChecksumInvalid)
    else Verified(n)
  }

  predicate IsReceipt(digest: Digest, v: Value) {
    VerifyReceipt(digest, v) == Verified(v)
  }

  // What verification gives.

  lemma {:induction false} NormalTwice(v: Value)
    ensures Normal(Normal(v)) == Normal(v)
    decreases v
  {
    match v
    case Array(items) =>
      var ns := NormalItems(items);
      forall i | 0 <= i < |ns| ensures Normal(ns[i]) == ns[i] {
        NormalItemAt(items, i);
        NormalTwice(items[i]);
      }
      ItemsFixed(ns);
    case Object(members) =>
      var ns := NormalMembers(members);
      var sorted := S.Sort(KeyOf, ns);
      forall i | 0 <= i < |ns| ensures Normal(ns[i].value) == ns[i].value {
        NormalMemberAt(members, i);
        NormalTwice(members[i].value);
      }
      S.SortPermutes(KeyOf, ns);
      S.SortSorts(KeyOf, ns);
      forall i | 0 <= i < |sorted| ensures Normal(sorted[i].value) == sorted[i].value {
        assert sorted[i] in multiset(ns);
      }
      MembersFixed(sorted);
      S.SortSorted(KeyOf, sorted);
    case _ =>
  }

  lemma {:induction false} ItemsFixed(vs: seq<Value>)
    requires forall i :: 0 <= i < |vs| ==> Normal(vs[i]) == vs[i]
    ensures NormalItems(vs) == vs
  {
    if vs != [] {
      ItemsFixed(vs[1..]);
      assert vs == [vs[0]] + vs[1..];
    }
  }

  lemma {:induction false} MembersFixed(ms: seq<Member>)
    requires forall i :: 0 <= i < |ms| ==> Normal(ms[i].value) == ms[i].value
    ensures NormalMembers(ms) == ms
  {
    if ms != [] {
      MembersFixed(ms[1..]);
      assert ms == [ms[0]] + ms[1..];
    }
  }

  /** A verified receipt is the value that was given, up to the order of its fields, and verifies again unchanged. */
  lemma VerifiedFixed(digest: Digest, v: Value)
    requires VerifyReceipt(digest, v).Verified?
    ensures VerifyReceipt(digest, v).receipt == Normal(v)
    ensures IsReceipt(digest, VerifyReceipt(digest, v).receipt)
  {
    hide ShapeOk, ChecksumOk;
    NormalTwice(v);
  }

  /** A verified receipt names a Case id of its schema and of no other, and version 3. */
  lemma ReceiptCaseId(digest: Digest, v: Value)
    requires IsReceipt(digest, v)
    ensures SchemaOf(v).Some? && Field(v, "caseVersion") == Some(Number(3))
    ensures SchemaOf(v).value == SyntheticV1 <==> CaseId.ParseSyntheticCaseId(TextOf(v, "caseId")).Some?
    ensures SchemaOf(v).value != SyntheticV1 <==> CaseId.ParseMunicipalCaseId(TextOf(v, "caseId")).Some?
  {
    hide SchemaOf, SchemaOk, CandidateOk, FieldsOf, Normal, CaseId.ParseMunicipalCaseId, CaseId.ParseSyntheticCaseId;
    CaseId.IdsDisjoint(TextOf(v, "caseId"));
  }

  // A verified receipt is plain data: every field of its schema is fixed to a text, a flag, a number or three texts.

  lemma {:induction false} LookupAt(ms: seq<Member>, i: nat)
    requires DistinctKeys(ms) && i < |ms|
    ensures Lookup(ms, ms[i].key) == Some(ms[i].value)
  {
    if i > 0 {
      LookupAt(ms[1..], i - 1);
    }
  }

  predicate PlainField(v: Value, key: string) {
    Field(v, key).Some? && !Field(v, key).value.Other? && !Field(v, key).value.Object?
    && (Field(v, key).value.Array? ==> forall t | t in Field(v, key).value.items :: t.Text?)
  }

  lemma TextIsPlain(v: Value, key: string)
    requires TextOf(v, key) != ""
    ensures PlainField(v, key)
  {
    hide Lookup;
  }

  lemma ConstantIsPlain(v: Value, key: string, c: Value)
    requires Field(v, key) == Some(c) && (c.Text? || c.Bool? || c.Number?)
    ensures PlainField(v, key)
  {
    hide Field;
  }

  lemma CommonPlain(s: Schema, v: Value)
    requires CommonOk(s, v) && CandidateOk(s, v) && SchemaOf(v).Some?
    ensures forall k | k in CommonFields() :: PlainField(v, k)
  {
    hide Field, TextOf, IsTopicOf, IdentityOf, PlainField;
    TextIsPlain(v, "schemaVersion");
    TextIsPlain(v, "rootEventId");
    TextIsPlain(v, "topicId") by {
      TopicIsText(TextOf(v, "topicId"), IdentityOf(s, TextOf(v, "caseId")).value.municipalityId);
    }
    TextIsPlain(v, "candidateId");
    TextIsPlain(v, "candidateEventId");
    TextIsPlain(v, "sourceAnswerEventId");
    TextIsPlain(v, "caseId") by { IdentityIsText(s, TextOf(v, "caseId")); }
    ConstantIsPlain(v, "caseVersion", Number(3));
    EventIdsPlain(v, TextOf(v, "caseId"));
    TextIsPlain(v, "journalHeadChecksum");
    TextIsPlain(v, "admissionEventChecksum");
    TextIsPlain(v, "receiptChecksum");
    ConstantIsPlain(v, "authorityBinding", Text("none"));
    ConstantIsPlain(v, "openDeskWrite", Bool(false));
  }

  lemma TopicIsText(t: string, municipalityId: string)
    requires IsTopicOf(t, municipalityId)
    ensures t != ""
  {
  }

  lemma IdentityIsText(s: Schema, t: string)
    requires IdentityOf(s, t).Some?
    ensures t != ""
  {
  }

  lemma EventIdsPlain(v: Value, caseId: string)
    requires Field(v, "caseEventIds") == Some(EventIds(caseId))
    ensures PlainField(v, "caseEventIds")
  {
    hide Field;
  }

  lemma AdoptionPlain(v: Value, kind: string)
    requires AdoptionOk(v, kind)
    ensures forall k | k in AdoptionFields() :: PlainField(v, k)
  {
    hide Field, TextOf, PlainField;
    ConstantIsPlain(v, "candidateKind", Text(kind));
    TextIsPlain(v, "participantSuggestionEventId");
    TextIsPlain(v, "adopterPubkey");
    TextIsPlain(v, "adoptionAcceptanceReceiptChecksum");
    TextIsPlain(v, "sourceAnswerReceiptId");
    forall k | k in ["administrativeEndorsement", "bindingVote", "councilDecision", "treasuryEffect", "paymentEffect"]
      ensures PlainField(v, k)
    {
      ConstantIsPlain(v, k, Bool(false));
    }
  }

  lemma EligibilityPlain(v: Value)
    requires SchemaOk(AdoptedV2, v)
    ensures forall k | k in EligibilityFields() :: PlainField(v, k)
  {
    hide Field, TextOf, PlainField, AdoptionOk;
    TextIsPlain(v, "eligibilityReceiptId");
    TextIsPlain(v, "eligibilityReceiptChecksum");
    TextIsPlain(v, "eligibilityPolicyVersion");
    TextIsPlain(v, "eligibilityIssuer");
  }

  lemma SyntheticPlain(v: Value)
    requires SchemaOk(SyntheticV1, v)
    ensures forall k | k in SyntheticFields() :: PlainField(v, k)
  {
    hide Field, TextOf, PlainField, AdoptionOk;
    TextIsPlain(v, "testPolicyVersion");
    ConstantIsPlain(v, "environment", Text("staging"));
    ConstantIsPlain(v, "testOnly", Bool(true));
    ConstantIsPlain(v, "civicCaseCreated", Bool(false));
    ConstantIsPlain(v, "syntheticCaseCreated", Bool(true));
  }

  lemma FieldsPlain(v: Value)
    requires ShapeOk(v)
    ensures forall k | k in FieldsOf(SchemaOf(v).value) :: PlainField(v, k)
  {
    hide Field, TextOf, PlainField, AdoptionOk, CommonOk, CandidateOk, CommonFields, AdoptionFields, EligibilityFields,
      SyntheticFields, SchemaOf, Exact;
    var s := SchemaOf(v).value;
    CommonPlain(s, v);
    match s
    case SignedV1 =>
    case AdoptedV2 => AdoptionPlain(v, "eligible_citizen_adopted_topic_suggestion_v1"); EligibilityPlain(v);
    case SyntheticV1 => AdoptionPlain(v, "synthetic_citizen_adoption_tracer_v1"); SyntheticPlain(v);
  }

  lemma PlainFieldHasPlainValue(v: Value, key: string)
    requires PlainField(v, key)
    ensures Plain(Field(v, key).value)
  {
    hide Field;
    var w := Field(v, key).value;
    if w.Array? {
      forall i | 0 <= i < |w.items| ensures Plain(w.items[i]) {
        assert w.items[i].Text?;
      }
    }
  }

  lemma ReceiptIsPlain(digest: Digest, v: Value)
    requires IsReceipt(digest, v)
    ensures Plain(v) && Normal(v) == v
  {
    hide ChecksumOk, FieldsOf, SchemaOf, CommonOk, CandidateOk, SchemaOk, Lookup, Normal, PlainField, IsHex64, TextOf;
    FieldsPlain(v);
    forall i | 0 <= i < |v.members| ensures Plain(v.members[i].value) {
      assert PlainField(v, v.members[i].key);
      PlainFieldHasPlainValue(v, v.members[i].key);
      assert Field(v, v.members[i].key) == Some(v.members[i].value) by { LookupAt(v.members, i); }
    }
  }
}
