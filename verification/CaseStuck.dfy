/**
 The citizen lane in one concrete town, with the program's own pattern for secrets and its own verifier of
 recorded adoptions: what the citizen wrote decides whether the Case can ever be continued.
 */
module CaseStuck {
  import opened Results
  import opened Texts
  import opened CaseTypes
  import opened CaseNormalize
  import opened CaseHandle
  import opened CaseAgreement
  import opened CaseRuns
  import opened CaseId
  import opened CaseAdoption
  import opened CaseCitizenLane
  import A = AdoptionEvidence

  // The unanchored pattern for secrets, letters of either case.

  function Separated(first: string, second: string): seq<string> {
    [first + second, first + "_" + second, first + " " + second, first + "-" + second]
  }

  function WholeMarkers(): seq<string> {
    ["nsec1", "password", "credential", "token", "wallet", "ballot"]
  }

  function Markers(): seq<string> {
    WholeMarkers()
    + Separated("private", "key") + Separated("secret", "key") + Separated("participant", "id")
    + Separated("user", "id")
  }

  function LowerCase(c: char): char {
    if 'A' <= c <= 'Z' then c - 'A' + 'a' else c
  }

  /** The word stands in the text from position `i`. */
  predicate WordAt(s: string, w: string, i: int) {
    0 <= i && i + |w| <= |s| && forall k :: 0 <= k < |w| ==> LowerCase(s[i + k]) == w[k]
  }

  predicate HasWord(s: string, w: string) {
    exists i :: 0 <= i <= |s| && WordAt(s, w, i)
  }

  /** `SECRET_MARKER.test`. */
  predicate SecretMarker(s: string) {
    exists w | w in Markers() :: HasWord(s, w)
  }

  lemma {:induction false} TrimStartIsSuffix(s: string)
    ensures |TrimStart(s)| <= |s| && TrimStart(s) == s[|s| - |TrimStart(s)|..]
  {
    if s != [] && IsSpace(s[0]) {
      TrimStartIsSuffix(s[1..]);
    }
  }

  lemma {:induction false} TrimEndIsPrefix(s: string)
    ensures |TrimEnd(s)| <= |s| && TrimEnd(s) == s[..|TrimEnd(s)|]
  {
    if s != [] && IsSpace(s[|s| - 1]) {
      TrimEndIsPrefix(s[..|s| - 1]);
    }
  }

  /** An unanchored pattern finds nothing in a trimmed text that it does not find in the text. */
  lemma MarkerTrimmed(s: string)
    requires SecretMarker(Trim(s))
    ensures SecretMarker(s)
  {
    hide Trim, Markers, HasWord;
    var w :| w in Markers() && HasWord(Trim(s), w);
    WordTrimmed(s, w);
  }

  lemma WordTrimmed(s: string, w: string)
    requires HasWord(Trim(s), w)
    ensures HasWord(s, w)
  {
    hide TrimStart, TrimEnd;
    TrimStartIsSuffix(s);
    TrimEndIsPrefix(TrimStart(s));
    var i :| 0 <= i <= |Trim(s)| && WordAt(Trim(s), w, i);
    assert WordAt(s, w, |s| - |TrimStart(s)| + i);
  }

  // Texts without markers.

  /** Every marker holds one of these pairs of neighbours. */
  predicate MarkerPair(c: char, d: char) {
    || (c == 'n' && d == 's') || (c == 's' && d == 'w') || (c == 'c' && d == 'r') || (c == 't' && d == 'o')
    || (c == 'w' && d == 'a') || (c == 'l' && d == 'o') || (c == 'i' && d == 'v') || (c == 'a' && d == 'r')
    || (c == 'e' && d == 'r')
  }

  predicate PairFree(s: string) {
    forall i :: 0 < i < |s| ==> !MarkerPair(LowerCase(s[i - 1]), LowerCase(s[i]))
  }

  lemma WholeMarkersHavePairs(w: string) returns (k: nat)
    requires w in WholeMarkers()
    ensures 0 < k < |w| && MarkerPair(w[k - 1], w[k])
  {
    k := if w == "password" || w == "ballot" then 4 else 1;
  }

  lemma SeparatedHavePairs(first: string, second: string, w: string, k: nat)
    requires w in Separated(first, second) && 0 < k < |first| && MarkerPair(first[k - 1], first[k])
    ensures k < |w| && MarkerPair(w[k - 1], w[k])
  {
    hide MarkerPair;
  }

  lemma MarkersHavePairs(w: string) returns (k: nat)
    requires w in Markers()
    ensures 0 < k < |w| && MarkerPair(w[k - 1], w[k])
  {
    hide WholeMarkers, Separated;
    if w in WholeMarkers() {
      k := WholeMarkersHavePairs(w);
    } else if w in Separated("private", "key") {
      k := 3;
      SeparatedHavePairs("private", "key", w, k);
    } else if w in Separated("secret", "key") {
      k := 3;
      SeparatedHavePairs("secret", "key", w, k);
    } else if w in Separated("participant", "id") {
      k := 2;
      SeparatedHavePairs("participant", "id", w, k);
    } else {
      k := 3;
      SeparatedHavePairs("user", "id", w, k);
    }
  }

  lemma WordBringsPair(s: string, w: string, i: nat, k: nat)
    requires WordAt(s, w, i) && 0 < k < |w| && MarkerPair(w[k - 1], w[k])
    ensures !PairFree(s)
  {
    hide MarkerPair;
    assert LowerCase(s[i + (k - 1)]) == w[k - 1] && LowerCase(s[i + k]) == w[k];
  }

  /** A text without these pairs holds no marker. */
  lemma PairFreeUnmarked(s: string)
    requires PairFree(s)
    ensures !SecretMarker(s)
  {
    hide Markers, MarkerPair, PairFree, WordAt;
    forall w | w in Markers() ensures !HasWord(s, w) {
      var k := MarkersHavePairs(w);
      forall i | 0 <= i <= |s| ensures !WordAt(s, w, i) {
        if WordAt(s, w, i) {
          WordBringsPair(s, w, i, k);
        }
      }
    }
  }

  lemma PairFreeJoined(s: string, t: string)
    requires PairFree(s) && PairFree(t) && s != "" && t != ""
    requires !MarkerPair(LowerCase(s[|s| - 1]), LowerCase(t[0]))
    ensures PairFree(s + t)
  {
    hide MarkerPair;
  }

  /** Hexadecimal digits and dashes make no marker. */
  lemma HexPairFree(s: string)
    requires forall i :: 0 <= i < |s| ==> IsHex(s[i]) || s[i] == '-'
    ensures PairFree(s)
  {
  }

  lemma TrimmedByEnds(s: string)
    requires s != "" && !IsSpace(s[0]) && !IsSpace(s[|s| - 1])
    ensures Trim(s) == s
  {
  }

  // The town.

  const TOWN := "stadt"

  const NOON: nat := 1_800_000_000

  /** An id of 64 hexadecimal digits. */
  function Id(c: char): Entropy
    requires IsHex(c)
  {
    seq(64, i => c)
  }

  function TownPolicy(): (p: A.Policy)
    ensures VerifiedPolicy(p) && p.municipalityId == TOWN
  {
    A.Policy(TOWN, "policy-v1", "urn:issuer", "https://status.example", 600, 60, 300)
  }

  /** What the four signed events say. */
  function TownSource(): A.Source {
    A.Source(Id('1'), Id('2'), "urn:answer", Id('3'), NOON, Id('4'), Id('5'), NOON + 5, "urn:topic", "title", "summary")
  }

  /** White space inside a text may be a tab or the end of a line, no other control character. */
  predicate IsForbidden(c: char) {
    c <= '\U{0008}' || c == '\U{000B}' || c == '\U{000C}' || '\U{000E}' <= c <= '\U{001F}' || c == '\U{007F}'
  }

  /** `\w` where letters of either case are one, and two letters beyond ASCII fold to `s` and `k`. */
  predicate IsWordCharacter(c: char) {
    '0' <= c <= '9' || 'a' <= LowerCase(c) <= 'z' || c == '_' || c == '\U{017F}' || c == '\U{212A}'
  }

  predicate MentionAt(s: string, i: int) {
    && 0 <= i && i + 6 <= |s|
    && (forall k :: 0 <= k < 6 ==> LowerCase(s[i + k]) == "@mecky"[k] || (k == 4 && s[i + k] == '\U{212A}'))
    && (i + 6 < |s| ==> !IsWordCharacter(s[i + 6]))
  }

  /** What the evidence verifier demands of the text of the root event. */
  predicate RootText(s: string) {
    && s != "" && Trim(s) == s && |s| <= 2000 && (forall i :: 0 <= i < |s| ==> !IsForbidden(s[i]))
    && exists i :: 0 <= i < |s| && MentionAt(s, i)
  }

  /** One bundle with good signatures if the text of its root event is good; constant digests; one good proof. */
  function TownCrypto(text: string): A.Crypto {
    A.Crypto((events: string, p: A.Policy) => if events == "events" && RootText(text) then Some(TownSource()) else None,
             core => Id('6'), (s: A.Source, id: string, sum: string) => "urn:adoption",
             (events: string, s: A.Source, id: string) => events == "events" && id == "urn:adoption",
             events => Id('7'), core => Id('8'), core => Id('9'),
             (p: A.Policy, r: A.EligibilityReceipt) => r.proof == "proof",
             (p: A.Policy, s: A.Status) => s.proof == "proof")
  }

  function TownBundle(text: string): A.Bundle {
    var core := A.ExpectedCore(TownPolicy(), TownSource(), NOON, NOON + 600);
    A.Bundle("events",
             A.ExpectedReceipt(TownCrypto(text), TownPolicy(), A.EligibilityReceipt("", core, "", "", "", "proof")))
  }

  function TownEvidence(text: string): A.Evidence {
    var x := A.Inspected(TownBundle(text), TownSource(), "urn:adoption", NOON + 30);
    var observed := A.StatusCore("", "", "", "", "", NOON, NOON + 20, "", "");
    A.Evidence(TownBundle(text),
               A.Acceptance(A.ExpectedAcceptance(TownCrypto(text), TownPolicy(), x, NOON + 10), Id('8')),
               A.Status(A.ExpectedStatus(TownPolicy(), x, observed, Id('0')), Id('9'), "proof"), NOON + 30, NOON + 80)
  }

  lemma TownEvidenceVerifies(text: string)
    requires RootText(text)
    ensures A.VerifyRecorded(TownCrypto(text), TownPolicy(), TownEvidence(text)) == Ok(TownEvidence(text))
  {
  }

  function TownTags(): seq<seq<string>> {
    [["p", Id('c')], ["q", Id('d'), "", Id('2')], ["source-post", Id('d')], ["t", "stadtstack-civic-discussion"],
     ["municipality", TOWN], ["topic", "urn:topic"], ["topic-title", "title"], ["stance", "root"],
     ["argument-root", "self"]]
  }

  /** The root event with what the citizen wrote. */
  function TownReader(text: string): Reader {
    Reader(events => NostrEvent(Id('1'), Id('2'), NOON, 1, TownTags(), text, seq(128, i => 'a')), id => Id('b'))
  }

  function TownCaseId(): string {
    DerivedUuid(NOON + 5, Id('b'));
    CanonicalMunicipalCaseId(TOWN, DeriveCaseUuidV7(NOON + 5, Id('b')).value).value
  }

  function TownAdmission(text: string): AdoptionAdmission {
    AdoptionAdmission(CitizenEvidence(TownEvidence(text)), TownCaseId(), TOWN,
                      CaseDiscussion(TownReader(text).root("events"), TOWN, TownCaseId()), "title",
                      "roebel:admit-citizen-adoption:" + Id('4'))
  }

  lemma TownAdmits(text: string)
    requires RootText(text)
    ensures VerifyCitizenAdmission(TownCrypto(text), TownPolicy(), TownReader(text),
                                   CitizenEvidence(TownEvidence(text)))
         == Ok(TownAdmission(text))
  {
    hide A.VerifyRecorded, DeriveCaseUuidV7;
    TownEvidenceVerifies(text);
    DerivedUuid(NOON + 5, Id('b'));
  }

  /**
   The environment of the town: the pattern for secrets and the verifier of citizen adoptions are the
   program's. No other lane is open, and the other patterns find nothing: the one for secret values finds
   something only where the one for secrets does, and nothing in the tags.
   */
  function TownEnv(text: string): Env {
    Env(s => SecretMarker(s), s => false, s => false, s => false, s => true, s => true, s => true, s => Some(0),
        e => true, c => "", s => None, e => Err(DiscussionProofInvalid), (x, a, s) => Err(TopicSuggestionInvalid),
        (synthetic, e) =>
          if synthetic then Err(ActorRoleForbidden)
          else VerifyCitizenAdmission(TownCrypto(text), TownPolicy(), TownReader(text), e))
  }

  function TownOptions(): Options {
    Options(TownCaseId(), TOWN, "policy-v1", None, map["desk" := ActorRegistration(CaseSteward, None)], None,
            true, false, false, None, true)
  }

  /** The assumptions about the environment can be met, with the program's own pattern and verifier. */
  lemma TownSound(text: string)
    ensures Sound(TownEnv(text)) && Lane(TownEnv(text), TownOptions(), TownCrypto(text), TownPolicy(), TownReader(text))
  {
    hide Trim, SecretMarker, VerifyCitizenAdmission, TownCaseId, TownReader, TownCrypto, VerifiedPolicy;
    var env := TownEnv(text);
    forall s: string | env.secret(Trim(s)) ensures env.secret(s) {
      MarkerTrimmed(s);
    }
    forall synthetic, e | env.verifyAdoption(synthetic, e).Ok? ensures AdoptionStable(env, synthetic, e) {
      CitizenAdoptionsStable(env, TownCrypto(text), TownPolicy(), TownReader(text), e);
    }
    PairFreeClean(text, "policy-v1");
  }

  lemma PairFreeClean(text: string, s: string)
    requires s != "" && !IsSpace(s[0]) && !IsSpace(s[|s| - 1]) && PairFree(s)
    ensures Clean(TownEnv(text), s)
  {
    hide Trim, SecretMarker, PairFree, VerifyCitizenAdmission;
    TrimmedByEnds(s);
    PairFreeUnmarked(s);
  }

  // The texts that the program writes, piece by piece.

  lemma UrnPairFree()
    ensures PairFree("urn:stadtstack:")
  {
  }

  lemma CasePairFree()
    ensures PairFree("case:")
  {
  }

  lemma PlacePairFree()
    ensures PairFree("municipality:")
  {
  }

  lemma PrefixPairFree()
    ensures PairFree("urn:stadtstack:case:municipality:stadt:")
  {
    hide PairFree;
    UrnPairFree();
    CasePairFree();
    PlacePairFree();
    TownPairFree();
    PairFreeJoined("urn:stadtstack:", "case:");
    PairFreeJoined(TOWN, ":");
    PairFreeJoined("municipality:", TOWN + ":");
    PairFreeJoined("urn:stadtstack:" + "case:", "municipality:" + (TOWN + ":"));
    assert "urn:stadtstack:" + "case:" + ("municipality:" + (TOWN + ":")) == "urn:stadtstack:case:municipality:stadt:";
  }

  lemma AdmitPairFree()
    ensures PairFree("roebel:") && PairFree("admit-")
  {
  }

  lemma CitizenPairFree()
    ensures PairFree("citizen-")
  {
  }

  lemma AdoptionPairFree()
    ensures PairFree("adoption:")
  {
  }

  lemma KeyPairFree()
    ensures PairFree("roebel:admit-citizen-adoption:")
  {
    hide PairFree;
    AdmitPairFree();
    CitizenPairFree();
    AdoptionPairFree();
    PairFreeJoined("roebel:", "admit-");
    PairFreeJoined("citizen-", "adoption:");
    PairFreeJoined("roebel:" + "admit-", "citizen-" + "adoption:");
    assert "roebel:" + "admit-" + ("citizen-" + "adoption:") == "roebel:admit-citizen-adoption:";
  }

  lemma NostrPairFree()
    ensures PairFree(NOSTR_PREFIX)
  {
  }

  lemma TownPairFree()
    ensures PairFree(TOWN) && PairFree(":")
  {
  }

  lemma UuidPairFree(u: string)
    requires IsUuidV7(u)
    ensures PairFree(u) && |u| == 36 && IsHex(u[0]) && IsHex(u[35])
  {
    assert IsHex(u[0]) && IsHex(u[35]);
    HexPairFree(u);
  }

  /** A front part and a part that begins and ends with a hexadecimal digit. */
  lemma ComposedClean(text: string, front: string, s: string)
    requires PairFree(front) && front != "" && !IsSpace(front[0]) && front[|front| - 1] in ":/"
    requires PairFree(s) && s != "" && IsHex(s[0]) && IsHex(s[|s| - 1])
    ensures Clean(TownEnv(text), front + s) && Clean(TownEnv(text), s)
  {
    hide PairFree, Clean, TownEnv;
    PairFreeJoined(front, s);
    PairFreeClean(text, front + s);
    PairFreeClean(text, s);
  }

  lemma CaseIdClean(text: string)
    ensures Clean(TownEnv(text), TownCaseId())
  {
    hide DeriveCaseUuidV7, Clean, TownEnv, PairFree, IsUuidV7, UuidTime;
    DerivedUuid(NOON + 5, Id('b'));
    var u := DeriveCaseUuidV7(NOON + 5, Id('b')).value;
    PrefixPairFree();
    UuidPairFree(u);
    ComposedClean(text, "urn:stadtstack:case:municipality:stadt:", u);
    assert TownCaseId() == "urn:stadtstack:case:municipality:stadt:" + u;
  }

  lemma KeyClean(text: string)
    ensures Clean(TownEnv(text), "roebel:admit-citizen-adoption:" + Id('4'))
  {
    hide Clean, TownEnv, PairFree;
    KeyPairFree();
    HexPairFree(Id('4'));
    ComposedClean(text, "roebel:admit-citizen-adoption:", Id('4'));
  }

  lemma RootClean(text: string, events: string)
    ensures CleanIds(TownEnv(text), TownReader(text).root(events), TOWN, TownCaseId())
  {
    hide Clean, TownEnv, TownCaseId, PairFree;
    NostrPairFree();
    HexPairFree(Id('1'));
    ComposedClean(text, NOSTR_PREFIX, Id('1'));
    HexPairFree(Id('2'));
    PairFreeClean(text, Id('2'));
    HexPairFree(seq(128, i => 'a'));
    PairFreeClean(text, seq(128, i => 'a'));
    TownPairFree();
    PairFreeClean(text, TOWN);
    CaseIdClean(text);
  }

  lemma TownAdmissible(text: string)
    ensures Admissible(TownEnv(text), TownOptions(), TownAdmission(text), "desk")
  {
    hide Clean, TownEnv, TownCaseId;
    CaseIdClean(text);
    KeyClean(text);
    PairFreeClean(text, "desk");
  }

  lemma TownRefuses(text: string)
    requires !RootText(text)
    ensures VerifyCitizenAdmission(TownCrypto(text), TownPolicy(), TownReader(text),
                                   CitizenEvidence(TownEvidence(text))).Err?
  {
    hide RootText;
  }

  /**
   For every text of the root event: the adoption is accepted exactly if the text is as the evidence verifier
   demands. Then a live verification could have given the evidence, and the Case replays exactly if the text
   holds no marker, and is stuck for ever exactly if it holds one.
   */
  lemma TextDecides(text: string)
    ensures Sound(TownEnv(text))
    ensures Lane(TownEnv(text), TownOptions(), TownCrypto(text), TownPolicy(), TownReader(text))
    ensures var (env, opt) := (TownEnv(text), TownOptions());
            var (next, receipt) := Handle(env, opt, EmptyJournal(opt), AdmitCommand(opt, TownAdmission(text), "desk"));
            && (receipt.Ok? <==> RootText(text))
            && (RootText(text) ==>
                  && A.CouldBeLive(TownCrypto(text), TownPolicy(), TownEvidence(text))
                  && |next.events| == 3
                  && (Replays(env, opt, next) <==> !SecretMarker(text))
                  && (Stuck(env, opt, next) <==> SecretMarker(text)))
  {
    hide Sound, Lane, Handle, Replays, Stuck, TownEvidence, TownCrypto, TownPolicy, VerifyCitizenAdmission,
      A.CouldBeLive, Trim, SecretMarker, Admissible, CleanIds, TownCaseId, MentionAt, TownTags;
    var e := TownEvidence(text);
    TownSound(text);
    if RootText(text) {
      TownAdmits(text);
      TownAdmissible(text);
      RootClean(text, e.bundle.events);
      AdmittedIffLive(TownCrypto(text), TownPolicy(), TownReader(text), e);
      AdoptionRuns(TownEnv(text), TownOptions(), TownCrypto(text), TownPolicy(), TownReader(text), e, "desk");
    } else {
      TownRefuses(text);
      UnverifiedRefused(TownEnv(text), TownOptions(), TownCrypto(text), TownPolicy(), TownReader(text),
                        EmptyJournal(TownOptions()), AdmitCommand(TownOptions(), TownAdmission(text), "desk"));
    }
  }

  /** What one citizen wrote: no more than an honest mention of a marker word. */
  const TEXT := "@mecky no token"

  lemma TextIsRootText()
    ensures RootText(TEXT)
  {
    hide Trim;
    TrimmedByEnds(TEXT);
    assert MentionAt(TEXT, 0);
  }

  lemma TextMarked()
    ensures SecretMarker(TEXT)
  {
    hide Separated;
    assert WordAt(TEXT, "token", 10);
    assert WholeMarkers()[3] == "token";
    assert HasWord(TEXT, "token") && "token" in Markers();
  }

  /** Its adoption is accepted, its journal does not replay, and no command can continue it. */
  lemma AdoptionCanStick()
    ensures var (env, opt) := (TownEnv(TEXT), TownOptions());
            var (next, receipt) := Handle(env, opt, EmptyJournal(opt), AdmitCommand(opt, TownAdmission(TEXT), "desk"));
            receipt.Ok? && !Replays(env, opt, next) && Stuck(env, opt, next)
  {
    hide Handle, Replays, Stuck, TownEnv, TownOptions, TownAdmission, SecretMarker, RootText;
    TextIsRootText();
    TextMarked();
    TextDecides(TEXT);
  }
}
