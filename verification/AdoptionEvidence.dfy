/**
 Citizen adoption evidence: verified live, against a clock, an acceptance ledger and a status service,
 and verified again when it is read from a journal, against its own times. What the two have to agree
 on is a chain of time windows.
 */
module AdoptionEvidence {
  import opened Results
  import Binary64

  datatype Policy = Policy(
    municipalityId: string, policyVersion: string, issuer: string, statusBaseUrl: string,
    receiptTtlSeconds: nat, statusMaxAgeSeconds: nat, maxEventClockSkewSeconds: nat)

  /** What the four signed events of a bundle say, once their signatures, tags and contents have been checked. */
  datatype Source = Source(
    rootId: string, rootPubkey: string, answerReceiptId: string, suggestionId: string, suggestionAt: nat,
    adoptionId: string, adopterPubkey: string, adoptionAt: nat, topicId: string, title: string, summary: string)

  datatype EligibilityCore = EligibilityCore(
    municipalityId: string, eligibilityClass: string, subjectPubkey: string, participantSuggestionId: string,
    topicId: string, policyVersion: string, issuer: string, issuedAt: int, expiresAt: int, authorityBinding: string)

  datatype EligibilityReceipt = EligibilityReceipt(
    schemaVersion: string, core: EligibilityCore, receiptId: string, payloadChecksum: string, statusRef: string,
    proof: string)

  datatype Bundle = Bundle(events: string, receipt: EligibilityReceipt)

  datatype AcceptanceCore = AcceptanceCore(
    schemaVersion: string, adoptionId: string, adoptionEventId: string, municipalityId: string, topicId: string,
    participantSuggestionId: string, adopterPubkey: string, eligibilityReceiptId: string, requestChecksum: string,
    eventCreatedAt: int, receivedAt: int, policyVersion: string, status: string, authorityBinding: string)

  datatype Acceptance = Acceptance(core: AcceptanceCore, receiptChecksum: string)

  datatype StatusCore = StatusCore(
    schemaVersion: string, receiptId: string, payloadChecksum: string, policyVersion: string, state: string,
    effectiveAt: int, observedAt: int, audience: string, requestNonce: string)

  datatype Status = Status(core: StatusCore, statusChecksum: string, proof: string)

  datatype Evidence = Evidence(bundle: Bundle, adoptionAcceptance: Acceptance, eligibilityStatus: Status,
                               verifiedAt: int, validUntil: int)

  /** Signatures, digests and the checks of the four events: pure functions that know no clock. */
  datatype Crypto = Crypto(
    sources: (string, Policy) -> Option<Source>,
    coreDigest: EligibilityCore -> string,
    adoptionIdOf: (Source, string, string) -> string,
    adoptionSays: (string, Source, string) -> bool,
    requestDigest: string -> string,
    acceptanceDigest: AcceptanceCore -> string,
    statusDigest: StatusCore -> string,
    receiptProof: (Policy, EligibilityReceipt) -> bool,
    statusProof: (Policy, Status) -> bool)

  predicate IsTime(n: int) {
    0 <= n <= Binary64.MAX_SAFE_INTEGER
  }

  predicate IsNonce(s: string) {
    |s| == 64 && forall i :: 0 <= i < 64 ==> '0' <= s[i] <= '9' || 'a' <= s[i] <= 'f'
  }

  datatype Inspected = Inspected(bundle: Bundle, source: Source, adoptionId: string, startedAt: int)

  function ExpectedCore(p: Policy, s: Source, issuedAt: int, expiresAt: int): EligibilityCore {
    EligibilityCore(p.municipalityId, "municipal_civic_participation", s.adopterPubkey, s.suggestionId, s.topicId,
                    p.policyVersion, p.issuer, issuedAt, expiresAt, "civic_eligibility_only")
  }

  function ExpectedReceipt(c: Crypto, p: Policy, r: EligibilityReceipt): EligibilityReceipt {
    var sum := c.coreDigest(r.core);
    EligibilityReceipt("municipal_civic_eligibility_receipt_v1", r.core,
                       "urn:stadtstack:municipal-civic-eligibility-receipt:" + sum, sum,
                       p.statusBaseUrl + "/" + sum, r.proof)
  }

  /** `inspectBundle`: the receipt must be in force at `startedAt`. */
  function InspectBundle(c: Crypto, p: Policy, b: Bundle, startedAt: int): Result<Inspected> {
    var source := c.sources(b.events, p);
    if source.None? then Err(CitizenAdoptionBundleInvalid)
    else
      var s, core := source.value, b.receipt.core;
      if !(IsTime(core.issuedAt) && IsTime(core.expiresAt) && core.expiresAt - core.issuedAt == p.receiptTtlSeconds
           && core.issuedAt <= startedAt < core.expiresAt && core.issuedAt >= s.suggestionAt) then
        Err(CitizenAdoptionReceiptExpired)
      else if core != ExpectedCore(p, s, core.issuedAt, core.expiresAt)
              || b.receipt != ExpectedReceipt(c, p, b.receipt) then
        Err(CitizenAdoptionBindingInvalid)
      else if !c.receiptProof(p, b.receipt) then Err(CitizenAdoptionProofInvalid)
      else
        var adoptionId := c.adoptionIdOf(s, b.receipt.receiptId, b.receipt.payloadChecksum);
        if !c.adoptionSays(b.events, s, adoptionId) then Err(CitizenAdoptionBindingInvalid)
        else Ok(Inspected(b, s, adoptionId, startedAt))
  }

  function Distance(a: int, b: int): nat {
    if a < b then b - a else a - b
  }

  function ExpectedAcceptance(c: Crypto, p: Policy, x: Inspected, receivedAt: int): AcceptanceCore {
    AcceptanceCore("citizen_topic_suggestion_adoption_acceptance_receipt_v1", x.adoptionId, x.source.adoptionId,
                   p.municipalityId, x.source.topicId, x.source.suggestionId, x.source.adopterPubkey,
                   x.bundle.receipt.receiptId,
                   c.requestDigest(x.bundle.events), x.source.adoptionAt, receivedAt, p.policyVersion, "accepted",
                   "civic_eligibility_only")
  }

  /** `inspectAcceptance`: received while the receipt was in force, not after `startedAt`, near the event's own time. */
  function InspectAcceptance(c: Crypto, p: Policy, x: Inspected, a: Acceptance): Result<Acceptance> {
    var core, at := x.bundle.receipt.core, a.core.receivedAt;
    if !(IsTime(at) && at <= x.startedAt && core.issuedAt <= at < core.expiresAt
         && core.issuedAt <= x.source.adoptionAt < core.expiresAt
         && Distance(at, x.source.adoptionAt) <= p.maxEventClockSkewSeconds) then Err(CitizenAdoptionAcceptanceInvalid)
    else if a.core != ExpectedAcceptance(c, p, x, at) || a.receiptChecksum != c.acceptanceDigest(a.core) then
      Err(CitizenAdoptionBindingInvalid)
    else Ok(a)
  }

  function ExpectedStatus(p: Policy, x: Inspected, s: StatusCore, nonce: string): StatusCore {
    StatusCore("municipal_civic_eligibility_status_v1", x.bundle.receipt.receiptId, x.bundle.receipt.payloadChecksum,
               p.policyVersion, "active", s.effectiveAt, s.observedAt, "stadtstack-case-steward-admission", nonce)
  }

  /**
   `inspectStatus`: observed between request and verification, and still fresh; the result is how long it
   stays valid.
   */
  function InspectStatus(c: Crypto, p: Policy, x: Inspected, s: Status, requestedAt: int, verifiedAt: int,
                         nonce: string): Result<int> {
    var core, o := x.bundle.receipt.core, s.core;
    if !(x.startedAt <= requestedAt <= verifiedAt < core.expiresAt
         && IsTime(o.observedAt) && IsTime(o.effectiveAt) && requestedAt <= o.observedAt <= verifiedAt
         && core.issuedAt <= o.effectiveAt <= o.observedAt
         && verifiedAt - o.observedAt < p.statusMaxAgeSeconds) then Err(CitizenAdoptionStatusStale)
    else if o != ExpectedStatus(p, x, o, nonce) then Err(CitizenAdoptionBindingInvalid)
    else if s.statusChecksum != c.statusDigest(o) then Err(CitizenAdoptionStatusInvalid)
    else if !c.statusProof(p, s) then Err(CitizenAdoptionProofInvalid)
    else Ok(Earlier(core.expiresAt, o.observedAt + p.statusMaxAgeSeconds))
  }

  function Earlier(a: int, b: int): int {
    if a < b then a else b
  }

  /**
   The live `inspect`: what the ledger and the status service answer, and the three readings of the clock,
   are given.
   */
  function InspectLive(c: Crypto, p: Policy, b: Bundle, a: Acceptance, s: Status,
                       startedAt: int, requestedAt: int, verifiedAt: int, nonce: string): Result<Evidence> {
    if !IsTime(startedAt) then Err(CitizenAdoptionTimeInvalid)
    else
      var x := InspectBundle(c, p, b, startedAt);
      if x.Err? then Err(x.code)
      else
        var acceptance := InspectAcceptance(c, p, x.value, a);
        if acceptance.Err? then Err(acceptance.code)
        else if !IsTime(requestedAt) then Err(CitizenAdoptionTimeInvalid)
        else if !(startedAt <= requestedAt < b.receipt.core.expiresAt) then Err(CitizenAdoptionReceiptExpired)
        else if !IsTime(verifiedAt) then Err(CitizenAdoptionTimeInvalid)
        else
          var until := InspectStatus(c, p, x.value, s, requestedAt, verifiedAt, nonce);
          if until.Err? then Err(until.code) else Ok(Evidence(b, a, s, verifiedAt, until.value))
  }

  /** `verifyRecordedCitizenAdoptionEvidence`: no clock. */
  function VerifyRecorded(c: Crypto, p: Policy, e: Evidence): Result<Evidence> {
    if !(IsTime(e.verifiedAt) && IsTime(e.validUntil)) then Err(CitizenAdoptionRecordInvalid)
    else
      var x := InspectBundle(c, p, e.bundle, e.verifiedAt);
      if x.Err? then Err(x.code)
      else
        var acceptance := InspectAcceptance(c, p, x.value, e.adoptionAcceptance);
        if acceptance.Err? then Err(acceptance.code)
        else
          var o := e.eligibilityStatus.core;
          if !(IsTime(o.observedAt) && o.observedAt >= acceptance.value.core.receivedAt && IsNonce(o.requestNonce)) then
            Err(CitizenAdoptionRecordInvalid)
          else
            var y := x.value.(startedAt := o.observedAt);
            var until := InspectStatus(c, p, y, e.eligibilityStatus, o.observedAt, e.verifiedAt, o.requestNonce);
            if until.Err? then Err(until.code)
            else if until.value != e.validUntil then Err(CitizenAdoptionRecordInvalid)
            else Ok(Evidence(e.bundle, e.adoptionAcceptance, e.eligibilityStatus, e.verifiedAt, until.value))
  }

  /** The policy's own bounds keep every deadline a safe integer. */
  predicate ValidPolicy(p: Policy) {
    60 <= p.receiptTtlSeconds <= 3600 && 1 <= p.statusMaxAgeSeconds <= 300 && p.maxEventClockSkewSeconds <= 300
  }

  /** A bundle that was accepted at one time is accepted at any time at which its receipt is in force. */
  lemma BundleAtAnotherTime(c: Crypto, p: Policy, b: Bundle, t: int, u: int)
    requires InspectBundle(c, p, b, t).Ok? && b.receipt.core.issuedAt <= u < b.receipt.core.expiresAt
    ensures InspectBundle(c, p, b, u) == Ok(InspectBundle(c, p, b, t).value.(startedAt := u))
    ensures InspectBundle(c, p, b, t).value.bundle == b && InspectBundle(c, p, b, t).value.startedAt == t
    ensures b.receipt.core.issuedAt <= t < b.receipt.core.expiresAt
    ensures b.receipt.core.expiresAt - b.receipt.core.issuedAt == p.receiptTtlSeconds
    ensures IsTime(b.receipt.core.issuedAt) && IsTime(b.receipt.core.expiresAt)
  {
    hide ExpectedCore, ExpectedReceipt;
  }

  /** An acceptance that was accepted is accepted at any time from its own on. */
  lemma AcceptanceAtAnotherTime(c: Crypto, p: Policy, x: Inspected, a: Acceptance, u: int)
    requires InspectAcceptance(c, p, x, a).Ok? && a.core.receivedAt <= u
    ensures InspectAcceptance(c, p, x.(startedAt := u), a) == Ok(a)
    ensures x.bundle.receipt.core.issuedAt <= a.core.receivedAt <= x.startedAt
  {
    assert ExpectedAcceptance(c, p, x.(startedAt := u), a.core.receivedAt)
        == ExpectedAcceptance(c, p, x, a.core.receivedAt);
    hide ExpectedAcceptance, Distance;
  }

  /**
   A status that was accepted is accepted for a start and a request at the time of its observation, with the
   same deadline.
   */
  lemma StatusAtItsObservation(c: Crypto, p: Policy, x: Inspected, s: Status, requestedAt: int, verifiedAt: int,
                               nonce: string)
    requires InspectStatus(c, p, x, s, requestedAt, verifiedAt, nonce).Ok?
    ensures var o := s.core;
            && InspectStatus(c, p, x.(startedAt := o.observedAt), s, o.observedAt, verifiedAt, o.requestNonce)
               == InspectStatus(c, p, x, s, requestedAt, verifiedAt, nonce)
            && InspectStatus(c, p, x, s, requestedAt, verifiedAt, nonce).value
               == Earlier(x.bundle.receipt.core.expiresAt, o.observedAt + p.statusMaxAgeSeconds)
            && o.requestNonce == nonce
            && x.startedAt <= requestedAt <= o.observedAt <= verifiedAt < x.bundle.receipt.core.expiresAt
            && IsTime(o.observedAt) && x.bundle.receipt.core.issuedAt <= o.effectiveAt <= o.observedAt
            && verifiedAt - o.observedAt < p.statusMaxAgeSeconds
  {
    assert ExpectedStatus(p, x.(startedAt := s.core.observedAt), s.core, nonce) == ExpectedStatus(p, x, s.core, nonce);
    assert ExpectedStatus(p, x, s.core, nonce).requestNonce == nonce;
    hide ExpectedStatus;
  }

  /**
   What the live verifier accepts, the recorded verifier accepts, unchanged; and it was verified strictly
   inside its validity.
   */
  lemma LiveIsRecorded(c: Crypto, p: Policy, b: Bundle, a: Acceptance, s: Status,
                       startedAt: int, requestedAt: int, verifiedAt: int, nonce: string)
    requires IsNonce(nonce) && ValidPolicy(p)
             && InspectLive(c, p, b, a, s, startedAt, requestedAt, verifiedAt, nonce).Ok?
    ensures var e := InspectLive(c, p, b, a, s, startedAt, requestedAt, verifiedAt, nonce).value;
            && VerifyRecorded(c, p, e) == Ok(e)
            && e.verifiedAt < e.validUntil
            == Earlier(b.receipt.core.expiresAt, s.core.observedAt + p.statusMaxAgeSeconds)
            && e == Evidence(b, a, s, verifiedAt, e.validUntil)
  {
    hide InspectBundle, InspectAcceptance, InspectStatus, IsNonce;
    BundleUnchanged(c, p, b, startedAt);
    var x := InspectBundle(c, p, b, startedAt).value;
    StatusAtItsObservation(c, p, x, s, requestedAt, verifiedAt, nonce);
    AcceptanceAtAnotherTime(c, p, x, a, startedAt) by { AcceptanceBound(c, p, x, a); }
    BundleAtAnotherTime(c, p, b, startedAt, verifiedAt);
    AcceptanceAtAnotherTime(c, p, x, a, verifiedAt);
  }

  lemma BundleUnchanged(c: Crypto, p: Policy, b: Bundle, t: int)
    requires InspectBundle(c, p, b, t).Ok?
    ensures InspectBundle(c, p, b, t).value.bundle == b && InspectBundle(c, p, b, t).value.startedAt == t
  {
    hide ExpectedCore, ExpectedReceipt;
  }

  lemma AcceptanceBound(c: Crypto, p: Policy, x: Inspected, a: Acceptance)
    requires InspectAcceptance(c, p, x, a).Ok?
    ensures a.core.receivedAt <= x.startedAt && InspectAcceptance(c, p, x, a) == Ok(a)
  {
    hide ExpectedAcceptance, Distance;
  }

  /** The recorded verifier accepts exactly what some live verification could have produced. */
  lemma RecordedIffLive(c: Crypto, p: Policy, e: Evidence)
    requires ValidPolicy(p)
    ensures VerifyRecorded(c, p, e).Ok? <==> CouldBeLive(c, p, e)
    ensures VerifyRecorded(c, p, e).Ok? ==> VerifyRecorded(c, p, e).value == e
  {
    hide VerifyRecorded, InspectLive, IsNonce;
    if VerifyRecorded(c, p, e).Ok? {
      RecordedIsLive(c, p, e);
    }
    if CouldBeLive(c, p, e) {
      var startedAt, requestedAt, nonce :| IsNonce(nonce) && LiveGives(c, p, e, startedAt, requestedAt, nonce);
      LiveIsRecorded(c, p, e.bundle, e.adoptionAcceptance, e.eligibilityStatus, startedAt, requestedAt,
                     e.verifiedAt, nonce);
    }
  }

  /**
   Recorded evidence is what a live verification gives that starts, and asks for the status, when the status
   was observed.
   */
  lemma RecordedIsLive(c: Crypto, p: Policy, e: Evidence)
    requires VerifyRecorded(c, p, e).Ok?
    ensures VerifyRecorded(c, p, e).value == e
    ensures var o := e.eligibilityStatus.core;
            IsNonce(o.requestNonce) && LiveGives(c, p, e, o.observedAt, o.observedAt, o.requestNonce)
  {
    hide InspectBundle, InspectAcceptance, InspectStatus, IsNonce;
    var o := e.eligibilityStatus.core;
    BundleUnchanged(c, p, e.bundle, e.verifiedAt);
    var x := InspectBundle(c, p, e.bundle, e.verifiedAt).value;
    AcceptanceBound(c, p, x, e.adoptionAcceptance);
    StatusAtItsObservation(c, p, x.(startedAt := o.observedAt), e.eligibilityStatus, o.observedAt, e.verifiedAt,
                           o.requestNonce);
    BundleAtAnotherTime(c, p, e.bundle, e.verifiedAt, o.observedAt);
    AcceptanceAtAnotherTime(c, p, x, e.adoptionAcceptance, o.observedAt);
  }

  ghost predicate LiveGives(c: Crypto, p: Policy, e: Evidence, startedAt: int, requestedAt: int, nonce: string) {
    InspectLive(c, p, e.bundle, e.adoptionAcceptance, e.eligibilityStatus, startedAt, requestedAt, e.verifiedAt, nonce)
    == Ok(e)
  }

  ghost predicate CouldBeLive(c: Crypto, p: Policy, e: Evidence) {
    exists startedAt, requestedAt, nonce :: IsNonce(nonce) && LiveGives(c, p, e, startedAt, requestedAt, nonce)
  }

  /** The order of all the times in recorded evidence. */
  lemma RecordedTimes(c: Crypto, p: Policy, e: Evidence)
    requires VerifyRecorded(c, p, e).Ok?
    ensures var core, o := e.bundle.receipt.core, e.eligibilityStatus.core;
            && core.issuedAt <= e.adoptionAcceptance.core.receivedAt <= o.observedAt
            && o.observedAt <= e.verifiedAt < e.validUntil <= core.expiresAt
            && core.issuedAt <= o.effectiveAt <= o.observedAt
            && e.validUntil - o.observedAt <= p.statusMaxAgeSeconds
            && core.expiresAt - core.issuedAt == p.receiptTtlSeconds
  {
    hide InspectBundle, InspectAcceptance, InspectStatus, IsNonce;
    var o := e.eligibilityStatus.core;
    BundleUnchanged(c, p, e.bundle, e.verifiedAt);
    var x := InspectBundle(c, p, e.bundle, e.verifiedAt).value;
    AcceptanceBound(c, p, x, e.adoptionAcceptance);
    StatusAtItsObservation(c, p, x.(startedAt := o.observedAt), e.eligibilityStatus, o.observedAt, e.verifiedAt,
                           o.requestNonce);
    BundleAtAnotherTime(c, p, e.bundle, e.verifiedAt, o.observedAt);
    AcceptanceAtAnotherTime(c, p, x, e.adoptionAcceptance, o.observedAt);
  }
}
