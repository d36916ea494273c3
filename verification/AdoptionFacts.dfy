/** What accepted adoption evidence says, condition by condition. */
module AdoptionFacts {
  import opened Results
  import opened AdoptionEvidence

  /** The receipt of the issuer: for the adopter, under the policy, with its own digest in its id, and signed. */
  predicate GoodReceipt(c: Crypto, p: Policy, s: Source, r: EligibilityReceipt) {
    var core := r.core;
    && core.municipalityId == p.municipalityId && core.eligibilityClass == "municipal_civic_participation"
    && core.subjectPubkey == s.adopterPubkey && core.participantSuggestionId == s.suggestionId
    && core.topicId == s.topicId && core.policyVersion == p.policyVersion && core.issuer == p.issuer
    && core.authorityBinding == "civic_eligibility_only"
    && r.schemaVersion == "municipal_civic_eligibility_receipt_v1"
    && r.payloadChecksum == c.coreDigest(core)
    && r.receiptId == "urn:stadtstack:municipal-civic-eligibility-receipt:" + r.payloadChecksum
    && r.statusRef == p.statusBaseUrl + "/" + r.payloadChecksum
    && c.receiptProof(p, r)
  }

  /** The receipt is in force for its whole life, begins after the suggestion, and the adoption falls into it. */
  predicate GoodLife(p: Policy, s: Source, r: EligibilityReceipt) {
    var core := r.core;
    && IsTime(core.issuedAt) && IsTime(core.expiresAt) && core.expiresAt == core.issuedAt + p.receiptTtlSeconds
    && s.suggestionAt <= core.issuedAt <= s.adoptionAt < core.expiresAt
  }

  /** The ledger accepted this very adoption. */
  predicate GoodAcceptance(c: Crypto, p: Policy, s: Source, e: Evidence) {
    var core, r := e.adoptionAcceptance.core, e.bundle.receipt;
    && core.schemaVersion == "citizen_topic_suggestion_adoption_acceptance_receipt_v1"
    && core.adoptionId == c.adoptionIdOf(s, r.receiptId, r.payloadChecksum) && core.adoptionEventId == s.adoptionId
    && core.municipalityId == p.municipalityId && core.topicId == s.topicId
    && core.participantSuggestionId == s.suggestionId && core.adopterPubkey == s.adopterPubkey
    && core.eligibilityReceiptId == r.receiptId && core.requestChecksum == c.requestDigest(e.bundle.events)
    && core.eventCreatedAt == s.adoptionAt && core.policyVersion == p.policyVersion && core.status == "accepted"
    && core.authorityBinding == "civic_eligibility_only"
    && e.adoptionAcceptance.receiptChecksum == c.acceptanceDigest(core)
  }

  /** The issuer says that the receipt is active, to this audience, and signed it. */
  predicate GoodStatus(c: Crypto, p: Policy, e: Evidence) {
    var s, r := e.eligibilityStatus, e.bundle.receipt;
    && s.core.schemaVersion == "municipal_civic_eligibility_status_v1"
    && s.core.receiptId == r.receiptId && s.core.payloadChecksum == r.payloadChecksum
    && s.core.policyVersion == p.policyVersion && s.core.state == "active"
    && s.core.audience == "stadtstack-case-steward-admission" && IsNonce(s.core.requestNonce)
    && s.statusChecksum == c.statusDigest(s.core) && c.statusProof(p, s)
  }

  /**
   Received near the adoption, observed after that, verified while the observation is fresh and the receipt
   in force.
   */
  predicate GoodTimes(p: Policy, s: Source, e: Evidence) {
    var core, o, received := e.bundle.receipt.core, e.eligibilityStatus.core, e.adoptionAcceptance.core.receivedAt;
    && IsTime(received) && IsTime(o.effectiveAt) && IsTime(o.observedAt) && IsTime(e.verifiedAt) && IsTime(e.validUntil)
    && core.issuedAt <= received <= o.observedAt <= e.verifiedAt < core.expiresAt
    && s.adoptionAt - p.maxEventClockSkewSeconds <= received <= s.adoptionAt + p.maxEventClockSkewSeconds
    && core.issuedAt <= o.effectiveAt <= o.observedAt && e.verifiedAt < o.observedAt + p.statusMaxAgeSeconds
    && e.validUntil <= core.expiresAt && e.validUntil <= o.observedAt + p.statusMaxAgeSeconds
    && (e.validUntil == core.expiresAt || e.validUntil == o.observedAt + p.statusMaxAgeSeconds)
  }

  predicate GoodEvidence(c: Crypto, p: Policy, e: Evidence) {
    var source := c.sources(e.bundle.events, p);
    && source.Some?
    && var s, r := source.value, e.bundle.receipt;
    && GoodReceipt(c, p, s, r) && GoodLife(p, s, r)
    && c.adoptionSays(e.bundle.events, s, c.adoptionIdOf(s, r.receiptId, r.payloadChecksum))
    && GoodAcceptance(c, p, s, e) && GoodStatus(c, p, e) && GoodTimes(p, s, e)
  }

  lemma BundleExactly(c: Crypto, p: Policy, b: Bundle, t: int)
    ensures InspectBundle(c, p, b, t).Ok? <==>
            && c.sources(b.events, p).Some?
            && var s := c.sources(b.events, p).value;
            && GoodReceipt(c, p, s, b.receipt)
            && IsTime(b.receipt.core.issuedAt) && IsTime(b.receipt.core.expiresAt)
            && b.receipt.core.expiresAt == b.receipt.core.issuedAt + p.receiptTtlSeconds
            && s.suggestionAt <= b.receipt.core.issuedAt <= t < b.receipt.core.expiresAt
            && c.adoptionSays(b.events, s, c.adoptionIdOf(s, b.receipt.receiptId, b.receipt.payloadChecksum))
    ensures InspectBundle(c, p, b, t).Ok? ==>
              InspectBundle(c, p, b, t).value
              == Inspected(b, c.sources(b.events, p).value,
                           c.adoptionIdOf(c.sources(b.events, p).value, b.receipt.receiptId, b.receipt.payloadChecksum),
                           t)
  {
  }

  lemma AcceptanceExactly(c: Crypto, p: Policy, x: Inspected, e: Evidence)
    requires x.bundle == e.bundle
    requires x.adoptionId == c.adoptionIdOf(x.source, x.bundle.receipt.receiptId, x.bundle.receipt.payloadChecksum)
    ensures var core, at := x.bundle.receipt.core, e.adoptionAcceptance.core.receivedAt;
            InspectAcceptance(c, p, x, e.adoptionAcceptance).Ok? <==>
            && GoodAcceptance(c, p, x.source, e) && IsTime(at) && at <= x.startedAt
            && core.issuedAt <= at < core.expiresAt && core.issuedAt <= x.source.adoptionAt < core.expiresAt
            && x.source.adoptionAt - p.maxEventClockSkewSeconds <= at
            && at <= x.source.adoptionAt + p.maxEventClockSkewSeconds
    ensures InspectAcceptance(c, p, x, e.adoptionAcceptance).Ok? ==>
              InspectAcceptance(c, p, x, e.adoptionAcceptance).value == e.adoptionAcceptance
  {
  }

  lemma StatusExactly(c: Crypto, p: Policy, x: Inspected, e: Evidence, requestedAt: int, nonce: string)
    requires x.bundle == e.bundle && IsNonce(nonce)
    ensures var core, o := x.bundle.receipt.core, e.eligibilityStatus.core;
            InspectStatus(c, p, x, e.eligibilityStatus, requestedAt, e.verifiedAt, nonce).Ok? <==>
            && GoodStatus(c, p, e) && o.requestNonce == nonce && IsTime(o.observedAt) && IsTime(o.effectiveAt)
            && x.startedAt <= requestedAt <= o.observedAt <= e.verifiedAt < core.expiresAt
            && core.issuedAt <= o.effectiveAt <= o.observedAt && e.verifiedAt < o.observedAt + p.statusMaxAgeSeconds
    ensures var core, o := x.bundle.receipt.core, e.eligibilityStatus.core;
            InspectStatus(c, p, x, e.eligibilityStatus, requestedAt, e.verifiedAt, nonce).Ok? ==>
              InspectStatus(c, p, x, e.eligibilityStatus, requestedAt, e.verifiedAt, nonce).value
              == Earlier(core.expiresAt, o.observedAt + p.statusMaxAgeSeconds)
  {
    hide IsNonce;
  }

  lemma NonceOfStatus(c: Crypto, p: Policy, e: Evidence)
    requires GoodStatus(c, p, e)
    ensures IsNonce(e.eligibilityStatus.core.requestNonce)
  {
    hide IsNonce;
  }

  /** The recorded verifier accepts exactly the evidence of which all of this holds. */
  lemma AcceptedExactly(c: Crypto, p: Policy, e: Evidence)
    ensures VerifyRecorded(c, p, e).Ok? <==> GoodEvidence(c, p, e)
    ensures VerifyRecorded(c, p, e).Ok? ==> VerifyRecorded(c, p, e).value == e
  {
    hide InspectBundle, InspectAcceptance, InspectStatus, GoodReceipt, GoodAcceptance, GoodStatus, IsNonce;
    BundleExactly(c, p, e.bundle, e.verifiedAt);
    var bundle, o := InspectBundle(c, p, e.bundle, e.verifiedAt), e.eligibilityStatus.core;
    if bundle.Ok? {
      AcceptanceExactly(c, p, bundle.value, e);
      if IsNonce(o.requestNonce) {
        StatusExactly(c, p, bundle.value.(startedAt := o.observedAt), e, o.observedAt, o.requestNonce);
      }
      if GoodStatus(c, p, e) {
        NonceOfStatus(c, p, e);
      }
    }
  }

  /** So does a live verification, whatever its nonce and the three readings of its clock. */
  lemma LiveExactly(c: Crypto, p: Policy, e: Evidence)
    requires ValidPolicy(p)
    ensures CouldBeLive(c, p, e) <==> GoodEvidence(c, p, e)
  {
    hide CouldBeLive, GoodEvidence;
    RecordedIffLive(c, p, e);
    AcceptedExactly(c, p, e);
  }

  /**
   A live verification succeeds exactly on good evidence whose acceptance was received before it started, and
   whose status was observed after it asked for it, with its nonce; its result is valid as long as it can be.
   */
  lemma LiveExactlyAt(c: Crypto, p: Policy, b: Bundle, a: Acceptance, s: Status,
                      startedAt: int, requestedAt: int, verifiedAt: int, nonce: string)
    requires ValidPolicy(p) && IsNonce(nonce)
    ensures var core, o := b.receipt.core, s.core;
            var e := Evidence(b, a, s, verifiedAt, Earlier(core.expiresAt, o.observedAt + p.statusMaxAgeSeconds));
            var live := InspectLive(c, p, b, a, s, startedAt, requestedAt, verifiedAt, nonce);
            && (live.Ok? <==>
                && GoodEvidence(c, p, e) && IsTime(startedAt) && IsTime(requestedAt) && o.requestNonce == nonce
                && a.core.receivedAt <= startedAt <= requestedAt <= o.observedAt)
            && (live.Ok? ==> live.value == e)
  {
    hide InspectBundle, InspectAcceptance, InspectStatus, GoodReceipt, GoodAcceptance, GoodStatus, IsNonce;
    BundleExactly(c, p, b, startedAt);
    var until := Earlier(b.receipt.core.expiresAt, s.core.observedAt + p.statusMaxAgeSeconds);
    var bundle := InspectBundle(c, p, b, startedAt);
    if bundle.Ok? {
      AcceptanceExactly(c, p, bundle.value, Evidence(b, a, s, verifiedAt, until));
      StatusExactly(c, p, bundle.value, Evidence(b, a, s, verifiedAt, until), requestedAt, nonce);
    }
  }
}
