/**
 The citizen adoption verifier of a Case: the verifier of recorded evidence, and the Case that the evidence
 founds.
 */
module CaseAdoption {
  import opened Results
  import opened CaseTypes
  import opened CaseId
  import opened CaseAgreement
  import A = AdoptionEvidence

  /** A SHA-256 in hexadecimal. */
  type Entropy = s: string | |s| == 64 && AllHex(s)
    witness seq(64, i => '0')

  /** The signed root event of a bundle, and the hash of an event id. */
  datatype Reader = Reader(root: string -> NostrEvent, idDigest: string -> Entropy)

  /** What `verifyCitizenAdoptionPolicy` has checked. */
  predicate VerifiedPolicy(p: A.Policy) {
    A.ValidPolicy(p) && IsMunicipality(p.municipalityId)
  }

  /** When the adoption was signed, if the signed events of the evidence are good. */
  function AdoptionTime(c: A.Crypto, p: A.Policy, e: A.Evidence): Option<nat> {
    var s := c.sources(e.bundle.events, p);
    if s.None? then None else Some(s.value.adoptionAt)
  }

  /** `verifyCitizenAdoptionCaseAdmission`. */
  function VerifyCitizenAdmission(c: A.Crypto, p: A.Policy, r: Reader,
                                  input: AdoptionEvidence): Result<AdoptionAdmission>
    requires VerifiedPolicy(p)
  {
    if input.SyntheticEvidence? then Err(CitizenAdoptionShapeInvalid)
    else
      var evidence :- A.VerifyRecorded(c, p, input.record);
      var s := c.sources(input.record.bundle.events, p).value;
      var uuid :- DeriveCaseUuidV7(s.adoptionAt, r.idDigest(s.adoptionId));
      assert IsUuidV7(uuid) by { DerivedUuid(s.adoptionAt, r.idDigest(s.adoptionId)); }
      var caseId := CanonicalMunicipalCaseId(p.municipalityId, uuid).value;
      Ok(AdoptionAdmission(CitizenEvidence(evidence), caseId, p.municipalityId,
                           CaseDiscussion(r.root(evidence.bundle.events), p.municipalityId, caseId),
                           s.title, "roebel:admit-citizen-adoption:" + s.adoptionId))
  }

  /**
   Evidence founds a Case exactly if some live verification could have given it and 48 bits hold the time
   of the adoption. The evidence is kept as it is, and the id of the Case names the municipality of the
   policy and that time.
   */
  lemma AdmittedIffLive(c: A.Crypto, p: A.Policy, r: Reader, e: A.Evidence)
    requires VerifiedPolicy(p)
    ensures VerifyCitizenAdmission(c, p, r, CitizenEvidence(e)).Ok? <==>
            A.CouldBeLive(c, p, e) && AdoptionTime(c, p, e).Some?
            && AdoptionTime(c, p, e).value * 1000 <= LAST_UUID_TIME
    ensures var v := VerifyCitizenAdmission(c, p, r, CitizenEvidence(e));
            v.Ok? ==> && v.value.evidence == CitizenEvidence(e)
                      && var id := ParseMunicipalCaseId(v.value.caseId);
                      id.Some? && id.value.municipalityId == p.municipalityId && IsUuidV7(id.value.uuidV7)
                      && AdoptionTime(c, p, e).Some?
                      && UuidTime(id.value.uuidV7) == AdoptionTime(c, p, e).value * 1000
  {
    hide A.CouldBeLive;
    A.RecordedIffLive(c, p, e);
    if A.VerifyRecorded(c, p, e).Ok? {
      var s := c.sources(e.bundle.events, p).value;
      DerivedUuid(s.adoptionAt, r.idDigest(s.adoptionId));
      if VerifyCitizenAdmission(c, p, r, CitizenEvidence(e)).Ok? {
        var u := DeriveCaseUuidV7(s.adoptionAt, r.idDigest(s.adoptionId)).value;
        PrintAndParse(MUNICIPAL_CASE_ID_PREFIX, p.municipalityId, u,
                      CanonicalMunicipalCaseId(p.municipalityId, u).value);
      }
    }
  }

  /**
   What an admission says: the signed root event is the discussion of the Case, whose id is made of the time of
   the adoption and of the hash of its event id; title and key are those of the adoption.
   */
  lemma AdmissionSays(c: A.Crypto, p: A.Policy, r: Reader, e: A.Evidence)
    requires VerifiedPolicy(p) && VerifyCitizenAdmission(c, p, r, CitizenEvidence(e)).Ok?
    ensures c.sources(e.bundle.events, p).Some?
    ensures var v, s := VerifyCitizenAdmission(c, p, r, CitizenEvidence(e)).value, c.sources(e.bundle.events, p).value;
            var root, entropy := r.root(e.bundle.events), r.idDigest(s.adoptionId);
            && v.title == s.title && v.idempotencyKey == "roebel:admit-citizen-adoption:" + s.adoptionId
            && v.municipalityId == p.municipalityId
            && v.discussion.municipalityId == p.municipalityId && v.discussion.caseId == v.caseId
            && v.discussion.id == root.id && v.discussion.sourceRef == "nostr://event/" + root.id
            && v.discussion.signature == root.sig
            && v.discussion.event == DiscussionEvent(root.id, root.pubkey, root.createdAt, 1, root.content,
                                                     root.tags, [])
            && |v.caseId| > 36
            && v.caseId[..|v.caseId| - 36] == "urn:stadtstack:case:municipality:" + p.municipalityId + ":"
            && var u := v.caseId[|v.caseId| - 36..];
            && u[14..18] == "7" + entropy[..3] && IsHex(u[19]) && DigitOf(u[19]) == 8 + DigitOf(entropy[3]) % 4
            && u[20..23] == entropy[4..7] && u[24..] == entropy[7..19]
  {
    hide A.CouldBeLive, A.VerifyRecorded, DeriveCaseUuidV7, HexNumber;
    AdmittedIffLive(c, p, r, e);
    var s := c.sources(e.bundle.events, p).value;
    var u := DeriveCaseUuidV7(s.adoptionAt, r.idDigest(s.adoptionId)).value;
    DerivedUuid(s.adoptionAt, r.idDigest(s.adoptionId));
    UuidGroups(s.adoptionAt, r.idDigest(s.adoptionId));
    var id := VerifyCitizenAdmission(c, p, r, CitizenEvidence(e)).value.caseId;
    assert id == MUNICIPAL_CASE_ID_PREFIX + p.municipalityId + ":" + u;
    assert id[|id| - 36..] == u && id[..|id| - 36] == MUNICIPAL_CASE_ID_PREFIX + p.municipalityId + ":";
  }

  /** With this verifier the assumption about recorded citizen adoptions is a fact. */
  lemma CitizenAdoptionsStable(env: Env, c: A.Crypto, p: A.Policy, r: Reader, e: AdoptionEvidence)
    requires VerifiedPolicy(p)
    requires forall x :: env.verifyAdoption(false, x) == VerifyCitizenAdmission(c, p, r, x)
    requires env.verifyAdoption(false, e).Ok?
    ensures AdoptionStable(env, false, e)
  {
    AdmittedIffLive(c, p, r, e.record);
  }
}
