/**
 The records of one Case: commands, journal events with their payloads, and the state that replaying
 a journal builds. Fields whose only accepted value is one literal (schema versions, the authority
 binding "none", the visibility "private_case") are not represented.
 */
module CaseTypes {
  import opened Results
  import A = AdoptionEvidence

  datatype ActorClass =
    | Citizen | Public | Administration | Council
    | CaseSteward | DepartmentAgent | DepartmentReviewer | ParticipationReviewer

  datatype ActorBinding = ActorBinding(actorId: string, actorClass: ActorClass)

  datatype ActorRegistration = ActorRegistration(actorClass: ActorClass, departmentId: Option<string>)

  datatype Scope = Scope(municipalityId: string, caseId: string)

  /** `urn:stadtstack:case-event:<caseId>:<caseVersion>`. */
  datatype EventId = EventId(caseId: string, version: nat)

  datatype NostrEvent = NostrEvent(
    id: string, pubkey: string, createdAt: int, kind: int,
    tags: seq<seq<string>>, content: string, sig: string)

  datatype DiscussionEvent = DiscussionEvent(
    id: string, pubkey: string, createdAt: int, kind: int,
    content: string, tags: seq<seq<string>>, relayRefs: seq<string>)

  datatype Discussion = Discussion(
    id: string, sourceRef: string, municipalityId: string, caseId: string,
    signature: string, event: DiscussionEvent)

  datatype SourceReference = SourceReference(id: string, ref: string)

  datatype Suggestion = Suggestion(id: string, discussionId: string, title: string)

  datatype SuggestionDraftCore = SuggestionDraftCore(
    sourceAnswerReceiptId: string, sourceDiscussionId: string, sourceDiscussionRef: string,
    municipalityId: string, sourceCaseId: string, caseId: string,
    citizenPubkey: string, title: string, summary: string)

  datatype SuggestionDraft = SuggestionDraft(draftId: string, core: SuggestionDraftCore)

  datatype SignedSuggestion = SignedSuggestion(
    candidateId: string, signerPubkey: string, draft: SuggestionDraft, event: NostrEvent)

  datatype TopicSuggestion = TopicSuggestion(
    candidateId: string, signerPubkey: string, topicId: string, municipalityId: string,
    sourceAnswerReceiptId: string, title: string, summary: string, event: NostrEvent)

  /** What the topic verifier returns for three signed events. */
  datatype TopicAdmission = TopicAdmission(
    caseId: string, municipalityId: string, discussion: Discussion,
    sourceAnswer: NostrEvent, signedSuggestion: TopicSuggestion)

  /** Recorded evidence of an adoption: a citizen's, or the one of a synthetic tracer by its canonical text. */
  datatype AdoptionEvidence = CitizenEvidence(record: A.Evidence) | SyntheticEvidence(canonicalText: string)

  /** What the adoption verifiers return for recorded evidence. */
  datatype AdoptionAdmission = AdoptionAdmission(
    evidence: AdoptionEvidence, caseId: string, municipalityId: string,
    discussion: Discussion, title: string, idempotencyKey: string)

  datatype DepartmentPackage = DepartmentPackage(
    id: string, departmentId: string, suggestionId: string, request: string,
    assignedAgentActorId: string, assignedReviewerActorId: string)

  datatype Draft = Draft(
    id: string, publicSummary: string, publicCitations: seq<string>, privateEvidenceRefs: seq<string>)

  datatype Decision = Accepted | Rejected

  datatype Review = Review(
    packageId: string, draftArtifactChecksum: Checksum, decision: Decision, reviewedAt: string)

  datatype SourceBinding = SourceBinding(
    packageId: string, packageChecksum: Checksum,
    draftArtifactChecksum: Checksum, reviewAttestationChecksum: Checksum)

  datatype BriefInput = BriefInput(id: string, sourceBindings: seq<SourceBinding>)

  datatype Response = Response(departmentId: string, publicSummary: string, publicCitations: seq<string>)

  datatype PackageBinding = PackageBinding(binding: SourceBinding, departmentId: string, reviewedAt: string)

  datatype BriefBody = BriefBody(
    id: string, title: string, summary: string, responses: seq<Response>,
    sourceDiscussionRef: SourceReference, suggestionId: string,
    packageBindings: seq<PackageBinding>, policyVersion: string)

  /** A derived citizen brief; every stored one has the correction state "current". */
  datatype Brief = Brief(body: BriefBody, briefChecksum: Checksum)

  datatype ParticipationOption = ParticipationOption(optionId: string, optionLabel: string, aggregateCount: int)

  datatype RepresentationAudit = RepresentationAudit(
    targetPopulationDescription: string, recruitmentMethod: string, samplingMethod: Option<string>,
    totalInvited: Option<int>, totalStarted: int, totalCompleted: int, limitations: seq<string>)

  datatype ParticipationBody = ParticipationBody(
    id: string, contractId: string, contractVersion: int,
    methodKind: string, methodVersion: string, ruleId: string, ruleVersion: string,
    question: string, options: seq<ParticipationOption>, totalAccepted: int, resultSummary: string,
    unresolvedDissent: seq<string>, representationAudit: RepresentationAudit, limitations: seq<string>,
    openedAt: string, closedAt: string, reviewedAt: string,
    resultArtifactRef: string, minorityReportRef: Option<string>)

  datatype Participation = Participation(body: ParticipationBody, checksum: Checksum)

  datatype BriefReference = BriefReference(id: string, briefChecksum: Checksum)

  datatype ParticipationSource = ParticipationSource(brief: BriefReference, briefEventId: EventId)

  datatype ParticipationReference = ParticipationReference(id: string, participationChecksum: Checksum)

  datatype OutcomeInput = OutcomeInput(
    id: string, summary: string, resultArtifactRef: string, reviewedAt: string,
    sourceDiscussionRef: SourceReference, sourceBrief: BriefReference,
    sourceParticipation: ParticipationReference)

  datatype ReviewedOutcome = ReviewedOutcome(input: OutcomeInput, outcomeChecksum: Checksum)

  datatype Retraction = Retraction(
    packageId: string, packageChecksum: Checksum,
    targetDraftArtifactChecksum: Checksum, targetReviewAttestationChecksum: Checksum)

  datatype EventType =
    | CaseCreatedV1 | DiscussionRecordedV1 | SignedSuggestionAdmittedV1 | SignedTopicSuggestionAdmittedV1
    | CitizenAdoptionAdmittedV1 | SyntheticAdoptionAdmittedV1
    | PackageAssignedV1 | DraftRecordedV1 | ReviewAttestedV1 | BriefDerivedV1
    | DraftCorrectedV1 | ResponseRetractedV1
    | ParticipationRecordedV1 | ParticipationRetractedV1 | OutcomeRecordedV1

  datatype Payload =
    | CaseCreated(caseId: string, jurisdiction: string)
    | DiscussionRecorded(discussion: Discussion, suggestion: Suggestion)
    | SignedAdmitted(signedSuggestion: SignedSuggestion, admissionChecksum: Checksum, policyVersion: string)
    | TopicAdmitted(topicSuggestion: TopicSuggestion, sourceAnswer: NostrEvent,
                    admissionChecksum: Checksum, policyVersion: string)
    | AdoptionAdmitted(evidence: AdoptionEvidence, admissionChecksum: Checksum, policyVersion: string)
    | PackageAssigned(departmentPackage: DepartmentPackage, packageChecksum: Checksum)
    | DraftRecorded(packageId: string, packageChecksum: Checksum, draft: Draft, draftArtifactChecksum: Checksum)
    | ReviewAttested(review: Review, policyVersion: string, attestationChecksum: Checksum)
    | BriefDerived(brief: Brief, sourceBindings: seq<SourceBinding>, briefChecksum: Checksum, policyVersion: string)
    | DraftCorrected(packageId: string, packageChecksum: Checksum, priorDraftArtifactChecksum: Checksum,
                     draft: Draft, draftArtifactChecksum: Checksum)
    | ResponseRetracted(retraction: Retraction)
    | ParticipationRecorded(participation: Participation, sourceBrief: ParticipationSource, policyVersion: string,
                            reviewerActorBinding: ActorBinding, reviewAttestationChecksum: Checksum)
    | ParticipationRetracted(target: ParticipationReference)
    | OutcomeRecorded(outcome: ReviewedOutcome, policyVersion: string)

  datatype Header = Header(
    eventId: EventId, caseId: string, caseVersion: int, eventType: EventType,
    priorEventChecksum: Checksum, actorBinding: ActorBinding,
    payloadChecksum: Checksum, correctionOf: Option<EventId>)

  datatype Event = Event(header: Header, eventChecksum: Checksum, payload: Payload)

  /**
   The SHA-256 of the canonical JSON of a value, represented by that value: equal digests have equal
   preimages, which is the one assumption made about the hash. The preimages of different
   constructors are records with different fields. `Raw` stands for a well-formed digest text that
   is the hash of none of them.
   */
  datatype Checksum =
    | Raw(text: string)
    | OfGenesis(caseId: string)
    | OfEvent(header: Header)
    | OfPayload(payload: Payload)
    | OfPackage(departmentPackage: DepartmentPackage)
    | OfDraft(draft: Draft)
    | OfAttestation(review: Review, policyVersion: string, actor: ActorBinding)
    | OfSignedAdmission(signed: SignedSuggestion, policyVersion: string, actor: ActorBinding)
    | OfTopicAdmission(topic: TopicSuggestion, answer: NostrEvent, caseId: string,
                       policyVersion: string, actor: ActorBinding)
    | OfAdoptionAdmission(evidence: AdoptionEvidence, caseId: string, policyVersion: string, actor: ActorBinding)
    | OfBrief(brief: BriefBody)
    | OfParticipation(participation: ParticipationBody, source: ParticipationSource,
                      policyVersion: string, actor: ActorBinding, reviewedAt: string)
    | OfParticipationAttestation(checksum: Checksum, source: ParticipationSource,
                                 policyVersion: string, actor: ActorBinding, reviewedAt: string)
    | OfOutcome(outcome: OutcomeInput)
    | OfCommand(caseId: string, actor: ActorBinding, expectedCaseVersion: int,
                policyVersion: string, effect: Effect)

  datatype CommandBody =
    | IntakeDiscussion(discussion: Discussion)
    | AdmitSignedSuggestion(signedSuggestion: SignedSuggestion)
    | AdmitSignedTopicSuggestion(sourceDiscussion: NostrEvent, sourceAnswer: NostrEvent,
                                 topicSuggestion: TopicSuggestion)
    | AdmitCitizenAdoption(evidence: AdoptionEvidence)
    | AdmitSyntheticAdoption(evidence: AdoptionEvidence)
    | AssignDepartmentPackage(departmentPackage: DepartmentPackage)
    | RecordDepartmentDraft(packageId: string, packageChecksum: Checksum, draft: Draft)
    | AttestDepartmentReview(review: Review)
    | DeriveCitizenBrief(brief: BriefInput)
    | CorrectDepartmentDraft(packageId: string, packageChecksum: Checksum,
                             priorDraftArtifactChecksum: Checksum, draft: Draft)
    | RetractDepartmentResponse(retraction: Retraction)
    | RecordAdvisoryParticipation(participation: Participation, sourceBrief: BriefReference)
    | RetractAdvisoryParticipation(target: ParticipationReference)
    | RecordReviewedOutcome(outcome: OutcomeInput)

  datatype Command = Command(
    caseId: string, actor: ActorBinding, expectedCaseVersion: int,
    idempotencyKey: string, policyVersion: string, body: CommandBody)

  /** What a fingerprint binds: the normalised body, or the verified parts of an admission. */
  datatype Effect =
    | Plain(body: CommandBody)
    | TopicEffect(topic: TopicAdmission)
    | AdoptionEffect(synthetic: bool, evidence: AdoptionEvidence, caseId: string, municipalityId: string)

  datatype CorrectionState = Current | Corrected | Retracted

  datatype DraftRecord = DraftRecord(
    draft: Draft, draftArtifactChecksum: Checksum, actorBinding: ActorBinding, eventId: EventId)

  datatype ReviewRecord = ReviewRecord(
    review: Review, policyVersion: string, actorBinding: ActorBinding,
    attestationChecksum: Checksum, eventId: EventId)

  datatype Department = Department(
    pkg: DepartmentPackage, packageChecksum: Checksum,
    draft: Option<DraftRecord>, review: Option<ReviewRecord>, correctionState: CorrectionState)

  datatype SourceEvents = SourceEvents(draftEventId: EventId, reviewEventId: EventId)

  datatype BriefRecord = BriefRecord(
    brief: Brief, eventId: EventId, sourceEventIds: map<string, SourceEvents>)

  datatype ParticipationRecord = ParticipationRecord(
    participation: Participation, sourceBrief: ParticipationSource, policyVersion: string,
    reviewerActorBinding: ActorBinding, reviewAttestationChecksum: Checksum,
    eventId: EventId, retracted: bool)

  datatype OutcomeRecord = OutcomeRecord(outcome: ReviewedOutcome, eventId: EventId)

  datatype Admission =
    | SignedAdmission(signed: SignedSuggestion, admissionChecksum: Checksum, eventId: EventId)
    | TopicAdmissionRecord(topic: TopicSuggestion, answer: NostrEvent, admissionChecksum: Checksum, eventId: EventId)
    | AdoptionAdmissionRecord(evidence: AdoptionEvidence, admissionChecksum: Checksum, eventId: EventId)

  /** The local variables of a replay. Departments are in the insertion order of their packages. */
  datatype CaseState = CaseState(
    prior: Checksum, discussion: Option<Discussion>, suggestion: Option<Suggestion>,
    admission: Option<Admission>, departments: seq<Department>,
    brief: Option<BriefRecord>, participation: Option<ParticipationRecord>, outcome: Option<OutcomeRecord>)

  datatype Receipt = Receipt(caseVersion: nat, eventIds: seq<EventId>, journalHeadChecksum: Checksum)

  datatype IdempotencyEntry = IdempotencyEntry(fingerprint: Checksum, receipt: Receipt)

  /** The coordinator's options after `normalizeOptions`. */
  datatype Options = Options(
    caseId: string, jurisdiction: string, policyVersion: string, scope: Option<Scope>,
    actors: map<string, ActorRegistration>, allowedSignerPubkeys: Option<set<string>>,
    citizenAdoption: bool, syntheticAdoption: bool, syntheticDepartmentReview: bool,
    requiredDepartmentIds: Option<seq<string>>, requireSignedSuggestionAdmission: bool)

  /** Regular expressions, cryptographic checks and verifiers of other files, as pure functions. */
  datatype Env = Env(
    secret: string -> bool,
    secretValue: string -> bool,
    privateDepartmentValue: string -> bool,
    participationValue: string -> bool,
    publicReference: string -> bool,
    syntheticReference: string -> bool,
    canonicalInstant: string -> bool,
    utcMillis: string -> Option<int>,
    validNostr: NostrEvent -> bool,
    draftIdFor: SuggestionDraftCore -> string,
    parseDraft: string -> Option<SuggestionDraft>,
    adaptDiscussion: NostrEvent -> Result<Discussion>,
    verifyTopic: (NostrEvent, NostrEvent, TopicSuggestion) -> Result<TopicAdmission>,
    verifyAdoption: (bool, AdoptionEvidence) -> Result<AdoptionAdmission>)
}
