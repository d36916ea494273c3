/** The normalisers of command payloads, used both when a command arrives and when a journal is replayed. */
module CaseNormalize {
  import opened Results
  import opened Texts
  import opened Binary64
  import opened CaseTypes
  import S = Sorting

  const DETERMINISTIC_REVIEWED_AT := "2026-08-08T00:00:05.000Z"
  const DETERMINISTIC_PARTICIPATION_REVIEWED_AT := "2026-08-08T00:00:05.000Z"
  const DETERMINISTIC_OUTCOME_REVIEWED_AT := "2026-08-10T00:00:00.000Z"
  const FIXTURE_TAG_NAME := "t"
  const FIXTURE_TAG_VALUE := "stadtstack-e2e-fixture"
  const MECKY_ANSWER_PREFIX := "urn:stadtstack:mecky-answer:"
  const SUGGESTION_PREFIX := "urn:stadtstack:suggestion:"
  const SIGNED_SUGGESTION_PREFIX := "urn:stadtstack:signed-suggestion:"
  const NOSTR_PREFIX := "nostr://event/"

  predicate SafeInteger(n: int) {
    n <= MAX_SAFE_INTEGER && -n <= MAX_SAFE_INTEGER
  }

  predicate IsHex64(s: string) {
    |s| == 64 && forall i :: 0 <= i < 64 ==> '0' <= s[i] <= '9' || 'a' <= s[i] <= 'f'
  }

  predicate StartsWith(s: string, prefix: string) {
    prefix <= s
  }

  function NonEmpty(env: Env, s: string, code: ErrorCode): Result<string> {
    if !(Trim(s) != "") then Err(code)
    else
      :- Need(!env.secret(s), SecretMaterialForbidden(code));
      Ok(Trim(s))
  }

  function DepartmentText(env: Env, s: string, code: ErrorCode, limit: nat): Result<string> {
    var r :- NonEmpty(env, s, code);
    :- Need(!env.privateDepartmentValue(r), PrivateFieldForbidden(code));
    :- Need(|r| <= limit, DepartmentValueTooLarge(code));
    Ok(r)
  }

  /** The checked form of every element, or the first error. */
  function MapAll<A, B>(f: A -> Result<B>, xs: seq<A>): Result<seq<B>> {
    if xs == [] then Ok([])
    else
      var first :- f(xs[0]);
      var rest :- MapAll(f, xs[1..]);
      Ok([first] + rest)
  }

  function DepartmentTextOf(env: Env, code: ErrorCode, limit: nat): string -> Result<string> {
    (s: string) => DepartmentText(env, s, code, limit)
  }

  function ParticipationText(env: Env, s: string, code: ErrorCode, limit: nat): Result<string> {
    var r :- NonEmpty(env, s, code);
    :- Need(|r| <= limit, ParticipationValueTooLarge(code));
    :- Need(!env.participationValue(r), RawParticipationDataForbidden(code));
    Ok(r)
  }

  function ParticipationTextOf(env: Env, code: ErrorCode): string -> Result<string> {
    (s: string) => ParticipationText(env, s, code, 2048)
  }

  /** `participationStringArray`: normalised and sorted. */
  function ParticipationTextArray(env: Env, xs: seq<string>, code: ErrorCode): Result<seq<string>> {
    if !(|xs| <= 64) then Err(ParticipationResultShapeInvalid(code))
    else
      var r :- MapAll(ParticipationTextOf(env, code), xs);
      Ok(S.Sort(Itself, r))
  }

  function Itself(s: string): string {
    s
  }

  function Count(n: int, code: ErrorCode): Result<nat> {
    if !(SafeInteger(n)) then Err(code)
    else
      :- Need(n >= 0, ParticipationCountInvalid(code));
      Ok(n)
  }

  function NormalizeActor(env: Env, actor: ActorBinding): Result<ActorBinding> {
    var id :- NonEmpty(env, actor.actorId, ActorBindingRequired);
    Ok(actor.(actorId := id))
  }

  predicate SecretFree(env: Env, e: DiscussionEvent) {
    && (forall tag, part | tag in e.tags && part in tag :: !env.secretValue(part))
    && (forall ref | ref in e.relayRefs :: !env.secretValue(ref))
  }

  /** `normalizeArtifactShape`. */
  function NormalizeArtifact(env: Env, d: Discussion): Result<Discussion> {
    var id :- NonEmpty(env, d.id, DiscussionProofInvalid);
    var sourceRef :- NonEmpty(env, d.sourceRef, DiscussionProofInvalid);
    var municipalityId :- NonEmpty(env, d.municipalityId, DiscussionScopeMissing);
    var caseId :- NonEmpty(env, d.caseId, DiscussionScopeMissing);
    var signature :- NonEmpty(env, d.signature, DiscussionSignatureRequired);
    var eventId :- NonEmpty(env, d.event.id, DiscussionEventInvalid);
    var pubkey :- NonEmpty(env, d.event.pubkey, DiscussionEventInvalid);
    :- Need(SafeInteger(d.event.createdAt), DiscussionEventInvalid);
    :- Need(SafeInteger(d.event.kind), DiscussionEventInvalid);
    var content :- NonEmpty(env, d.event.content, DiscussionEventInvalid);
    :- Need(!env.secretValue(content), SecretMaterialForbidden(DiscussionEventInvalid));
    :- Need(SecretFree(env, d.event), SecretMaterialForbidden(DiscussionEventInvalid));
    :- Need(eventId == id, DiscussionProofInvalid);
    :- Need(StartsWith(sourceRef, NOSTR_PREFIX), DiscussionProofInvalid);
    Ok(Discussion(id, sourceRef, municipalityId, caseId, signature,
                  d.event.(id := eventId, pubkey := pubkey, content := content)))
  }

  function ToNostr(d: Discussion): NostrEvent {
    NostrEvent(d.event.id, d.event.pubkey, d.event.createdAt, d.event.kind, d.event.tags, d.event.content, d.signature)
  }

  /** The tags whose first part is `name`. */
  function Named(tags: seq<seq<string>>, name: string): seq<seq<string>> {
    if tags == [] then []
    else (if tags[0] != [] && tags[0][0] == name then [tags[0]] else []) + Named(tags[1..], name)
  }

  predicate SoleTag(tags: seq<seq<string>>, name: string, value: string) {
    Named(tags, name) == [[name, value]]
  }

  /** The scope tags name the artifact's scope once each; the fixture marker stands once. */
  function CheckTags(d: Discussion): Outcome {
    var tags := d.event.tags;
    if exists tag | tag in Named(tags, "municipality") + Named(tags, "case") :: |tag| != 2 then
      Fail(DiscussionScopeInvalid)
    else if !(SoleTag(tags, "municipality", d.municipalityId) && SoleTag(tags, "case", d.caseId)) then
      Fail(DiscussionScopeMismatch)
    else if !(Named(tags, "municipality_id") == [] && Named(tags, "municipalityId") == []
              && Named(tags, "case_id") == [] && Named(tags, "caseId") == []) then Fail(DiscussionScopeInvalid)
    else Need(SoleTag(tags, FIXTURE_TAG_NAME, FIXTURE_TAG_VALUE), DiscussionFixtureMarkerRequired)
  }

  /** `normalizeAndVerifyDiscussion`: on success the artifact is what the adapter makes of its own event. */
  function VerifyDiscussion(env: Env, opt: Options, input: Discussion): Result<Discussion> {
    var d :- NormalizeArtifact(env, input);
    :- Need(opt.scope.Some? ==> opt.scope.value == Scope(d.municipalityId, d.caseId), DiscussionScopeMismatch);
    :- CheckTags(d);
    :- Need(opt.allowedSignerPubkeys.Some? && d.event.pubkey in opt.allowedSignerPubkeys.value,
            DiscussionSignerNotAllowed);
    var adapted :- env.adaptDiscussion(ToNostr(d));
    :- Need(adapted == d, DiscussionProofInvalid);
    Ok(d)
  }

  function NormalizePackage(env: Env, p: DepartmentPackage): Result<DepartmentPackage> {
    var code := DepartmentPackageInvalid;
    var id :- DepartmentText(env, p.id, code, 512);
    var departmentId :- DepartmentText(env, p.departmentId, code, 256);
    var suggestionId :- DepartmentText(env, p.suggestionId, code, 512);
    var request :- DepartmentText(env, p.request, code, 4000);
    var agent :- DepartmentText(env, p.assignedAgentActorId, code, 256);
    var reviewer :- DepartmentText(env, p.assignedReviewerActorId, code, 256);
    :- Need(StartsWith(suggestionId, SUGGESTION_PREFIX), DepartmentSuggestionInvalid);
    :- Need(agent != reviewer, DepartmentReviewerNotDistinct);
    Ok(DepartmentPackage(id, departmentId, suggestionId, request, agent, reviewer))
  }

  function NormalizeDraft(env: Env, d: Draft): Result<Draft> {
    var code := DepartmentDraftInvalid;
    :- Need(|d.publicCitations| <= 64 && |d.privateEvidenceRefs| <= 64, DepartmentDraftTooLarge);
    var citations :- MapAll(DepartmentTextOf(env, code, 2048), d.publicCitations);
    var refs :- MapAll(DepartmentTextOf(env, code, 2048), d.privateEvidenceRefs);
    :- Need((forall c | c in citations :: env.publicReference(c))
            && (forall r | r in refs :: env.syntheticReference(r)),
            DepartmentReferenceInvalid);
    var id :- DepartmentText(env, d.id, code, 512);
    var summary :- DepartmentText(env, d.publicSummary, code, 4000);
    Ok(Draft(id, summary, citations, refs))
  }

  function NormalizeReview(env: Env, r: Review, synthetic: bool): Result<Review> {
    if !(if synthetic then env.canonicalInstant(r.reviewedAt) else r.reviewedAt == DETERMINISTIC_REVIEWED_AT) then
      Err(DepartmentReviewTimeInvalid)
    else
      var packageId :- NonEmpty(env, r.packageId, DepartmentReviewInvalid);
      Ok(r.(packageId := packageId))
  }

  function NormalizeOption(env: Env, o: ParticipationOption): Result<ParticipationOption> {
    var id :- ParticipationText(env, o.optionId, ParticipationField, 256);
    var text :- ParticipationText(env, o.optionLabel, ParticipationField, 1000);
    var n :- Count(o.aggregateCount, ParticipationField);
    Ok(ParticipationOption(id, text, n))
  }

  function OptionNormalizer(env: Env): ParticipationOption -> Result<ParticipationOption> {
    (o: ParticipationOption) => NormalizeOption(env, o)
  }

  function OptionKey(o: ParticipationOption): string {
    o.optionId
  }

  predicate DistinctOptions(os: seq<ParticipationOption>) {
    forall i, j :: 0 <= i < j < |os| ==> os[i].optionId != os[j].optionId
  }

  function Counts(os: seq<ParticipationOption>): (r: seq<nat>)
    ensures |r| == |os|
  {
    seq(|os|, i requires 0 <= i < |os| => if os[i].aggregateCount >= 0 then os[i].aggregateCount else 0)
  }

  function NormalizeAudit(env: Env, a: RepresentationAudit): Result<RepresentationAudit> {
    var invited :- if a.totalInvited.None? then Ok(None)
                   else var n :- Count(a.totalInvited.value, ParticipationField); Ok(Some(n as int));
    var population :- ParticipationText(env, a.targetPopulationDescription, ParticipationField, 4000);
    var recruitment :- ParticipationText(env, a.recruitmentMethod, ParticipationField, 4000);
    var sampling :- NormalizeOptionalText(env, a.samplingMethod, ParticipationField, 4000);
    var started :- Count(a.totalStarted, ParticipationField);
    var completed :- Count(a.totalCompleted, ParticipationField);
    var limitations :- ParticipationTextArray(env, a.limitations, ParticipationField);
    :- Need((invited.Some? ==> invited.value >= started) && completed <= started, RepresentationCountInconsistent);
    Ok(RepresentationAudit(population, recruitment, sampling, invited, started, completed, limitations))
  }

  function NormalizeOptionalText(env: Env, s: Option<string>, code: ErrorCode, limit: nat): Result<Option<string>> {
    if s.None? then Ok(None)
    else
      var t :- ParticipationText(env, s.value, code, limit);
      Ok(Some(t))
  }

  function CheckTimes(env: Env, b: ParticipationBody): Outcome {
    var start, end, reviewed := env.utcMillis(b.openedAt), env.utcMillis(b.closedAt), env.utcMillis(b.reviewedAt);
    if start.None? || end.None? || reviewed.None? then Fail(ParticipationTimestampInvalid)
    else if !(start.value <= end.value <= reviewed.value) then Fail(ParticipationTimestampOrderInvalid)
    else Need(b.reviewedAt == DETERMINISTIC_PARTICIPATION_REVIEWED_AT, ParticipationReviewTimeInvalid)
  }

  /** The options: normalised, sorted by id, without a duplicate id. */
  function NormalizeOptionSet(env: Env, os: seq<ParticipationOption>): Result<seq<ParticipationOption>> {
    if !(|os| <= 64) then Err(ParticipationResultShapeInvalidOptions)
    else
      var mapped :- MapAll(OptionNormalizer(env), os);
      var options := S.Sort(OptionKey, mapped);
      :- Need(DistinctOptions(options), ParticipationOptionDuplicate);
      Ok(options)
  }

  /** The counts of a participation agree; the option counts are added in binary64. */
  function CheckCounts(options: seq<ParticipationOption>, audit: RepresentationAudit, totalAccepted: nat): Outcome {
    if audit.totalCompleted < totalAccepted then Fail(RepresentationCountInconsistent)
    else Need(FloatSum(Counts(options)) == totalAccepted, ParticipationOptionCountInconsistent)
  }

  function NormalizeParticipationTexts(env: Env, b: ParticipationBody): Result<ParticipationBody> {
    var id :- ParticipationText(env, b.id, ParticipationField, 512);
    var contractId :- ParticipationText(env, b.contractId, ParticipationField, 512);
    var methodKind :- ParticipationText(env, b.methodKind, ParticipationField, 256);
    var methodVersion :- ParticipationText(env, b.methodVersion, ParticipationField, 256);
    var ruleId :- ParticipationText(env, b.ruleId, ParticipationField, 256);
    var ruleVersion :- ParticipationText(env, b.ruleVersion, ParticipationField, 256);
    var question :- ParticipationText(env, b.question, ParticipationField, 4000);
    var summary :- ParticipationText(env, b.resultSummary, ParticipationField, 4000);
    var dissent :- ParticipationTextArray(env, b.unresolvedDissent, ParticipationField);
    var limitations :- ParticipationTextArray(env, b.limitations, ParticipationField);
    Ok(b.(id := id, contractId := contractId, methodKind := methodKind, methodVersion := methodVersion,
       ruleId := ruleId, ruleVersion := ruleVersion, question := question, resultSummary := summary,
       unresolvedDissent := dissent, limitations := limitations))
  }

  function NormalizeParticipation(env: Env, p: Participation): Result<Participation> {
    var b := p.body;
    var options :- NormalizeOptionSet(env, b.options);
    var audit :- NormalizeAudit(env, b.representationAudit);
    var contractVersion :- Count(b.contractVersion, ParticipationField);
    :- Need(contractVersion >= 1, ParticipationVersionInvalidContractVersion);
    var totalAccepted :- Count(b.totalAccepted, ParticipationField);
    :- CheckCounts(options, audit, totalAccepted);
    :- CheckTimes(env, b);
    var resultRef :- ParticipationText(env, b.resultArtifactRef, ParticipationField, 2048);
    var minorityRef :- NormalizeOptionalText(env, b.minorityReportRef, ParticipationField, 2048);
    :- Need(env.syntheticReference(resultRef) && (minorityRef.Some? ==> env.syntheticReference(minorityRef.value)),
            ParticipationReferenceInvalid);
    var texts :- NormalizeParticipationTexts(env, b);
    Ok(Participation(
         texts.(contractVersion := contractVersion, options := options, totalAccepted := totalAccepted,
         representationAudit := audit, resultArtifactRef := resultRef, minorityReportRef := minorityRef),
         p.checksum))
  }

  function NormalizeBriefReference(env: Env, b: BriefReference, code: ErrorCode): Result<BriefReference> {
    var id :- NonEmpty(env, b.id, code);
    Ok(b.(id := id))
  }

  function NormalizeParticipationReference(env: Env, p: ParticipationReference,
                                           code: ErrorCode): Result<ParticipationReference> {
    var id :- NonEmpty(env, p.id, code);
    Ok(p.(id := id))
  }

  function NormalizeOutcome(env: Env, o: OutcomeInput): Result<OutcomeInput> {
    if !(o.reviewedAt == DETERMINISTIC_OUTCOME_REVIEWED_AT) then Err(ReviewedOutcomeInvalid)
    else
      var resultRef :- ParticipationText(env, o.resultArtifactRef, ParticipationField, 2048);
      :- Need(env.syntheticReference(resultRef), ReviewedOutcomeReferenceInvalid);
      var id :- DepartmentText(env, o.id, ReviewedOutcomeInvalid, 512);
      var summary :- DepartmentText(env, o.summary, ReviewedOutcomeInvalid, 4096);
      var discussionId :- NonEmpty(env, o.sourceDiscussionRef.id, ReviewedOutcomeDiscussionInvalid);
      var discussionRef :- NonEmpty(env, o.sourceDiscussionRef.ref, ReviewedOutcomeDiscussionInvalid);
      var brief :- NormalizeBriefReference(env, o.sourceBrief, ReviewedOutcomeBriefInvalid);
      var participation :- NormalizeParticipationReference(env, o.sourceParticipation,
                                                           ReviewedOutcomeParticipationInvalid);
      Ok(OutcomeInput(id, summary, resultRef, o.reviewedAt, SourceReference(discussionId, discussionRef), brief,
                      participation))
  }

  function NormalizeBinding(env: Env, b: SourceBinding): Result<SourceBinding> {
    var packageId :- NonEmpty(env, b.packageId, CitizenBriefBindingInvalid);
    Ok(b.(packageId := packageId))
  }

  function BindingNormalizer(env: Env): SourceBinding -> Result<SourceBinding> {
    (b: SourceBinding) => NormalizeBinding(env, b)
  }

  function BindingKey(b: SourceBinding): string {
    b.packageId
  }

  predicate DistinctBindings(bs: seq<SourceBinding>) {
    forall i, j :: 0 <= i < j < |bs| ==> bs[i].packageId != bs[j].packageId
  }

  /** `normalizeCitizenBrief`: the bindings are sorted by package id. */
  function NormalizeBrief(env: Env, b: BriefInput): Result<BriefInput> {
    if !(b.sourceBindings != []) then Err(CitizenBriefBindingsRequired)
    else
      var bindings :- MapAll(BindingNormalizer(env), b.sourceBindings);
      :- Need(DistinctBindings(bindings), CitizenBriefBindingDuplicate);
      var id :- DepartmentText(env, b.id, CitizenBriefInvalid, 512);
      Ok(BriefInput(id, S.Sort(BindingKey, bindings)))
  }

  function NormalizeRetraction(env: Env, r: Retraction): Result<Retraction> {
    var packageId :- NonEmpty(env, r.packageId, DepartmentRetractionInvalid);
    Ok(r.(packageId := packageId))
  }

  function NormalizeDraftCore(env: Env, c: SuggestionDraftCore): Result<SuggestionDraftCore> {
    var receipt :- NonEmpty(env, c.sourceAnswerReceiptId, SignedSuggestionReceiptInvalid);
    var discussionId :- NonEmpty(env, c.sourceDiscussionId, SignedSuggestionDiscussionInvalid);
    var discussionRef :- NonEmpty(env, c.sourceDiscussionRef, SignedSuggestionDiscussionInvalid);
    var municipalityId :- NonEmpty(env, c.municipalityId, SignedSuggestionScopeInvalid);
    var sourceCaseId :- NonEmpty(env, c.sourceCaseId, SignedSuggestionScopeInvalid);
    var caseId :- NonEmpty(env, c.caseId, SignedSuggestionCaseInvalid);
    var pubkey :- NonEmpty(env, c.citizenPubkey, SignedSuggestionSignerInvalid);
    var title :- DepartmentText(env, c.title, SignedSuggestionTitleInvalid, 240);
    var summary :- DepartmentText(env, c.summary, SignedSuggestionSummaryInvalid, 2000);
    Ok(SuggestionDraftCore(receipt, discussionId, discussionRef, municipalityId, sourceCaseId, caseId, pubkey,
                           title, summary))
  }

  predicate DraftBound(env: Env, opt: Options, d: Discussion, draft: SuggestionDraft) {
    var core := draft.core;
    && StartsWith(core.sourceAnswerReceiptId, MECKY_ANSWER_PREFIX)
    && IsHex64(core.sourceAnswerReceiptId[|MECKY_ANSWER_PREFIX|..])
    && IsHex64(core.citizenPubkey)
    && draft.draftId == env.draftIdFor(core)
    && core.caseId == opt.caseId
    && core.municipalityId == d.municipalityId
    && core.sourceCaseId == d.caseId
    && core.sourceDiscussionId == d.id
    && core.sourceDiscussionRef == d.sourceRef
    && core.citizenPubkey == d.event.pubkey
  }

  function SuggestionTags(core: SuggestionDraftCore): seq<seq<string>> {
    [["schema", "citizen_signed_suggestion_v1"],
     ["municipality", core.municipalityId],
     ["case", core.sourceCaseId],
     ["e", core.sourceDiscussionId, "", "root"],
     ["mecky-receipt", core.sourceAnswerReceiptId]]
  }

  function NormalizeSuggestionEvent(env: Env, e: NostrEvent): Result<NostrEvent> {
    var code := SignedSuggestionEventInvalid;
    :- Need(SafeInteger(e.createdAt), code);
    var id :- NonEmpty(env, e.id, code);
    var pubkey :- NonEmpty(env, e.pubkey, code);
    :- Need(SafeInteger(e.kind), code);
    var content :- DepartmentText(env, e.content, code, 8192);
    var sig :- NonEmpty(env, e.sig, code);
    Ok(NostrEvent(id, pubkey, e.createdAt, e.kind, e.tags, content, sig))
  }

  /** `normalizeSignedSuggestion`. */
  function NormalizeSignedSuggestion(env: Env, opt: Options, d: Discussion,
                                     s: SignedSuggestion): Result<SignedSuggestion> {
    var core :- NormalizeDraftCore(env, s.draft.core);
    var draftId :- NonEmpty(env, s.draft.draftId, SignedSuggestionDraftInvalid);
    var draft := SuggestionDraft(draftId, core);
    :- Need(DraftBound(env, opt, d, draft), SignedSuggestionBindingInvalid);
    var event :- NormalizeSuggestionEvent(env, s.event);
    :- Need(env.parseDraft(event.content).Some?, SignedSuggestionEventInvalid);
    :- Need(env.validNostr(event) && event.kind == 1 && event.pubkey == core.citizenPubkey
            && event.tags == SuggestionTags(core) && env.parseDraft(event.content).value == draft
            && s.signerPubkey == event.pubkey && s.candidateId == SIGNED_SUGGESTION_PREFIX + event.id,
            SignedSuggestionSignatureInvalid);
    Ok(SignedSuggestion(s.candidateId, event.pubkey, draft, event))
  }

  function NormalizeBody(env: Env, opt: Options, body: CommandBody): Result<CommandBody> {
    match body
    case IntakeDiscussion(d) =>
      var n :- NormalizeArtifact(env, d); Ok(IntakeDiscussion(n))
    case AdmitSignedSuggestion(_) => Ok(body)
    case AdmitSignedTopicSuggestion(_, _, _) => Ok(body)
    case AdmitCitizenAdoption(_) => Ok(body)
    case AdmitSyntheticAdoption(_) => Ok(body)
    case AssignDepartmentPackage(p) =>
      var n :- NormalizePackage(env, p); Ok(AssignDepartmentPackage(n))
    case RecordDepartmentDraft(id, sum, d) =>
      var packageId :- NonEmpty(env, id, DepartmentPackageInvalid);
      var n :- NormalizeDraft(env, d); Ok(RecordDepartmentDraft(packageId, sum, n))
    case AttestDepartmentReview(r) =>
      var n :- NormalizeReview(env, r, opt.syntheticDepartmentReview); Ok(AttestDepartmentReview(n))
    case DeriveCitizenBrief(b) =>
      var n :- NormalizeBrief(env, b); Ok(DeriveCitizenBrief(n))
    case CorrectDepartmentDraft(id, sum, prior, d) =>
      var packageId :- NonEmpty(env, id, DepartmentPackageInvalid);
      var n :- NormalizeDraft(env, d); Ok(CorrectDepartmentDraft(packageId, sum, prior, n))
    case RetractDepartmentResponse(r) =>
      var n :- NormalizeRetraction(env, r); Ok(RetractDepartmentResponse(n))
    case RecordAdvisoryParticipation(p, b) =>
      var n :- NormalizeParticipation(env, p);
      var source :- NormalizeBriefReference(env, b, ParticipationSourceBriefInvalid);
      Ok(RecordAdvisoryParticipation(n, source))
    case RetractAdvisoryParticipation(t) =>
      var n :- NormalizeParticipationReference(env, t, ParticipationRetractionInvalid);
      Ok(RetractAdvisoryParticipation(n))
    case RecordReviewedOutcome(o) =>
      var n :- NormalizeOutcome(env, o); Ok(RecordReviewedOutcome(n))
  }

  function NormalizeCommand(env: Env, opt: Options, cmd: Command): Result<Command> {
    var caseId :- NonEmpty(env, cmd.caseId, CaseIdRequired);
    var actor :- NormalizeActor(env, cmd.actor);
    :- Need(SafeInteger(cmd.expectedCaseVersion) && cmd.expectedCaseVersion >= 0, ExpectedCaseVersionInvalid);
    var key :- NonEmpty(env, cmd.idempotencyKey, IdempotencyKeyRequired);
    :- Need(|key| <= 256, IdempotencyKeyInvalid);
    var policyVersion :- NonEmpty(env, cmd.policyVersion, PolicyVersionInvalid);
    var body :- NormalizeBody(env, opt, cmd.body);
    Ok(Command(caseId, actor, cmd.expectedCaseVersion, key, policyVersion, body))
  }
}
