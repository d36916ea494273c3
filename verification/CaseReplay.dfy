/** `replayJournal`: rebuilding a Case from its events, refusing every journal it does not believe. */
module CaseReplay {
  import opened Results
  import opened CaseTypes
  import opened CaseNormalize
  import opened CaseBriefs

  const CHAIN: ErrorCode := JournalChainInvalid

  function Genesis(opt: Options): Checksum {
    OfGenesis(opt.caseId)
  }

  function InitialState(opt: Options): CaseState {
    CaseState(Genesis(opt), None, None, None, [], None, None, None)
  }

  predicate RegisteredAs(opt: Options, actor: ActorBinding, c: ActorClass) {
    && actor.actorClass == c
    && actor.actorId in opt.actors && opt.actors[actor.actorId].actorClass == c
  }

  predicate ActsFor(opt: Options, actor: ActorBinding, c: ActorClass, departmentId: string) {
    RegisteredAs(opt, actor, c) && opt.actors[actor.actorId].departmentId == Some(departmentId)
  }

  predicate SyntheticReviewEvent(t: EventType) {
    t in {PackageAssignedV1, DraftRecordedV1, ReviewAttestedV1, BriefDerivedV1, DraftCorrectedV1, ResponseRetractedV1}
  }

  /** The checks of the chain, the identity and the digests of event number `index`. */
  function CheckHeader(opt: Options, prior: Checksum, index: nat, e: Event): Outcome {
    var h := e.header;
    if !(h.caseId == opt.caseId && h.caseVersion == index + 1 && h.priorEventChecksum == prior
         && h.eventId == EventId(opt.caseId, index + 1)) then Fail(CHAIN)
    else if (opt.citizenAdoption || opt.syntheticAdoption)
            && (h.eventType == SignedSuggestionAdmittedV1 || h.eventType == SignedTopicSuggestionAdmittedV1) then
      Fail(CHAIN)
    else if opt.syntheticAdoption && index > 2
            && (!opt.syntheticDepartmentReview || !SyntheticReviewEvent(h.eventType)) then
      Fail(SyntheticCaseContinuationUnavailable)
    else if OfEvent(h) != e.eventChecksum then Fail(EventChecksumInvalid)
    else Need(OfPayload(e.payload) == h.payloadChecksum, PayloadChecksumInvalid)
  }

  function StepCreated(opt: Options, st: CaseState, index: nat, h: Header, p: Payload): Result<CaseState>
    requires p.CaseCreated?
  {
    if !(index == 0 && p.caseId == opt.caseId && h.correctionOf.None?) then Err(CHAIN)
    else
      Ok(st)
  }

  function StepDiscussion(env: Env, st: CaseState, index: nat, h: Header, p: Payload): Result<CaseState>
    requires p.DiscussionRecorded?
  {
    if !(index == 1 && h.correctionOf.None?) then Err(CHAIN)
    else
      var d :- NormalizeArtifact(env, p.discussion);
      :- Need(d.id == d.event.id && p.suggestion.discussionId == d.id, CHAIN);
      Ok(st.(discussion := Some(d), suggestion := Some(p.suggestion)))
  }

  predicate Admissible(st: CaseState, h: Header) {
    st.discussion.Some? && st.suggestion.Some? && st.admission.None? && st.departments == [] && h.correctionOf.None?
  }

  function StepSigned(env: Env, opt: Options, st: CaseState, h: Header, p: Payload): Result<CaseState>
    requires p.SignedAdmitted?
  {
    if !(Admissible(st, h)) then Err(CHAIN)
    else
      var s :- NormalizeSignedSuggestion(env, opt, st.discussion.value, p.signedSuggestion);
      var sum := OfSignedAdmission(s, opt.policyVersion, h.actorBinding);
      :- Need(p.policyVersion == opt.policyVersion && p.admissionChecksum == sum
              && RegisteredAs(opt, h.actorBinding, CaseSteward), CHAIN);
      Ok(st.(admission := Some(SignedAdmission(s, sum, h.eventId)),
         suggestion := Some(st.suggestion.value.(title := s.draft.core.title))))
  }

  function StepTopic(env: Env, opt: Options, st: CaseState, h: Header, p: Payload): Result<CaseState>
    requires p.TopicAdmitted?
  {
    if !(Admissible(st, h)) then Err(CHAIN)
    else
      var v :- env.verifyTopic(ToNostr(st.discussion.value), p.sourceAnswer, p.topicSuggestion);
      var sum := OfTopicAdmission(v.signedSuggestion, v.sourceAnswer, v.caseId, opt.policyVersion, h.actorBinding);
      :- Need(v.caseId == opt.caseId && v.municipalityId == opt.jurisdiction && v.discussion == st.discussion.value
              && p.policyVersion == opt.policyVersion && p.admissionChecksum == sum
              && RegisteredAs(opt, h.actorBinding, CaseSteward), CHAIN);
      Ok(st.(admission := Some(TopicAdmissionRecord(v.signedSuggestion, v.sourceAnswer, sum, h.eventId)),
         suggestion := Some(st.suggestion.value.(title := v.signedSuggestion.title))))
  }

  function StepAdoption(env: Env, opt: Options, st: CaseState, index: nat, h: Header, p: Payload,
                        synthetic: bool): Result<CaseState>
    requires p.AdoptionAdmitted?
  {
    if !(index == 2 && Admissible(st, h)) then Err(CHAIN)
    else
      :- Need(if synthetic then opt.syntheticAdoption else opt.citizenAdoption, CHAIN);
      var v :- env.verifyAdoption(synthetic, p.evidence);
      var sum := OfAdoptionAdmission(v.evidence, v.caseId, opt.policyVersion, h.actorBinding);
      :- Need(v.caseId == opt.caseId && v.discussion == st.discussion.value && p.policyVersion == opt.policyVersion
              && p.admissionChecksum == sum && RegisteredAs(opt, h.actorBinding, CaseSteward), CHAIN);
      Ok(st.(admission := Some(AdoptionAdmissionRecord(v.evidence, sum, h.eventId)),
         suggestion := Some(st.suggestion.value.(title := v.title))))
  }

  predicate HasDepartment(ds: seq<Department>, departmentId: string) {
    FindDepartment(ds, departmentId) < |ds|
  }

  predicate HasPackage(ds: seq<Department>, id: string) {
    FindPackage(ds, id) < |ds|
  }

  function StepAssign(env: Env, opt: Options, st: CaseState, index: nat, h: Header, p: Payload): Result<CaseState>
    requires p.PackageAssigned?
  {
    if !(index >= 2 && st.discussion.Some? && st.suggestion.Some? && h.correctionOf.None?) then Err(CHAIN)
    else
      :- Need(opt.requireSignedSuggestionAdmission ==> st.admission.Some?, CHAIN);
      var pkg :- NormalizePackage(env, p.departmentPackage);
      :- Need(!HasPackage(st.departments, pkg.id) && !HasDepartment(st.departments, pkg.departmentId), CHAIN);
      :- Need(opt.requiredDepartmentIds.Some? ==> pkg.departmentId in opt.requiredDepartmentIds.value, CHAIN);
      :- Need(p.packageChecksum == OfPackage(pkg) && pkg.suggestionId == st.suggestion.value.id
              && RegisteredAs(opt, h.actorBinding, CaseSteward), CHAIN);
      Ok(st.(departments := st.departments + [Department(pkg, p.packageChecksum, None, None, Current)]))
  }

  predicate IsAgent(opt: Options, actor: ActorBinding, pkg: DepartmentPackage) {
    ActsFor(opt, actor, DepartmentAgent, pkg.departmentId) && actor.actorId == pkg.assignedAgentActorId
  }

  function StepDraft(env: Env, opt: Options, st: CaseState, h: Header, p: Payload): Result<CaseState>
    requires p.DraftRecorded?
  {
    var i := FindPackage(st.departments, p.packageId);
    :- Need(i < |st.departments| && st.departments[i].draft.None? && h.correctionOf.None?, CHAIN);
    var dept := st.departments[i];
    var draft :- NormalizeDraft(env, p.draft);
    :- Need(p.packageChecksum == dept.packageChecksum && p.draftArtifactChecksum == OfDraft(draft)
            && IsAgent(opt, h.actorBinding, dept.pkg), CHAIN);
    var record := DraftRecord(draft, p.draftArtifactChecksum, h.actorBinding, h.eventId);
    Ok(st.(departments := st.departments[i := dept.(draft := Some(record), correctionState := Current)]))
  }

  function StepReview(env: Env, opt: Options, st: CaseState, h: Header, p: Payload): Result<CaseState>
    requires p.ReviewAttested?
  {
    var i := FindPackage(st.departments, p.review.packageId);
    :- Need(i < |st.departments| && st.departments[i].draft.Some? && st.departments[i].review.None?
            && h.correctionOf.None?, CHAIN);
    var dept := st.departments[i];
    var review :- NormalizeReview(env, p.review, opt.syntheticDepartmentReview);
    :- Need(p.policyVersion == opt.policyVersion
            && p.attestationChecksum == OfAttestation(review, p.policyVersion, h.actorBinding)
            && review.packageId == dept.pkg.id
            && review.draftArtifactChecksum == dept.draft.value.draftArtifactChecksum
            && ActsFor(opt, h.actorBinding, DepartmentReviewer, dept.pkg.departmentId)
            && h.actorBinding.actorId != dept.draft.value.actorBinding.actorId
            && h.actorBinding.actorId == dept.pkg.assignedReviewerActorId, CHAIN);
    var record := ReviewRecord(review, p.policyVersion, h.actorBinding, p.attestationChecksum, h.eventId);
    Ok(st.(departments := st.departments[i := dept.(review := Some(record), correctionState := Current)]))
  }

  predicate AcceptedResponse(d: Department) {
    d.draft.Some? && d.review.Some? && d.review.value.review.decision == Accepted
  }

  function StepCorrect(env: Env, opt: Options, st: CaseState, h: Header, p: Payload): Result<CaseState>
    requires p.DraftCorrected?
  {
    var i := FindPackage(st.departments, p.packageId);
    :- Need(i < |st.departments| && AcceptedResponse(st.departments[i])
            && h.correctionOf == Some(st.departments[i].draft.value.eventId), CHAIN);
    var dept := st.departments[i];
    var draft :- NormalizeDraft(env, p.draft);
    :- Need(p.packageChecksum == dept.packageChecksum
            && p.priorDraftArtifactChecksum == dept.draft.value.draftArtifactChecksum
            && p.draftArtifactChecksum == OfDraft(draft)
            && IsAgent(opt, h.actorBinding, dept.pkg), CHAIN);
    var record := DraftRecord(draft, p.draftArtifactChecksum, h.actorBinding, h.eventId);
    Ok(st.(departments := st.departments[i := dept.(draft := Some(record), review := None,
       correctionState := Corrected)]))
  }

  function StepRetract(env: Env, opt: Options, st: CaseState, h: Header, p: Payload): Result<CaseState>
    requires p.ResponseRetracted?
  {
    var i := FindPackage(st.departments, p.retraction.packageId);
    :- Need(i < |st.departments| && AcceptedResponse(st.departments[i])
            && h.correctionOf == Some(st.departments[i].review.value.eventId), CHAIN);
    var dept := st.departments[i];
    var r :- NormalizeRetraction(env, p.retraction);
    :- Need(r.packageChecksum == dept.packageChecksum
            && r.targetDraftArtifactChecksum == dept.draft.value.draftArtifactChecksum
            && r.targetReviewAttestationChecksum == dept.review.value.attestationChecksum
            && RegisteredAs(opt, h.actorBinding, CaseSteward), CHAIN);
    Ok(st.(departments := st.departments[i := dept.(draft := None, review := None, correctionState := Retracted)]))
  }

  /** The draft and review events of the bound packages. */
  function SourceEventIds(bs: seq<SourceBinding>, ds: seq<Department>): Result<map<string, SourceEvents>> {
    if bs == [] then Ok(map[])
    else
      var last := bs[|bs| - 1];
      var i := FindPackage(ds, last.packageId);
      var rest :- SourceEventIds(bs[..|bs| - 1], ds);
      :- Need(i < |ds| && ds[i].draft.Some? && ds[i].review.Some?, CHAIN);
      Ok(rest[last.packageId := SourceEvents(ds[i].draft.value.eventId, ds[i].review.value.eventId)])
  }

  function StepBrief(opt: Options, st: CaseState, h: Header, p: Payload): Result<CaseState>
    requires p.BriefDerived?
  {
    if !(st.discussion.Some? && st.suggestion.Some? && h.correctionOf.None?) then Err(CHAIN)
    else
      :- Need(p.policyVersion == opt.policyVersion && RegisteredAs(opt, h.actorBinding, CaseSteward), CHAIN);
      var (validated, derived) :- ValidateAndDerive(opt, st.discussion.value, st.suggestion.value, st.departments,
                                                    p.brief.body.id, p.sourceBindings);
      :- Need(derived == p.brief && p.briefChecksum == OfBrief(derived.body)
              && p.briefChecksum == p.brief.briefChecksum, CHAIN);
      var sources :- SourceEventIds(validated, st.departments);
      Ok(st.(brief := Some(BriefRecord(p.brief, h.eventId, sources))))
  }

  function StepParticipation(env: Env, opt: Options, st: CaseState, h: Header, p: Payload): Result<CaseState>
    requires p.ParticipationRecorded?
  {
    if !(h.correctionOf.None? && st.participation.None? && st.discussion.Some? && st.suggestion.Some?
         && st.brief.Some?) then Err(CHAIN)
    else
      :- Need(BriefIsCurrent(opt, st), CHAIN);
      var n :- NormalizeParticipation(env, p.participation);
      var b := st.brief.value;
      :- Need(p.policyVersion == opt.policyVersion && p.reviewerActorBinding == h.actorBinding
              && RegisteredAs(opt, h.actorBinding, ParticipationReviewer)
              && p.sourceBrief == ParticipationSource(BriefReference(b.brief.body.id, b.brief.briefChecksum), b.eventId)
              && p.reviewAttestationChecksum
                 == OfParticipationAttestation(n.checksum, p.sourceBrief, p.policyVersion, h.actorBinding,
                                               n.body.reviewedAt)
              && n.checksum == ParticipationChecksum(n.body, p.sourceBrief, p.policyVersion, h.actorBinding), CHAIN);
      Ok(st.(participation := Some(ParticipationRecord(n, p.sourceBrief, p.policyVersion, h.actorBinding,
                                                       p.reviewAttestationChecksum, h.eventId, false))))
  }

  function StepParticipationRetracted(env: Env, opt: Options, st: CaseState, h: Header, p: Payload): Result<CaseState>
    requires p.ParticipationRetracted?
  {
    if !(st.participation.Some? && !st.participation.value.retracted
         && h.correctionOf == Some(st.participation.value.eventId)) then Err(CHAIN)
    else
      var r :- NormalizeParticipationReference(env, p.target, ParticipationRetractionInvalid);
      var recorded := st.participation.value.participation;
      :- Need(RegisteredAs(opt, h.actorBinding, CaseSteward)
              && r == ParticipationReference(recorded.body.id, recorded.checksum), CHAIN);
      Ok(st.(participation := Some(st.participation.value.(retracted := true))))
  }

  function StepOutcome(env: Env, opt: Options, st: CaseState, h: Header, p: Payload): Result<CaseState>
    requires p.OutcomeRecorded?
  {
    if !(st.discussion.Some? && st.suggestion.Some? && st.brief.Some? && st.participation.Some?
         && !st.participation.value.retracted && st.outcome.None? && h.correctionOf.None?) then Err(CHAIN)
    else
      var input :- NormalizeOutcome(env, p.outcome.input);
      var derived := OutcomeOf(input);
      :- Need(p.policyVersion == opt.policyVersion && RegisteredAs(opt, h.actorBinding, CaseSteward)
              && derived == p.outcome && OutcomeSourcesMatch(input, st)
              && BriefIsCurrent(opt, st) && ParticipationIsCurrent(opt, st), CHAIN);
      Ok(st.(outcome := Some(OutcomeRecord(derived, h.eventId))))
  }

  /** The effect of an event whose header has been checked. A payload of another type is refused. */
  function StepPayload(env: Env, opt: Options, st: CaseState, index: nat, h: Header, p: Payload): Result<CaseState> {
    match h.eventType
    case CaseCreatedV1 => if p.CaseCreated? then StepCreated(opt, st, index, h, p) else Err(CHAIN)
    case DiscussionRecordedV1 => if p.DiscussionRecorded? then StepDiscussion(env, st, index, h, p) else Err(CHAIN)
    case SignedSuggestionAdmittedV1 => if p.SignedAdmitted? then StepSigned(env, opt, st, h, p) else Err(CHAIN)
    case SignedTopicSuggestionAdmittedV1 => if p.TopicAdmitted? then StepTopic(env, opt, st, h, p) else Err(CHAIN)
    case CitizenAdoptionAdmittedV1 => if p.AdoptionAdmitted? then StepAdoption(env, opt, st, index, h, p, false)
    else Err(CHAIN)
    case SyntheticAdoptionAdmittedV1 => if p.AdoptionAdmitted? then StepAdoption(env, opt, st, index, h, p, true)
    else Err(CHAIN)
    case PackageAssignedV1 => if p.PackageAssigned? then StepAssign(env, opt, st, index, h, p) else Err(CHAIN)
    case DraftRecordedV1 => if p.DraftRecorded? then StepDraft(env, opt, st, h, p) else Err(CHAIN)
    case ReviewAttestedV1 => if p.ReviewAttested? then StepReview(env, opt, st, h, p) else Err(CHAIN)
    case BriefDerivedV1 => if p.BriefDerived? then StepBrief(opt, st, h, p) else Err(CHAIN)
    case DraftCorrectedV1 => if p.DraftCorrected? then StepCorrect(env, opt, st, h, p) else Err(CHAIN)
    case ResponseRetractedV1 => if p.ResponseRetracted? then StepRetract(env, opt, st, h, p) else Err(CHAIN)
    case ParticipationRecordedV1 => if p.ParticipationRecorded? then StepParticipation(env, opt, st, h, p)
    else Err(CHAIN)
    case ParticipationRetractedV1 => if p.ParticipationRetracted? then StepParticipationRetracted(env, opt, st, h, p)
    else Err(CHAIN)
    case OutcomeRecordedV1 => if p.OutcomeRecorded? then StepOutcome(env, opt, st, h, p) else Err(CHAIN)
  }

  function Step(env: Env, opt: Options, st: CaseState, index: nat, e: Event): Result<CaseState> {
    var header := CheckHeader(opt, st.prior, index, e);
    :- header;
    var next :- StepPayload(env, opt, st, index, e.header, e.payload);
    Ok(next.(prior := e.eventChecksum))
  }

  /** The state after the events, one step an event. */
  function Fold(env: Env, opt: Options, events: seq<Event>): Result<CaseState> {
    if events == [] then Ok(InitialState(opt))
    else
      var st :- Fold(env, opt, events[..|events| - 1]);
      Step(env, opt, st, |events| - 1, events[|events| - 1])
  }

  /** `replayJournal` over the events and the recorded head. */
  function Replay(env: Env, opt: Options, events: seq<Event>, head: Checksum): Result<CaseState> {
    var st :- Fold(env, opt, events);
    :- Need(head == st.prior, CHAIN);
    :- Need(opt.requiredDepartmentIds.Some? ==> |st.departments| <= |opt.requiredDepartmentIds.value|, CHAIN);
    Ok(st)
  }

  /** What a replay returns to its caller: nothing before a discussion is recorded. */
  function Existing(st: CaseState): Option<CaseState> {
    if st.discussion.Some? && st.suggestion.Some? then Some(st) else None
  }
}
