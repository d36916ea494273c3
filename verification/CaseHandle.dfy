/** `handle`: deciding about a command and appending its events, as functions of the journal. */
module CaseHandle {
  import opened Results
  import opened CaseTypes
  import opened CaseNormalize
  import opened CaseBriefs
  import opened CaseReplay

  /** The journal, its head and the idempotency table. */
  datatype Journal = Journal(events: seq<Event>, head: Checksum, idempotency: map<string, IdempotencyEntry>)

  /** What one `appendEvent` call is given. */
  datatype Part = Part(eventType: EventType, payload: Payload, correctionOf: Option<EventId>)

  /** A normalised command with what does not depend on the journal. */
  datatype Prepared = Prepared(
    cmd: Command, registration: ActorRegistration,
    topic: Option<TopicAdmission>, adoption: Option<AdoptionAdmission>)

  function EmptyJournal(opt: Options): Journal {
    Journal([], Genesis(opt), map[])
  }

  /** `appendEvent`: the event that extends a journal of `count` events with the given head. */
  function MakeEvent(opt: Options, count: nat, head: Checksum, actor: ActorBinding, part: Part): Event {
    var prior := if count == 0 then Genesis(opt) else head;
    var h := Header(EventId(opt.caseId, count + 1), opt.caseId, count + 1, part.eventType, prior, actor,
                    OfPayload(part.payload), part.correctionOf);
    Event(h, OfEvent(h), part.payload)
  }

  /** The events appended for the parts, one after the other. */
  function Appended(opt: Options, count: nat, head: Checksum, actor: ActorBinding, parts: seq<Part>): (es: seq<Event>)
    ensures |es| == |parts|
    decreases |parts|
  {
    if parts == [] then []
    else
      var e := MakeEvent(opt, count, head, actor, parts[0]);
      [e] + Appended(opt, count + 1, e.eventChecksum, actor, parts[1..])
  }

  predicate SyntheticReviewCommand(b: CommandBody) {
    b.AssignDepartmentPackage? || b.RecordDepartmentDraft? || b.AttestDepartmentReview?
    || b.DeriveCitizenBrief? || b.CorrectDepartmentDraft? || b.RetractDepartmentResponse?
  }

  predicate IsPublicAdmission(b: CommandBody) {
    b.IntakeDiscussion? || b.AdmitSignedSuggestion? || b.AdmitSignedTopicSuggestion?
  }

  predicate IsAdoption(b: CommandBody) {
    b.AdmitCitizenAdoption? || b.AdmitSyntheticAdoption?
  }

  function VerifyTopicFor(env: Env, b: CommandBody): Result<Option<TopicAdmission>> {
    if b.AdmitSignedTopicSuggestion? then
      var v :- env.verifyTopic(b.sourceDiscussion, b.sourceAnswer, b.topicSuggestion); Ok(Some(v))
    else Ok(None)
  }

  function VerifyAdoptionFor(env: Env, opt: Options, b: CommandBody,
                             reg: ActorRegistration): Result<Option<AdoptionAdmission>> {
    if b.AdmitSyntheticAdoption? then
      :- Need(opt.syntheticAdoption && reg.actorClass == CaseSteward, ActorRoleForbidden);
      var v :- env.verifyAdoption(true, b.evidence); Ok(Some(v))
    else if b.AdmitCitizenAdoption? then
      :- Need(opt.citizenAdoption && reg.actorClass == CaseSteward, ActorRoleForbidden);
      var v :- env.verifyAdoption(false, b.evidence); Ok(Some(v))
    else Ok(None)
  }

  function VerifyIntakeFor(env: Env, opt: Options, b: CommandBody): Result<CommandBody> {
    if b.IntakeDiscussion? then
      var d :- VerifyDiscussion(env, opt, b.discussion); Ok(IntakeDiscussion(d))
    else Ok(b)
  }

  /** Everything `handle` does before it replays the journal. */
  function Prepare(env: Env, opt: Options, raw: Command): Result<Prepared> {
    var n :- NormalizeCommand(env, opt, raw);
    :- Need(n.caseId == opt.caseId, CaseIdInvalid);
    :- Need(n.policyVersion == opt.policyVersion, PolicyVersionInvalid);
    :- Need(n.actor.actorId in opt.actors, ActorNotRegistered);
    var reg := opt.actors[n.actor.actorId];
    :- Need(reg.actorClass == n.actor.actorClass, ActorBindingMismatch);
    var body :- VerifyIntakeFor(env, opt, n.body);
    var topic :- VerifyTopicFor(env, body);
    :- Need(!(opt.citizenAdoption && IsPublicAdmission(body)), CitizenAdoptionRequired);
    :- Need(opt.syntheticAdoption && !body.AdmitSyntheticAdoption?
            ==> opt.syntheticDepartmentReview && SyntheticReviewCommand(body), SyntheticCaseContinuationUnavailable);
    var adoption :- VerifyAdoptionFor(env, opt, body, reg);
    Ok(Prepared(n.(body := body), reg, topic, adoption))
  }

  /** A signed suggestion is normalised against the recorded discussion. */
  function Resolve(env: Env, opt: Options, p: Prepared, existing: Option<CaseState>): Result<Prepared> {
    if p.cmd.body.AdmitSignedSuggestion? then
      :- Need(existing.Some? && existing.value.discussion.Some?, SignedSuggestionCaseRequired);
      var s :- NormalizeSignedSuggestion(env, opt, existing.value.discussion.value, p.cmd.body.signedSuggestion);
      Ok(p.(cmd := p.cmd.(body := AdmitSignedSuggestion(s))))
    else Ok(p)
  }

  function EffectOf(p: Prepared): Effect {
    if p.topic.Some? then TopicEffect(p.topic.value)
    else if p.adoption.Some? then
      AdoptionEffect(p.cmd.body.AdmitSyntheticAdoption?, p.adoption.value.evidence,
                     p.adoption.value.caseId, p.adoption.value.municipalityId)
    else Plain(p.cmd.body)
  }

  function Fingerprint(p: Prepared): Checksum {
    OfCommand(p.cmd.caseId, p.cmd.actor, p.cmd.expectedCaseVersion, p.cmd.policyVersion, EffectOf(p))
  }

  function SuggestionFor(d: Discussion): Suggestion {
    Suggestion(SUGGESTION_PREFIX + d.event.id, d.id, d.event.content)
  }

  function CreationParts(opt: Options, d: Discussion): seq<Part> {
    [Part(CaseCreatedV1, CaseCreated(opt.caseId, opt.jurisdiction), None),
     Part(DiscussionRecordedV1, DiscussionRecorded(d, SuggestionFor(d)), None)]
  }

  /** The payload is of the kind that a replay expects of an event of this type. */
  predicate Fits(t: EventType, p: Payload) {
    match t
    case CaseCreatedV1 => p.CaseCreated?
    case DiscussionRecordedV1 => p.DiscussionRecorded?
    case SignedSuggestionAdmittedV1 => p.SignedAdmitted?
    case SignedTopicSuggestionAdmittedV1 => p.TopicAdmitted?
    case CitizenAdoptionAdmittedV1 => p.AdoptionAdmitted?
    case SyntheticAdoptionAdmittedV1 => p.AdoptionAdmitted?
    case PackageAssignedV1 => p.PackageAssigned?
    case DraftRecordedV1 => p.DraftRecorded?
    case ReviewAttestedV1 => p.ReviewAttested?
    case BriefDerivedV1 => p.BriefDerived?
    case DraftCorrectedV1 => p.DraftCorrected?
    case ResponseRetractedV1 => p.ResponseRetracted?
    case ParticipationRecordedV1 => p.ParticipationRecorded?
    case ParticipationRetractedV1 => p.ParticipationRetracted?
    case OutcomeRecordedV1 => p.OutcomeRecorded?
  }

  /** One event of the given type. */
  predicate Sole(parts: seq<Part>, t: EventType) {
    |parts| == 1 && parts[0].eventType == t && Fits(t, parts[0].payload)
  }

  function DecideIntake(opt: Options, p: Prepared, existing: Option<CaseState>, count: nat): Result<seq<Part>>
    requires p.cmd.body.IntakeDiscussion?
  {
    var d := p.cmd.body.discussion;
    :- Need(p.registration.actorClass == Citizen, ActorRoleForbidden);
    :- Need(existing.None?,
            if existing.Some? && existing.value.discussion == Some(d) then DiscussionAlreadyRecorded
            else DiscussionConflict);
    :- Need(count == 0, CaseVersionConflict);
    Ok(CreationParts(opt, d))
  }

  function DecideSigned(opt: Options, p: Prepared, existing: Option<CaseState>): (r: Result<seq<Part>>)
    requires p.cmd.body.AdmitSignedSuggestion?
    ensures r.Ok? ==> existing.Some? && Sole(r.value, SignedSuggestionAdmittedV1)
  {
    var s := p.cmd.body.signedSuggestion;
    :- Need(p.registration.actorClass == CaseSteward, ActorRoleForbidden);
    :- Need(existing.Some?, SignedSuggestionCaseRequired);
    :- Need(existing.value.admission.None?, SignedSuggestionAlreadyAdmitted);
    :- Need(existing.value.departments == [] && existing.value.brief.None? && existing.value.participation.None?,
            SignedSuggestionAdmissionTooLate);
    Ok([Part(SignedSuggestionAdmittedV1,
             SignedAdmitted(s, OfSignedAdmission(s, p.cmd.policyVersion, p.cmd.actor), p.cmd.policyVersion), None)])
  }

  function DecideTopic(opt: Options, p: Prepared, existing: Option<CaseState>, count: nat): Result<seq<Part>>
    requires p.topic.Some?
  {
    var v := p.topic.value;
    :- Need(p.registration.actorClass == CaseSteward, ActorRoleForbidden);
    :- Need(existing.None? && count == 0, TopicCaseAlreadyCreated);
    :- Need(v.caseId == opt.caseId && v.municipalityId == opt.jurisdiction && opt.scope.None?
            && opt.allowedSignerPubkeys.Some? && v.signedSuggestion.signerPubkey in opt.allowedSignerPubkeys.value,
            TopicCaseBindingInvalid);
    var sum := OfTopicAdmission(v.signedSuggestion, v.sourceAnswer, v.caseId, p.cmd.policyVersion, p.cmd.actor);
    Ok(CreationParts(opt, v.discussion)
       + [Part(SignedTopicSuggestionAdmittedV1,
               TopicAdmitted(v.signedSuggestion, v.sourceAnswer, sum, p.cmd.policyVersion), None)])
  }

  function DecideAdoption(opt: Options, p: Prepared, existing: Option<CaseState>, count: nat): Result<seq<Part>>
    requires p.adoption.Some?
  {
    var v := p.adoption.value;
    :- Need(v.caseId == opt.caseId && v.municipalityId == opt.jurisdiction && p.cmd.idempotencyKey == v.idempotencyKey,
            CitizenAdoptionBindingInvalid);
    :- Need(existing.None? && count == 0, TopicCaseAlreadyCreated);
    var sum := OfAdoptionAdmission(v.evidence, opt.caseId, p.cmd.policyVersion, p.cmd.actor);
    Ok(CreationParts(opt, v.discussion)
       + [Part(if opt.syntheticAdoption then SyntheticAdoptionAdmittedV1 else CitizenAdoptionAdmittedV1,
               AdoptionAdmitted(v.evidence, sum, p.cmd.policyVersion), None)])
  }

  function DecideAssign(opt: Options, p: Prepared, existing: Option<CaseState>): (r: Result<seq<Part>>)
    requires p.cmd.body.AssignDepartmentPackage?
    ensures r.Ok? ==> existing.Some? && Sole(r.value, PackageAssignedV1)
  {
    var pkg := p.cmd.body.departmentPackage;
    :- Need(p.registration.actorClass == CaseSteward, ActorRoleForbidden);
    :- Need(existing.Some? && existing.value.suggestion.Some?, CaseNotFound);
    var st := existing.value;
    :- Need(opt.requireSignedSuggestionAdmission ==> st.admission.Some?, SignedSuggestionAdmissionRequired);
    :- Need(pkg.suggestionId == st.suggestion.value.id, DepartmentSuggestionMismatch);
    :- Need(!HasPackage(st.departments, pkg.id) && !HasDepartment(st.departments, pkg.departmentId),
            DepartmentPackageAlreadyRecorded);
    :- Need(opt.requiredDepartmentIds.None? ==> st.departments == [], DepartmentPackageAlreadyRecorded);
    :- Need(opt.requiredDepartmentIds.Some? ==> pkg.departmentId in opt.requiredDepartmentIds.value
                                                && |st.departments| < |opt.requiredDepartmentIds.value|,
            DepartmentDepartmentNotRequired);
    :- Need(pkg.assignedAgentActorId in opt.actors && pkg.assignedReviewerActorId in opt.actors
            && opt.actors[pkg.assignedAgentActorId] == ActorRegistration(DepartmentAgent, Some(pkg.departmentId))
            && opt.actors[pkg.assignedReviewerActorId] == ActorRegistration(DepartmentReviewer, Some(pkg.departmentId)),
            DepartmentActorScopeMismatch);
    Ok([Part(PackageAssignedV1, PackageAssigned(pkg, OfPackage(pkg)), None)])
  }

  /** The department of a package, if there is one. */
  function Lookup(existing: Option<CaseState>, packageId: string): Option<Department> {
    if existing.None? then None
    else
      var i := FindPackage(existing.value.departments, packageId);
      if i < |existing.value.departments| then Some(existing.value.departments[i]) else None
  }

  function DecideDraft(opt: Options, p: Prepared, existing: Option<CaseState>): (r: Result<seq<Part>>)
    requires p.cmd.body.RecordDepartmentDraft?
    ensures r.Ok? ==> existing.Some? && Sole(r.value, DraftRecordedV1)
  {
    var b := p.cmd.body;
    :- Need(p.registration.actorClass == DepartmentAgent, ActorRoleForbidden);
    var found := Lookup(existing, b.packageId);
    :- Need(found.Some?, DepartmentPackageNotAssigned);
    var dept := found.value;
    :- Need(dept.draft.None?, DepartmentDraftAlreadyRecorded);
    :- Need(b.packageChecksum == dept.packageChecksum, DepartmentPackageChecksumInvalid);
    :- Need(p.cmd.actor.actorId == dept.pkg.assignedAgentActorId, DepartmentAgentNotAssigned);
    :- Need(p.registration.departmentId == Some(dept.pkg.departmentId), DepartmentActorScopeMismatch);
    Ok([Part(DraftRecordedV1, DraftRecorded(b.packageId, b.packageChecksum, b.draft, OfDraft(b.draft)), None)])
  }

  function DecideReview(opt: Options, p: Prepared, existing: Option<CaseState>): (r: Result<seq<Part>>)
    requires p.cmd.body.AttestDepartmentReview?
    ensures r.Ok? ==> existing.Some? && Sole(r.value, ReviewAttestedV1)
  {
    var r := p.cmd.body.review;
    :- Need(p.registration.actorClass == DepartmentReviewer, ActorRoleForbidden);
    var found := Lookup(existing, r.packageId);
    :- Need(found.Some? && found.value.draft.Some?, DepartmentDraftNotRecorded);
    var dept := found.value;
    :- Need(dept.review.None?, DepartmentReviewAlreadyRecorded);
    :- Need(r.draftArtifactChecksum == dept.draft.value.draftArtifactChecksum, DepartmentDraftChecksumInvalid);
    :- Need(p.registration.departmentId == Some(dept.pkg.departmentId), DepartmentActorScopeMismatch);
    :- Need(p.cmd.actor.actorId == dept.pkg.assignedReviewerActorId, DepartmentReviewerNotAssigned);
    :- Need(p.cmd.actor.actorId != dept.draft.value.actorBinding.actorId, DepartmentReviewerNotDistinct);
    Ok([Part(ReviewAttestedV1,
             ReviewAttested(r, p.cmd.policyVersion, OfAttestation(r, p.cmd.policyVersion, p.cmd.actor)), None)])
  }

  function DecideParticipation(opt: Options, p: Prepared, existing: Option<CaseState>): (r: Result<seq<Part>>)
    requires p.cmd.body.RecordAdvisoryParticipation?
    ensures r.Ok? ==> existing.Some? && Sole(r.value, ParticipationRecordedV1)
  {
    var b := p.cmd.body;
    :- Need(p.registration.actorClass == ParticipationReviewer, ActorRoleForbidden);
    :- Need(existing.Some? && existing.value.brief.Some?, ParticipationSourceBriefRequired);
    var st := existing.value;
    :- Need(BriefIsCurrent(opt, st), ParticipationSourceBriefStale);
    :- Need(st.participation.None?,
            if st.participation.Some? && st.participation.value.retracted then ParticipationWasRetracted
            else ParticipationAlreadyRecorded);
    var brief := st.brief.value;
    :- Need(b.sourceBrief == BriefReference(brief.brief.body.id, brief.brief.briefChecksum),
            ParticipationSourceBriefMismatch);
    var source := ParticipationSource(b.sourceBrief, brief.eventId);
    :- Need(b.participation.checksum == ParticipationChecksum(b.participation.body, source, p.cmd.policyVersion,
                                                              p.cmd.actor),
            ParticipationChecksumInvalid);
    var attestation := OfParticipationAttestation(b.participation.checksum, source, p.cmd.policyVersion, p.cmd.actor,
                                                  b.participation.body.reviewedAt);
    Ok([Part(ParticipationRecordedV1,
             ParticipationRecorded(b.participation, source, p.cmd.policyVersion, p.cmd.actor, attestation), None)])
  }

  function DecideOutcome(opt: Options, p: Prepared, existing: Option<CaseState>): (r: Result<seq<Part>>)
    requires p.cmd.body.RecordReviewedOutcome?
    ensures r.Ok? ==> existing.Some? && Sole(r.value, OutcomeRecordedV1)
  {
    var o := p.cmd.body.outcome;
    :- Need(p.registration.actorClass == CaseSteward, ActorRoleForbidden);
    :- Need(existing.Some? && existing.value.brief.Some? && existing.value.participation.Some?
            && existing.value.discussion.Some?, ReviewedOutcomeSourcesRequired);
    var st := existing.value;
    :- Need(st.outcome.None?, ReviewedOutcomeAlreadyRecorded);
    :- Need(BriefIsCurrent(opt, st) && ParticipationIsCurrent(opt, st), ReviewedOutcomeSourcesStale);
    :- Need(OutcomeSourcesMatch(o, st), ReviewedOutcomeSourceMismatch);
    Ok([Part(OutcomeRecordedV1, OutcomeRecorded(OutcomeOf(o), p.cmd.policyVersion), None)])
  }

  function DecideBrief(opt: Options, p: Prepared, existing: Option<CaseState>): (r: Result<seq<Part>>)
    requires p.cmd.body.DeriveCitizenBrief?
    ensures r.Ok? ==> existing.Some? && Sole(r.value, BriefDerivedV1)
  {
    var b := p.cmd.body.brief;
    :- Need(p.registration.actorClass == CaseSteward, ActorRoleForbidden);
    :- Need(existing.Some? && existing.value.discussion.Some? && existing.value.suggestion.Some?
            && opt.requiredDepartmentIds.Some?, CitizenBriefDepartmentsIncomplete);
    var st := existing.value;
    :- Need(!BriefIsCurrent(opt, st), CitizenBriefAlreadyCurrent);
    var (ordered, brief) :- ValidateAndDerive(opt, st.discussion.value, st.suggestion.value, st.departments, b.id,
                                              b.sourceBindings);
    Ok([Part(BriefDerivedV1, BriefDerived(brief, ordered, brief.briefChecksum, p.cmd.policyVersion), None)])
  }

  function DecideCorrect(opt: Options, p: Prepared, existing: Option<CaseState>): (r: Result<seq<Part>>)
    requires p.cmd.body.CorrectDepartmentDraft?
    ensures r.Ok? ==> existing.Some? && Sole(r.value, DraftCorrectedV1)
  {
    var b := p.cmd.body;
    :- Need(p.registration.actorClass == DepartmentAgent, ActorRoleForbidden);
    var found := Lookup(existing, b.packageId);
    :- Need(found.Some? && found.value.draft.Some? && found.value.review.Some?, DepartmentDraftNotRecorded);
    var dept := found.value;
    :- Need(b.packageChecksum == dept.packageChecksum, DepartmentPackageChecksumInvalid);
    :- Need(b.priorDraftArtifactChecksum == dept.draft.value.draftArtifactChecksum, DepartmentDraftChecksumInvalid);
    :- Need(dept.review.value.review.decision == Accepted, DepartmentReviewNotAccepted);
    :- Need(p.cmd.actor.actorId == dept.pkg.assignedAgentActorId, DepartmentAgentNotAssigned);
    :- Need(p.registration.departmentId == Some(dept.pkg.departmentId), DepartmentActorScopeMismatch);
    Ok([Part(DraftCorrectedV1,
             DraftCorrected(b.packageId, b.packageChecksum, b.priorDraftArtifactChecksum, b.draft, OfDraft(b.draft)),
             Some(dept.draft.value.eventId))])
  }

  function DecideRetractParticipation(opt: Options, p: Prepared, existing: Option<CaseState>): (r: Result<seq<Part>>)
    requires p.cmd.body.RetractAdvisoryParticipation?
    ensures r.Ok? ==> existing.Some? && Sole(r.value, ParticipationRetractedV1)
  {
    var t := p.cmd.body.target;
    :- Need(p.registration.actorClass == CaseSteward, ActorRoleForbidden);
    :- Need(existing.Some? && existing.value.participation.Some?, ParticipationNotFound);
    var recorded := existing.value.participation.value;
    :- Need(!recorded.retracted, ParticipationAlreadyRetracted);
    :- Need(t == ParticipationReference(recorded.participation.body.id, recorded.participation.checksum),
            ParticipationRetractionChecksumInvalid);
    Ok([Part(ParticipationRetractedV1, ParticipationRetracted(t), Some(recorded.eventId))])
  }

  function DecideRetract(opt: Options, p: Prepared, existing: Option<CaseState>): (r: Result<seq<Part>>)
    requires p.cmd.body.RetractDepartmentResponse?
    ensures r.Ok? ==> existing.Some? && Sole(r.value, ResponseRetractedV1)
  {
    var r := p.cmd.body.retraction;
    :- Need(p.registration.actorClass == CaseSteward, ActorRoleForbidden);
    var found := Lookup(existing, r.packageId);
    :- Need(found.Some? && found.value.draft.Some? && found.value.review.Some?, DepartmentResponseNotFound);
    var dept := found.value;
    :- Need(r.packageChecksum == dept.packageChecksum, DepartmentPackageChecksumInvalid);
    :- Need(r.targetDraftArtifactChecksum == dept.draft.value.draftArtifactChecksum
            && r.targetReviewAttestationChecksum == dept.review.value.attestationChecksum,
            DepartmentResponseChecksumInvalid);
    :- Need(dept.review.value.review.decision == Accepted, DepartmentReviewNotAccepted);
    Ok([Part(ResponseRetractedV1, ResponseRetracted(r), Some(dept.review.value.eventId))])
  }

  /** The guards of a command and the events it appends. */
  function Decide(opt: Options, p: Prepared, existing: Option<CaseState>, count: nat): Result<seq<Part>> {
    match p.cmd.body
    case IntakeDiscussion(_) => DecideIntake(opt, p, existing, count)
    case AdmitSignedSuggestion(_) => DecideSigned(opt, p, existing)
    case AdmitSignedTopicSuggestion(_, _, _) =>
      if p.topic.Some? then DecideTopic(opt, p, existing, count) else Err(TopicSuggestionInvalid)
    case AdmitCitizenAdoption(_) =>
      if p.adoption.Some? then DecideAdoption(opt, p, existing, count) else Err(CitizenAdoptionBindingInvalid)
    case AdmitSyntheticAdoption(_) =>
      if p.adoption.Some? then DecideAdoption(opt, p, existing, count) else Err(CitizenAdoptionBindingInvalid)
    case AssignDepartmentPackage(_) => DecideAssign(opt, p, existing)
    case RecordDepartmentDraft(_, _, _) => DecideDraft(opt, p, existing)
    case AttestDepartmentReview(_) => DecideReview(opt, p, existing)
    case DeriveCitizenBrief(_) => DecideBrief(opt, p, existing)
    case CorrectDepartmentDraft(_, _, _, _) => DecideCorrect(opt, p, existing)
    case RetractDepartmentResponse(_) => DecideRetract(opt, p, existing)
    case RecordAdvisoryParticipation(_, _) => DecideParticipation(opt, p, existing)
    case RetractAdvisoryParticipation(_) => DecideRetractParticipation(opt, p, existing)
    case RecordReviewedOutcome(_) => DecideOutcome(opt, p, existing)
  }

  /** The command as it is fingerprinted and decided, and the replayed state it meets. */
  function Considered(env: Env, opt: Options, j: Journal, raw: Command): Result<(Prepared, Option<CaseState>)> {
    var prepared :- Prepare(env, opt, raw);
    var st :- Replay(env, opt, j.events, j.head);
    var p :- Resolve(env, opt, prepared, Existing(st));
    Ok((p, Existing(st)))
  }

  function ReceiptFor(j: Journal, added: seq<Event>): Receipt {
    Receipt(|j.events| + |added|, seq(|added|, i requires 0 <= i < |added| => added[i].header.eventId),
            if added == [] then j.head else added[|added| - 1].eventChecksum)
  }

  /** One accepted append. */
  function Commit(opt: Options, j: Journal, p: Prepared, parts: seq<Part>): (Journal, Receipt) {
    var added := Appended(opt, |j.events|, j.head, p.cmd.actor, parts);
    var receipt := ReceiptFor(j, added);
    (Journal(j.events + added, receipt.journalHeadChecksum,
     j.idempotency[p.cmd.idempotencyKey := IdempotencyEntry(Fingerprint(p), receipt)]),
     receipt)
  }

  /** One call of `handle`: the next journal and the receipt or the error. */
  function Handle(env: Env, opt: Options, j: Journal, raw: Command): (Journal, Result<Receipt>) {
    var c := Considered(env, opt, j, raw);
    if c.Err? then (j, Err(c.code))
    else
      var (p, existing) := c.value;
      var key := p.cmd.idempotencyKey;
      if key in j.idempotency then
        (j, if j.idempotency[key].fingerprint == Fingerprint(p) then Ok(j.idempotency[key].receipt)
         else Err(IdempotencyConflict))
      else if p.cmd.expectedCaseVersion != |j.events| then (j, Err(CaseVersionConflict))
      else
        var parts := Decide(opt, p, existing, |j.events|);
        if parts.Err? then (j, Err(parts.code))
        else
          var (next, receipt) := Commit(opt, j, p, parts.value);
          (next, Ok(receipt))
  }

  /** The journal after a sequence of commands, accepted or not. */
  function RunFrom(env: Env, opt: Options, j: Journal, cmds: seq<Command>): Journal {
    if cmds == [] then j
    else Handle(env, opt, RunFrom(env, opt, j, cmds[..|cmds| - 1]), cmds[|cmds| - 1]).0
  }

  /** The journal after a sequence of commands from the empty journal. */
  function Run(env: Env, opt: Options, cmds: seq<Command>): Journal {
    RunFrom(env, opt, EmptyJournal(opt), cmds)
  }
}
