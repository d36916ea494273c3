/**
 `handle` never replays what it appends; `replayJournal` never sees a command. Here every guard of the
 one is shown to imply the guards of the other.
 */
module CaseAgreement {
  import opened Results
  import opened Texts
  import opened CaseTypes
  import opened CaseNormalize
  import opened CaseNormalForms
  import opened CaseBriefs
  import opened CaseReplay
  import opened CaseInvariants
  import opened CaseBriefFacts
  import opened CaseReachable
  import opened CaseHandle

  /** The artifact that both admission verifiers build from the signed root event. */
  function CaseDiscussion(root: NostrEvent, municipalityId: string, caseId: string): Discussion {
    Discussion(root.id, NOSTR_PREFIX + root.id, municipalityId, caseId, root.sig,
               DiscussionEvent(root.id, root.pubkey, root.createdAt, 1, root.content, root.tags, []))
  }

  predicate Trimmed(s: string) {
    Trim(s) == s
  }

  /**
   What is assumed of the functions of the environment: marker patterns are unanchored; a verifier
   accepts its own output again; the topic verifier builds its artifact from the event it was given,
   whose id, key, signature and scope are hexadecimal or slugs; and an event id, being the hash of
   the event, is not the id of two contents.
   */
  ghost predicate Sound(env: Env) {
    && MarkersTrimmed(env)
    && (forall x, a, s :: env.verifyTopic(x, a, s).Ok? ==> SoundTopic(env, x, env.verifyTopic(x, a, s).value))
    && (forall x, a, s, y, b, t ::
          env.verifyTopic(x, a, s).Ok? && env.verifyTopic(y, b, t).Ok? && x.id == y.id ==> x.content == y.content)
    && (forall synthetic, e :: env.verifyAdoption(synthetic, e).Ok? ==> AdoptionStable(env, synthetic, e))
  }

  ghost predicate AdoptionStable(env: Env, synthetic: bool, e: AdoptionEvidence)
    requires env.verifyAdoption(synthetic, e).Ok?
  {
    env.verifyAdoption(synthetic, env.verifyAdoption(synthetic, e).value.evidence) == env.verifyAdoption(synthetic, e)
  }

  ghost predicate SoundTopic(env: Env, x: NostrEvent, v: TopicAdmission) {
    && v.discussion == CaseDiscussion(x, v.municipalityId, v.caseId)
    && x.kind == 1
    && env.verifyTopic(x, v.sourceAnswer, v.signedSuggestion) == Ok(v)
    && Trimmed(x.id) && Trimmed(x.pubkey) && Trimmed(x.sig) && Trimmed(v.municipalityId) && Trimmed(v.caseId)
    && Trimmed(NOSTR_PREFIX + x.id)
  }

  /** The parts of a body that a replay normalises again are already normal. */
  ghost predicate BodyFixed(env: Env, opt: Options, b: CommandBody) {
    match b
    case IntakeDiscussion(d) => NormalizeArtifact(env, d) == Ok(d)
    case AssignDepartmentPackage(p) => NormalizePackage(env, p) == Ok(p)
    case RecordDepartmentDraft(_, _, d) => NormalizeDraft(env, d) == Ok(d)
    case AttestDepartmentReview(r) => NormalizeReview(env, r, opt.syntheticDepartmentReview) == Ok(r)
    case CorrectDepartmentDraft(_, _, _, d) => NormalizeDraft(env, d) == Ok(d)
    case RetractDepartmentResponse(r) => NormalizeRetraction(env, r) == Ok(r)
    case RecordAdvisoryParticipation(p, _) => NormalizeParticipation(env, p) == Ok(p)
    case RetractAdvisoryParticipation(t) => NormalizeParticipationReference(env, t, ParticipationRetractionInvalid)
                                            == Ok(t)
    case RecordReviewedOutcome(o) => NormalizeOutcome(env, o) == Ok(o)
    case _ => true
  }

  lemma NormalizedBodyFixed(env: Env, opt: Options, b: CommandBody)
    requires MarkersTrimmed(env) && NormalizeBody(env, opt, b).Ok?
    ensures BodyFixed(env, opt, NormalizeBody(env, opt, b).value)
  {
    hide NormalizeArtifact, NormalizePackage, NormalizeDraft, NormalizeReview, NormalizeRetraction,
      NormalizeParticipation, NormalizeParticipationReference, NormalizeOutcome, NonEmpty, NormalizeBrief;
    match b
    case IntakeDiscussion(d) => ArtifactFixed(env, d);
    case AssignDepartmentPackage(p) => PackageFixed(env, p);
    case RecordDepartmentDraft(_, _, d) => DraftFixed(env, d);
    case AttestDepartmentReview(r) => ReviewFixed(env, r, opt.syntheticDepartmentReview);
    case CorrectDepartmentDraft(_, _, _, d) => DraftFixed(env, d);
    case RetractDepartmentResponse(r) => RetractionFixed(env, r);
    case RecordAdvisoryParticipation(p, _) => ParticipationFixed(env, p);
    case RetractAdvisoryParticipation(t) => ParticipationReferenceFixed(env, t, ParticipationRetractionInvalid);
    case RecordReviewedOutcome(o) => OutcomeFixed(env, o);
    case _ =>
  }

  /** The commands the configured admission lane lets through. */
  predicate LaneAllows(opt: Options, b: CommandBody) {
    && !(opt.citizenAdoption && IsPublicAdmission(b))
    && (opt.syntheticAdoption && !b.AdmitSyntheticAdoption? ==>
          opt.syntheticDepartmentReview && SyntheticReviewCommand(b))
  }

  /** Where the verified parts of an admission come from. */
  ghost predicate Verified(env: Env, opt: Options, p: Prepared) {
    && (p.topic.Some? <==> p.cmd.body.AdmitSignedTopicSuggestion?)
    && (p.adoption.Some? <==> IsAdoption(p.cmd.body))
    && (p.topic.Some? ==> exists x, a, s :: env.verifyTopic(x, a, s) == Ok(p.topic.value))
    && (p.adoption.Some? ==>
          && p.registration.actorClass == CaseSteward
          && (if p.cmd.body.AdmitSyntheticAdoption? then opt.syntheticAdoption else opt.citizenAdoption)
          && exists e :: env.verifyAdoption(p.cmd.body.AdmitSyntheticAdoption?, e) == Ok(p.adoption.value))
  }

  /** The actor is registered, and the policy is the configured one. */
  predicate Entitled(opt: Options, p: Prepared) {
    && p.cmd.policyVersion == opt.policyVersion
    && p.cmd.actor.actorId in opt.actors
    && p.registration == opt.actors[p.cmd.actor.actorId]
    && p.registration.actorClass == p.cmd.actor.actorClass
  }

  /** What is known of a prepared command. */
  ghost predicate Settled(env: Env, opt: Options, p: Prepared) {
    && Entitled(opt, p)
    && BodyFixed(env, opt, p.cmd.body)
    && LaneAllows(opt, p.cmd.body)
    && Verified(env, opt, p)
  }

  lemma PreparedSettled(env: Env, opt: Options, raw: Command)
    requires MarkersTrimmed(env) && Prepare(env, opt, raw).Ok?
    ensures Settled(env, opt, Prepare(env, opt, raw).value)
  {
    hide NormalizeBody, NonEmpty, NormalizeActor, VerifyDiscussion, NormalizeArtifact, BodyFixed;
    var n := NormalizeCommand(env, opt, raw).value;
    NormalizedBodyFixed(env, opt, raw.body);
    IntakeKeepsBody(env, opt, n.body);
  }

  lemma IntakeKeepsBody(env: Env, opt: Options, b: CommandBody)
    requires MarkersTrimmed(env) && BodyFixed(env, opt, b) && VerifyIntakeFor(env, opt, b).Ok?
    ensures VerifyIntakeFor(env, opt, b).value == b
  {
    hide NormalizeArtifact, CheckTags;
  }

  /** The event type a command's last event has. */
  function EventTypeFor(opt: Options, b: CommandBody): EventType {
    match b
    case IntakeDiscussion(_) => DiscussionRecordedV1
    case AdmitSignedSuggestion(_) => SignedSuggestionAdmittedV1
    case AdmitSignedTopicSuggestion(_, _, _) => SignedTopicSuggestionAdmittedV1
    case AdmitCitizenAdoption(_) => CitizenAdoptionAdmittedV1
    case AdmitSyntheticAdoption(_) => SyntheticAdoptionAdmittedV1
    case AssignDepartmentPackage(_) => PackageAssignedV1
    case RecordDepartmentDraft(_, _, _) => DraftRecordedV1
    case AttestDepartmentReview(_) => ReviewAttestedV1
    case DeriveCitizenBrief(_) => BriefDerivedV1
    case CorrectDepartmentDraft(_, _, _, _) => DraftCorrectedV1
    case RetractDepartmentResponse(_) => ResponseRetractedV1
    case RecordAdvisoryParticipation(_, _) => ParticipationRecordedV1
    case RetractAdvisoryParticipation(_) => ParticipationRetractedV1
    case RecordReviewedOutcome(_) => OutcomeRecordedV1
  }

  // One lemma for every command that appends a single event: the replay step accepts it.

  /** A signed suggestion has been normalised against the recorded discussion. */
  ghost predicate Admits(env: Env, opt: Options, p: Prepared, st: CaseState) {
    p.cmd.body.AdmitSignedSuggestion? && st.discussion.Some? ==>
      var s := p.cmd.body.signedSuggestion;
      NormalizeSignedSuggestion(env, opt, st.discussion.value, s) == Ok(s)
  }

  lemma SignedAgrees(env: Env, opt: Options, p: Prepared, st: CaseState, h: Header, part: Part)
    requires Entitled(opt, p) && h.actorBinding == p.cmd.actor && h.correctionOf == part.correctionOf
    requires p.cmd.body.AdmitSignedSuggestion? && part.payload.SignedAdmitted?
    requires DecideSigned(opt, p, Existing(st)) == Ok([part])
    requires Admits(env, opt, p, st) && LaneAllows(opt, p.cmd.body)
    ensures StepSigned(env, opt, st, h, part.payload).Ok?
  {
    hide NormalizeSignedSuggestion;
  }

  lemma AssignAgrees(env: Env, opt: Options, p: Prepared, st: CaseState, count: nat, h: Header, part: Part)
    requires Entitled(opt, p) && h.actorBinding == p.cmd.actor && h.correctionOf == part.correctionOf
    requires p.cmd.body.AssignDepartmentPackage? && part.payload.PackageAssigned?
    requires NormalizePackage(env, p.cmd.body.departmentPackage) == Ok(p.cmd.body.departmentPackage)
    requires DecideAssign(opt, p, Existing(st)) == Ok([part])
    requires count >= 2
    ensures StepAssign(env, opt, st, count, h, part.payload).Ok?
  {
    hide NormalizePackage;
  }

  lemma DraftAgrees(env: Env, opt: Options, p: Prepared, st: CaseState, h: Header, part: Part)
    requires Entitled(opt, p) && h.actorBinding == p.cmd.actor && h.correctionOf == part.correctionOf
    requires p.cmd.body.RecordDepartmentDraft? && part.payload.DraftRecorded?
    requires NormalizeDraft(env, p.cmd.body.draft) == Ok(p.cmd.body.draft)
    requires DecideDraft(opt, p, Existing(st)) == Ok([part])
    ensures StepDraft(env, opt, st, h, part.payload).Ok?
  {
    hide NormalizeDraft;
  }

  lemma ReviewAgrees(env: Env, opt: Options, p: Prepared, st: CaseState, h: Header, part: Part)
    requires Entitled(opt, p) && h.actorBinding == p.cmd.actor && h.correctionOf == part.correctionOf
    requires p.cmd.body.AttestDepartmentReview? && part.payload.ReviewAttested?
    requires NormalizeReview(env, p.cmd.body.review, opt.syntheticDepartmentReview) == Ok(p.cmd.body.review)
    requires DecideReview(opt, p, Existing(st)) == Ok([part])
    ensures StepReview(env, opt, st, h, part.payload).Ok?
  {
    hide NormalizeReview;
  }

  lemma BriefAgrees(env: Env, opt: Options, p: Prepared, st: CaseState, h: Header, part: Part)
    requires Entitled(opt, p) && ValidOptions(opt) && h.actorBinding == p.cmd.actor
             && h.correctionOf == part.correctionOf
    requires p.cmd.body.DeriveCitizenBrief? && part.payload.BriefDerived? && Unique(st.departments)
    requires DecideBrief(opt, p, Existing(st)) == Ok([part])
    ensures StepBrief(opt, st, h, part.payload).Ok?
  {
    hide BriefIsCurrent, OrderBindings, ValidateBindings, SourceEventIds;
    var b := p.cmd.body.brief;
    ValidatingAgain(opt, st.discussion.value, st.suggestion.value, st.departments, b.id, b.sourceBindings);
    ValidatedHaveSources(opt, b.sourceBindings, st.departments);
    DerivedNamed(opt, st, b.id, b.sourceBindings);
  }

  lemma DerivedNamed(opt: Options, st: CaseState, id: string, bs: seq<SourceBinding>)
    requires st.discussion.Some? && st.suggestion.Some?
    requires ValidateAndDerive(opt, st.discussion.value, st.suggestion.value, st.departments, id, bs).Ok?
    ensures var r := ValidateAndDerive(opt, st.discussion.value, st.suggestion.value, st.departments, id, bs).value;
            ValidateBindings(opt, bs, st.departments) == Ok(r.0)
            && r.1.body.id == id && r.1.briefChecksum == OfBrief(r.1.body)
  {
    hide OrderBindings, ValidateBindings, Responses, PackageBindings, Summary;
  }

  lemma CorrectAgrees(env: Env, opt: Options, p: Prepared, st: CaseState, h: Header, part: Part)
    requires Entitled(opt, p) && h.actorBinding == p.cmd.actor && h.correctionOf == part.correctionOf
    requires p.cmd.body.CorrectDepartmentDraft? && part.payload.DraftCorrected?
    requires NormalizeDraft(env, p.cmd.body.draft) == Ok(p.cmd.body.draft)
    requires DecideCorrect(opt, p, Existing(st)) == Ok([part])
    ensures StepCorrect(env, opt, st, h, part.payload).Ok?
  {
    hide NormalizeDraft;
  }

  lemma RetractAgrees(env: Env, opt: Options, p: Prepared, st: CaseState, h: Header, part: Part)
    requires Entitled(opt, p) && h.actorBinding == p.cmd.actor && h.correctionOf == part.correctionOf
    requires p.cmd.body.RetractDepartmentResponse? && part.payload.ResponseRetracted?
    requires NormalizeRetraction(env, p.cmd.body.retraction) == Ok(p.cmd.body.retraction)
    requires DecideRetract(opt, p, Existing(st)) == Ok([part])
    ensures StepRetract(env, opt, st, h, part.payload).Ok?
  {
    hide NormalizeRetraction;
  }

  lemma ParticipationAgrees(env: Env, opt: Options, p: Prepared, st: CaseState, h: Header, part: Part)
    requires Entitled(opt, p) && h.actorBinding == p.cmd.actor && h.correctionOf == part.correctionOf
    requires p.cmd.body.RecordAdvisoryParticipation? && part.payload.ParticipationRecorded?
    requires NormalizeParticipation(env, p.cmd.body.participation) == Ok(p.cmd.body.participation)
    requires DecideParticipation(opt, p, Existing(st)) == Ok([part])
    ensures StepParticipation(env, opt, st, h, part.payload).Ok?
  {
    hide NormalizeParticipation, BriefIsCurrent;
  }

  lemma RetractParticipationAgrees(env: Env, opt: Options, p: Prepared, st: CaseState, h: Header, part: Part)
    requires Entitled(opt, p) && h.actorBinding == p.cmd.actor && h.correctionOf == part.correctionOf
    requires p.cmd.body.RetractAdvisoryParticipation? && part.payload.ParticipationRetracted?
    requires NormalizeParticipationReference(env, p.cmd.body.target, ParticipationRetractionInvalid)
          == Ok(p.cmd.body.target)
    requires DecideRetractParticipation(opt, p, Existing(st)) == Ok([part])
    ensures StepParticipationRetracted(env, opt, st, h, part.payload).Ok?
  {
    hide NormalizeParticipationReference;
  }

  lemma OutcomeAgrees(env: Env, opt: Options, p: Prepared, st: CaseState, h: Header, part: Part)
    requires Entitled(opt, p) && h.actorBinding == p.cmd.actor && h.correctionOf == part.correctionOf
    requires p.cmd.body.RecordReviewedOutcome? && part.payload.OutcomeRecorded?
    requires NormalizeOutcome(env, p.cmd.body.outcome) == Ok(p.cmd.body.outcome)
    requires DecideOutcome(opt, p, Existing(st)) == Ok([part])
    ensures StepOutcome(env, opt, st, h, part.payload).Ok?
  {
    hide NormalizeOutcome, BriefIsCurrent;
  }

  predicate CreatesCase(b: CommandBody) {
    b.IntakeDiscussion? || b.AdmitSignedTopicSuggestion? || IsAdoption(b)
  }

  /** A command that does not create the Case appends one event, and needs the Case. */
  lemma SingleShape(env: Env, opt: Options, p: Prepared, existing: Option<CaseState>, count: nat)
    requires Decide(opt, p, existing, count).Ok? && !CreatesCase(p.cmd.body)
    ensures existing.Some? && Sole(Decide(opt, p, existing, count).value, EventTypeFor(opt, p.cmd.body))
  {
    hide DecideSigned, DecideAssign, DecideDraft, DecideReview, DecideParticipation, DecideOutcome, DecideBrief,
      DecideCorrect, DecideRetractParticipation, DecideRetract;
  }

  lemma SingleAgrees(env: Env, opt: Options, p: Prepared, st: CaseState, count: nat, h: Header, part: Part)
    requires Settled(env, opt, p) && ValidOptions(opt) && Inv(opt, st, count) && Admits(env, opt, p, st)
    requires Decide(opt, p, Existing(st), count) == Ok([part]) && !CreatesCase(p.cmd.body)
    requires h.actorBinding == p.cmd.actor && h.correctionOf == part.correctionOf && h.eventType == part.eventType
    ensures StepPayload(env, opt, st, count, h, part.payload).Ok?
  {
    hide Inv, Settled, Entitled, LaneAllows, Admits, Existing, StepCreated, StepDiscussion, StepTopic, StepAdoption,
      StepAssign, StepBrief, StepDraft, StepCorrect, StepReview, StepOutcome, StepParticipation,
      StepParticipationRetracted, StepRetract, StepSigned, DecideIntake, DecideTopic, DecideAdoption, DecideSigned,
      DecideAssign, DecideDraft, DecideReview, DecideParticipation, DecideOutcome, DecideBrief, DecideCorrect,
      DecideRetractParticipation, DecideRetract, NormalizeArtifact, NormalizePackage, NormalizeDraft, NormalizeReview,
      NormalizeRetraction, NormalizeParticipation, NormalizeParticipationReference, NormalizeOutcome;
    SingleShape(env, opt, p, Existing(st), count);
    SettledLane(env, opt, p);
    CaseWithDepartments(opt, st, count);
    match p.cmd.body
    case AdmitSignedSuggestion(_) => SignedAgrees(env, opt, p, st, h, part);
    case AssignDepartmentPackage(_) => AssignAgrees(env, opt, p, st, count, h, part);
    case RecordDepartmentDraft(_, _, _) => DraftAgrees(env, opt, p, st, h, part);
    case AttestDepartmentReview(_) => ReviewAgrees(env, opt, p, st, h, part);
    case DeriveCitizenBrief(_) => BriefAgrees(env, opt, p, st, h, part);
    case CorrectDepartmentDraft(_, _, _, _) => CorrectAgrees(env, opt, p, st, h, part);
    case RetractDepartmentResponse(_) => RetractAgrees(env, opt, p, st, h, part);
    case RecordAdvisoryParticipation(_, _) => ParticipationAgrees(env, opt, p, st, h, part);
    case RetractAdvisoryParticipation(_) => RetractParticipationAgrees(env, opt, p, st, h, part);
    case RecordReviewedOutcome(_) => OutcomeAgrees(env, opt, p, st, h, part);
  }

  /** What the invariant says of a Case that exists. */
  lemma CaseWithDepartments(opt: Options, st: CaseState, count: nat)
    requires Inv(opt, st, count)
    ensures Unique(st.departments) && (Existing(st).Some? ==> count >= 2)
  {
    hide DepartmentOk, BriefOk, ParticipationOk, OutcomeOk;
  }

  lemma SettledLane(env: Env, opt: Options, p: Prepared)
    requires Settled(env, opt, p)
    ensures LaneAllows(opt, p.cmd.body) && Entitled(opt, p) && BodyFixed(env, opt, p.cmd.body)
  {
  }
}
