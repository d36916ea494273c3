/** What the replay believes: after the creation of a Case, only events that record some command exactly. */
module CaseBelief {
  import opened Results
  import opened CaseTypes
  import opened CaseNormalize
  import opened CaseBriefs
  import opened CaseReplay
  import opened CaseInvariants
  import opened CaseBriefFacts
  import opened CaseReachable
  import opened CaseCurrency
  import opened CaseHandle
  import opened CaseRuns
  import opened CaseBriefText
  import opened CaseRecords
  import opened CaseRecording

  /** What an event says, as the body of a command. */
  function BodyOf(env: Env, before: seq<Event>, e: Event): CommandBody {
    match e.payload
    case SignedAdmitted(s, _, _) => AdmitSignedSuggestion(s)
    case TopicAdmitted(topic, answer, _, _) =>
      var d := DiscussionOf(env, before);
      AdmitSignedTopicSuggestion(if d.Some? then ToNostr(d.value) else answer, answer, topic)
    case AdoptionAdmitted(evidence, _, _) =>
      if e.header.eventType.SyntheticAdoptionAdmittedV1? then AdmitSyntheticAdoption(evidence)
      else AdmitCitizenAdoption(evidence)
    case PackageAssigned(pkg, _) => AssignDepartmentPackage(pkg)
    case DraftRecorded(id, sum, draft, _) => RecordDepartmentDraft(id, sum, draft)
    case ReviewAttested(r, _, _) => AttestDepartmentReview(r)
    case BriefDerived(brief, bindings, _, _) => DeriveCitizenBrief(BriefInput(brief.body.id, bindings))
    case DraftCorrected(id, sum, prior, draft, _) => CorrectDepartmentDraft(id, sum, prior, draft)
    case ResponseRetracted(r) => RetractDepartmentResponse(r)
    case ParticipationRecorded(p, source, _, _, _) => RecordAdvisoryParticipation(p, source.brief)
    case ParticipationRetracted(target) => RetractAdvisoryParticipation(target)
    case OutcomeRecorded(outcome, _) => RecordReviewedOutcome(outcome.input)
    case DiscussionRecorded(d, _) => IntakeDiscussion(d)
    case CaseCreated(_, _) => RetractAdvisoryParticipation(ParticipationReference("", e.eventChecksum))
  }

  function CommandOf(env: Env, opt: Options, before: seq<Event>, e: Event): Command {
    Command(opt.caseId, e.header.actorBinding, |before|, "", opt.policyVersion, BodyOf(env, before, e))
  }

  /** The payload is its own normal form; a verifier gives back what was recorded; bindings are in their order. */
  ghost predicate NormalPayload(env: Env, opt: Options, before: seq<Event>, e: Event) {
    match e.payload
    case SignedAdmitted(s, _, _) =>
      DiscussionOf(env, before).Some?
      ==> NormalizeSignedSuggestion(env, opt, DiscussionOf(env, before).value, s) == Ok(s)
    case TopicAdmitted(topic, answer, _, _) =>
      DiscussionOf(env, before).Some? ==>
        var v := env.verifyTopic(ToNostr(DiscussionOf(env, before).value), answer, topic);
        v.Ok? ==> v.value.signedSuggestion == topic && v.value.sourceAnswer == answer
    case AdoptionAdmitted(evidence, _, _) =>
      var v := env.verifyAdoption(e.header.eventType.SyntheticAdoptionAdmittedV1?, evidence);
      v.Ok? ==> v.value.evidence == evidence
    case PackageAssigned(pkg, _) => NormalizePackage(env, pkg) == Ok(pkg)
    case DraftRecorded(_, _, draft, _) => NormalizeDraft(env, draft) == Ok(draft)
    case DraftCorrected(_, _, _, draft, _) => NormalizeDraft(env, draft) == Ok(draft)
    case ReviewAttested(r, _, _) => NormalizeReview(env, r, opt.syntheticDepartmentReview) == Ok(r)
    case BriefDerived(brief, bindings, _, _) => bindings == Unbound(brief.body.packageBindings)
    case ParticipationRecorded(p, _, _, _, _) => NormalizeParticipation(env, p) == Ok(p)
    case OutcomeRecorded(outcome, _) => NormalizeOutcome(env, outcome.input) == Ok(outcome.input)
    case _ => true
  }

  ghost predicate Recorded(env: Env, opt: Options, before: seq<Event>, e: Event) {
    var c := CommandOf(env, opt, before, e);
    Says(env, opt, before, c, e.payload) && e.header.correctionOf == CorrectedEvent(before, c.body)
  }

  /** The step of the payload is taken. */
  ghost predicate Stepped(env: Env, opt: Options, st: CaseState, n: nat, e: Event) {
    var h, p := e.header, e.payload;
    match p
    case CaseCreated(_, _) => StepCreated(opt, st, n, h, p).Ok?
    case DiscussionRecorded(_, _) => StepDiscussion(env, st, n, h, p).Ok?
    case SignedAdmitted(_, _, _) => StepSigned(env, opt, st, h, p).Ok?
    case TopicAdmitted(_, _, _, _) => StepTopic(env, opt, st, h, p).Ok?
    case AdoptionAdmitted(_, _, _) =>
      StepAdoption(env, opt, st, n, h, p, h.eventType.SyntheticAdoptionAdmittedV1?).Ok?
    case PackageAssigned(_, _) => StepAssign(env, opt, st, n, h, p).Ok?
    case DraftRecorded(_, _, _, _) => StepDraft(env, opt, st, h, p).Ok?
    case ReviewAttested(_, _, _) => StepReview(env, opt, st, h, p).Ok?
    case BriefDerived(_, _, _, _) => StepBrief(opt, st, h, p).Ok?
    case DraftCorrected(_, _, _, _, _) => StepCorrect(env, opt, st, h, p).Ok?
    case ResponseRetracted(_) => StepRetract(env, opt, st, h, p).Ok?
    case ParticipationRecorded(_, _, _, _, _) => StepParticipation(env, opt, st, h, p).Ok?
    case ParticipationRetracted(_) => StepParticipationRetracted(env, opt, st, h, p).Ok?
    case OutcomeRecorded(_, _) => StepOutcome(env, opt, st, h, p).Ok?
  }

  lemma SignedBelieved(env: Env, opt: Options, before: seq<Event>, st: CaseState, e: Event)
    requires Remembered(env, opt, before, st) && NormalPayload(env, opt, before, e)
    requires e.payload.SignedAdmitted? && StepSigned(env, opt, st, e.header, e.payload).Ok?
    ensures Recorded(env, opt, before, e)
  {
    hide Remembered, StateOf, LatestId, BriefSays, DiscussionOf, NormalizeSignedSuggestion;
    StateRemembered(env, opt, before, st);
  }

  lemma TopicBelieved(env: Env, opt: Options, before: seq<Event>, st: CaseState, e: Event)
    requires Remembered(env, opt, before, st) && NormalPayload(env, opt, before, e)
    requires e.payload.TopicAdmitted? && StepTopic(env, opt, st, e.header, e.payload).Ok?
    ensures Recorded(env, opt, before, e)
  {
    hide Remembered, StateOf, LatestId, BriefSays, DiscussionOf;
    StateRemembered(env, opt, before, st);
  }

  lemma AdoptionBelieved(env: Env, opt: Options, before: seq<Event>, st: CaseState, e: Event)
    requires Remembered(env, opt, before, st) && NormalPayload(env, opt, before, e)
    requires e.payload.AdoptionAdmitted?
             && StepAdoption(env, opt, st, |before|, e.header, e.payload,
                             e.header.eventType.SyntheticAdoptionAdmittedV1?).Ok?
    ensures Recorded(env, opt, before, e)
  {
    hide Remembered, StateOf, LatestId, BriefSays, DiscussionOf;
  }

  lemma AssignmentBelieved(env: Env, opt: Options, before: seq<Event>, st: CaseState, e: Event)
    requires Remembered(env, opt, before, st) && NormalPayload(env, opt, before, e)
    requires e.payload.PackageAssigned? && StepAssign(env, opt, st, |before|, e.header, e.payload).Ok?
    ensures Recorded(env, opt, before, e)
  {
    hide Remembered, StateOf, LatestId, BriefSays, DiscussionOf, NormalizePackage, HasPackage, HasDepartment;
  }

  lemma DraftBelieved(env: Env, opt: Options, before: seq<Event>, st: CaseState, e: Event)
    requires Remembered(env, opt, before, st) && NormalPayload(env, opt, before, e)
    requires e.payload.DraftRecorded? && StepDraft(env, opt, st, e.header, e.payload).Ok?
    ensures Recorded(env, opt, before, e)
  {
    hide Remembered, StateOf, LatestId, BriefSays, DiscussionOf, NormalizeDraft;
  }

  lemma ReviewBelieved(env: Env, opt: Options, before: seq<Event>, st: CaseState, e: Event)
    requires Remembered(env, opt, before, st) && NormalPayload(env, opt, before, e)
    requires e.payload.ReviewAttested? && StepReview(env, opt, st, e.header, e.payload).Ok?
    ensures Recorded(env, opt, before, e)
  {
    hide Remembered, StateOf, LatestId, BriefSays, DiscussionOf, NormalizeReview;
  }

  lemma CorrectionBelieved(env: Env, opt: Options, before: seq<Event>, st: CaseState, e: Event)
    requires Remembered(env, opt, before, st) && NormalPayload(env, opt, before, e)
    requires e.payload.DraftCorrected? && StepCorrect(env, opt, st, e.header, e.payload).Ok?
    ensures Recorded(env, opt, before, e)
  {
    hide Remembered, StateOf, LatestId, BriefSays, DiscussionOf, NormalizeDraft;
    RememberedIds(env, opt, before, st, e.payload.packageId);
  }

  lemma RetractionBelieved(env: Env, opt: Options, before: seq<Event>, st: CaseState, e: Event)
    requires Remembered(env, opt, before, st) && NormalPayload(env, opt, before, e)
    requires e.payload.ResponseRetracted? && StepRetract(env, opt, st, e.header, e.payload).Ok?
    ensures Recorded(env, opt, before, e)
  {
    hide Remembered, StateOf, LatestId, BriefSays, DiscussionOf, NormalizeRetraction;
    RememberedIds(env, opt, before, st, e.payload.retraction.packageId);
  }

  lemma ParticipationBelieved(env: Env, opt: Options, before: seq<Event>, st: CaseState, e: Event)
    requires Remembered(env, opt, before, st) && NormalPayload(env, opt, before, e)
    requires e.payload.ParticipationRecorded? && StepParticipation(env, opt, st, e.header, e.payload).Ok?
    ensures Recorded(env, opt, before, e)
  {
    hide Remembered, StateOf, LatestId, BriefSays, DiscussionOf, NormalizeParticipation, BriefIsCurrent;
    RememberedIds(env, opt, before, st, "");
  }

  lemma WithdrawalBelieved(env: Env, opt: Options, before: seq<Event>, st: CaseState, e: Event)
    requires Remembered(env, opt, before, st) && NormalPayload(env, opt, before, e)
    requires e.payload.ParticipationRetracted? && StepParticipationRetracted(env, opt, st, e.header, e.payload).Ok?
    ensures Recorded(env, opt, before, e)
  {
    hide Remembered, StateOf, LatestId, BriefSays, DiscussionOf, NormalizeParticipationReference;
    RememberedIds(env, opt, before, st, "");
  }

  lemma OutcomeBelieved(env: Env, opt: Options, before: seq<Event>, st: CaseState, e: Event)
    requires Remembered(env, opt, before, st) && NormalPayload(env, opt, before, e)
    requires e.payload.OutcomeRecorded? && StepOutcome(env, opt, st, e.header, e.payload).Ok?
    ensures Recorded(env, opt, before, e)
  {
    hide Remembered, StateOf, LatestId, BriefSays, DiscussionOf, NormalizeOutcome, BriefIsCurrent,
      ParticipationIsCurrent, OutcomeSourcesMatch;
  }

  lemma BriefBelieved(env: Env, opt: Options, before: seq<Event>, st: CaseState, e: Event)
    requires ValidOptions(opt) && Unique(st.departments) && Remembered(env, opt, before, st)
    requires NormalPayload(env, opt, before, e) && e.payload.BriefDerived?
    requires StepBrief(opt, st, e.header, e.payload).Ok?
    ensures Recorded(env, opt, before, e)
  {
    hide Remembered, DiscussionOf, StateOf, LatestId, BriefSays, ValidateAndDerive, SourceEventIds;
    RememberedState(env, opt, before, st);
    DerivedSays(opt, st.discussion.value, st.suggestion.value, st.departments, e.payload.brief.body.id,
                e.payload.sourceBindings);
  }

  /**
   After the first two events of a Case the replay believes no event but one that records the command it
   says, exactly as `handle` records it: actor, digests, sources and the event that is corrected.
   */
  lemma BelievedRecords(env: Env, opt: Options, before: seq<Event>, e: Event)
    requires ValidOptions(opt) && Fold(env, opt, before + [e]).Ok? && NormalPayload(env, opt, before, e)
    requires !e.payload.CaseCreated? && !e.payload.DiscussionRecorded?
    ensures Records(env, opt, before, CommandOf(env, opt, before, e), e)
  {
    hide StepPayload, Fold, Says, Remembered, NormalPayload, Inv, StateOf, CorrectedEvent, StepCreated, StepDiscussion,
      StepSigned, StepTopic, StepAdoption, StepAssign, StepDraft, StepReview, StepCorrect, StepRetract, StepBrief,
      StepParticipation, StepParticipationRetracted, StepOutcome;
    FoldAppend(env, opt, before, e);
    ReplayRemembers(env, opt, before);
    ReplayedOk(env, opt, before);
    var st := Fold(env, opt, before).value;
    StepFits(env, opt, st, |before|, e);
    HeadRemembered(env, opt, before);
    match e.payload
    case SignedAdmitted(_, _, _) => SignedBelieved(env, opt, before, st, e);
    case TopicAdmitted(_, _, _, _) => TopicBelieved(env, opt, before, st, e);
    case AdoptionAdmitted(_, _, _) => AdoptionBelieved(env, opt, before, st, e);
    case PackageAssigned(_, _) => AssignmentBelieved(env, opt, before, st, e);
    case DraftRecorded(_, _, _, _) => DraftBelieved(env, opt, before, st, e);
    case ReviewAttested(_, _, _) => ReviewBelieved(env, opt, before, st, e);
    case DraftCorrected(_, _, _, _, _) => CorrectionBelieved(env, opt, before, st, e);
    case ResponseRetracted(_) => RetractionBelieved(env, opt, before, st, e);
    case BriefDerived(_, _, _, _) => UniqueDepartments(opt, st, |before|); BriefBelieved(env, opt, before, st, e);
    case ParticipationRecorded(_, _, _, _, _) => ParticipationBelieved(env, opt, before, st, e);
    case ParticipationRetracted(_) => WithdrawalBelieved(env, opt, before, st, e);
    case OutcomeRecorded(_, _) => OutcomeBelieved(env, opt, before, st, e);
  }

  lemma UniqueDepartments(opt: Options, st: CaseState, n: nat)
    requires Inv(opt, st, n)
    ensures Unique(st.departments)
  {
    hide BriefOk, ParticipationOk, OutcomeOk, DepartmentOk;
  }

  lemma HeadRemembered(env: Env, opt: Options, before: seq<Event>)
    requires ValidOptions(opt) && Fold(env, opt, before).Ok?
    ensures Fold(env, opt, before).value.prior == HeadOf(opt, before)
  {
    hide Fold, Remembered, DiscussionOf, AdmissionOf, SuggestionOf, BriefOf, ParticipationOf, OutcomeIn, DepartmentsOf;
    ReplayRemembers(env, opt, before);
  }

  lemma StepFits(env: Env, opt: Options, st: CaseState, n: nat, e: Event)
    requires StepPayload(env, opt, st, n, e.header, e.payload).Ok?
    ensures Fits(e.header.eventType, e.payload) && Stepped(env, opt, st, n, e)
  {
    hide StepCreated, StepDiscussion, StepSigned, StepTopic, StepAdoption, StepAssign, StepDraft, StepReview,
      StepCorrect, StepRetract, StepBrief, StepParticipation, StepParticipationRetracted, StepOutcome;
  }
}
