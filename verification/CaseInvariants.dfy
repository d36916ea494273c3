/** What every step of a replay does to the state, and what every replayed state keeps. */
module CaseInvariants {
  import opened Results
  import opened CaseTypes
  import opened CaseNormalize
  import opened CaseBriefs
  import opened CaseReplay

  ghost predicate Unique(ds: seq<Department>) {
    forall i, j :: 0 <= i < j < |ds| ==> ds[i].pkg.id != ds[j].pkg.id
                                         && ds[i].pkg.departmentId != ds[j].pkg.departmentId
  }

  ghost predicate Within(id: EventId, n: nat) {
    1 <= id.version <= n
  }

  /** A department after `n` events: its review is of its draft, by someone else than the author. */
  ghost predicate DepartmentOk(d: Department, n: nat) {
    && (d.draft.Some? ==>
          Within(d.draft.value.eventId, n) && d.draft.value.draftArtifactChecksum == OfDraft(d.draft.value.draft))
    && (d.review.Some? ==>
          && Within(d.review.value.eventId, n) && d.draft.Some?
          && d.review.value.review.draftArtifactChecksum == d.draft.value.draftArtifactChecksum
          && d.review.value.actorBinding.actorId != d.draft.value.actorBinding.actorId
          && d.review.value.review.packageId == d.pkg.id)
  }

  /** The draft or the review is gone or comes from event `n + 1`. */
  ghost predicate Rewritten(d: Department, e: Department, n: nat) {
    && e.pkg == d.pkg && e.packageChecksum == d.packageChecksum
    && (e.draft == d.draft || e.draft.None? || e.draft.value.eventId.version == n + 1)
    && (e.review == d.review || e.review.None? || e.review.value.eventId.version == n + 1)
    && (e.draft != d.draft || e.review != d.review)
    && (d.review.Some? ==> d.review.value.review.decision == Accepted)
    && DepartmentOk(e, n + 1)
  }

  /** Only the parts before the department work change, and only before there is any. */
  ghost predicate IntakeEffect(st: CaseState, next: CaseState) {
    && st.departments == [] == next.departments
    && next.brief == st.brief && next.participation == st.participation && next.outcome == st.outcome
  }

  ghost predicate AssignEffect(opt: Options, st: CaseState, next: CaseState) {
    && next == st.(departments := next.departments)
    && st.discussion.Some? && st.suggestion.Some?
    && |next.departments| == |st.departments| + 1 && next.departments[..|st.departments|] == st.departments
    && var d := next.departments[|st.departments|];
    && d.draft.None? && d.review.None?
    && !HasPackage(st.departments, d.pkg.id) && !HasDepartment(st.departments, d.pkg.departmentId)
    && (opt.requiredDepartmentIds.Some? ==> d.pkg.departmentId in opt.requiredDepartmentIds.value)
  }

  ghost predicate DepartmentEffect(st: CaseState, n: nat, next: CaseState) {
    && next == st.(departments := next.departments)
    && exists i :: RewrittenAt(st, n, next, i)
  }

  ghost predicate RewrittenAt(st: CaseState, n: nat, next: CaseState, i: int) {
    && 0 <= i < |st.departments| == |next.departments|
    && next.departments == st.departments[i := next.departments[i]]
    && Rewritten(st.departments[i], next.departments[i], n)
  }

  ghost predicate BriefEffect(opt: Options, st: CaseState, h: Header, next: CaseState) {
    && next == st.(brief := next.brief)
    && st.discussion.Some? && st.suggestion.Some? && next.brief.Some?
    && var r := next.brief.value;
    && r.eventId == h.eventId
    && r.brief.briefChecksum == OfBrief(r.brief.body)
    && exists bs :: DerivedFrom(opt, st, r, bs)
  }

  /** A brief derived from validated bindings, pinned to the events of their departments. */
  ghost predicate DerivedFrom(opt: Options, st: CaseState, r: BriefRecord, bs: seq<SourceBinding>) {
    && st.discussion.Some? && st.suggestion.Some?
    && var derived := ValidateAndDerive(opt, st.discussion.value, st.suggestion.value, st.departments,
                                        r.brief.body.id, bs);
    && derived.Ok? && derived.value.1 == r.brief
    && SourceEventIds(derived.value.0, st.departments) == Ok(r.sourceEventIds)
  }

  ghost predicate ParticipationEffect(opt: Options, st: CaseState, h: Header, next: CaseState) {
    && next == st.(participation := next.participation)
    && st.participation.None? && next.participation.Some? && st.brief.Some?
    && BriefIsCurrent(opt, st)
    && var p, b := next.participation.value, st.brief.value;
    && !p.retracted && p.eventId == h.eventId
    && p.sourceBrief == ParticipationSource(BriefReference(b.brief.body.id, b.brief.briefChecksum), b.eventId)
    && p.participation.checksum
       == ParticipationChecksum(p.participation.body, p.sourceBrief, p.policyVersion, p.reviewerActorBinding)
  }

  ghost predicate RetractionEffect(st: CaseState, next: CaseState) {
    && st.participation.Some? && !st.participation.value.retracted
    && next == st.(participation := Some(st.participation.value.(retracted := true)))
  }

  ghost predicate OutcomeEffect(opt: Options, st: CaseState, h: Header, next: CaseState) {
    && next == st.(outcome := next.outcome)
    && st.outcome.None? && next.outcome.Some? && st.discussion.Some? && st.brief.Some? && st.participation.Some?
    && ParticipationIsCurrent(opt, st)
    && next.outcome.value.eventId == h.eventId
    && next.outcome.value.outcome == OutcomeOf(next.outcome.value.outcome.input)
    && OutcomeSourcesMatch(next.outcome.value.outcome.input, st)
  }

  ghost predicate HasEffect(opt: Options, st: CaseState, n: nat, h: Header, next: CaseState) {
    match h.eventType
    case PackageAssignedV1 => AssignEffect(opt, st, next)
    case DraftRecordedV1 => DepartmentEffect(st, n, next)
    case ReviewAttestedV1 => DepartmentEffect(st, n, next)
    case DraftCorrectedV1 => DepartmentEffect(st, n, next)
    case ResponseRetractedV1 => DepartmentEffect(st, n, next)
    case BriefDerivedV1 => BriefEffect(opt, st, h, next)
    case ParticipationRecordedV1 => ParticipationEffect(opt, st, h, next)
    case ParticipationRetractedV1 => RetractionEffect(st, next)
    case OutcomeRecordedV1 => OutcomeEffect(opt, st, h, next)
    case _ => IntakeEffect(st, next)
  }

  lemma DraftEffect(env: Env, opt: Options, st: CaseState, n: nat, h: Header, p: Payload)
    requires p.DraftRecorded? && h.eventId == EventId(opt.caseId, n + 1) && StepDraft(env, opt, st, h, p).Ok?
    requires forall i :: 0 <= i < |st.departments| ==> DepartmentOk(st.departments[i], n)
    ensures DepartmentEffect(st, n, StepDraft(env, opt, st, h, p).value)
  {
    hide NormalizeDraft;
    assert RewrittenAt(st, n, StepDraft(env, opt, st, h, p).value, FindPackage(st.departments, p.packageId));
  }

  lemma ReviewEffect(env: Env, opt: Options, st: CaseState, n: nat, h: Header, p: Payload)
    requires p.ReviewAttested? && h.eventId == EventId(opt.caseId, n + 1) && StepReview(env, opt, st, h, p).Ok?
    requires forall i :: 0 <= i < |st.departments| ==> DepartmentOk(st.departments[i], n)
    ensures DepartmentEffect(st, n, StepReview(env, opt, st, h, p).value)
  {
    hide NormalizeReview;
    assert RewrittenAt(st, n, StepReview(env, opt, st, h, p).value, FindPackage(st.departments, p.review.packageId));
  }

  lemma CorrectEffect(env: Env, opt: Options, st: CaseState, n: nat, h: Header, p: Payload)
    requires p.DraftCorrected? && h.eventId == EventId(opt.caseId, n + 1) && StepCorrect(env, opt, st, h, p).Ok?
    requires forall i :: 0 <= i < |st.departments| ==> DepartmentOk(st.departments[i], n)
    ensures DepartmentEffect(st, n, StepCorrect(env, opt, st, h, p).value)
  {
    hide NormalizeDraft;
    assert RewrittenAt(st, n, StepCorrect(env, opt, st, h, p).value, FindPackage(st.departments, p.packageId));
  }

  lemma RetractEffect(env: Env, opt: Options, st: CaseState, n: nat, h: Header, p: Payload)
    requires p.ResponseRetracted? && h.eventId == EventId(opt.caseId, n + 1) && StepRetract(env, opt, st, h, p).Ok?
    requires forall i :: 0 <= i < |st.departments| ==> DepartmentOk(st.departments[i], n)
    ensures DepartmentEffect(st, n, StepRetract(env, opt, st, h, p).value)
  {
    hide NormalizeRetraction;
    assert RewrittenAt(st, n, StepRetract(env, opt, st, h, p).value,
                       FindPackage(st.departments, p.retraction.packageId));
  }

  lemma AssignHasEffect(env: Env, opt: Options, st: CaseState, n: nat, h: Header, p: Payload)
    requires p.PackageAssigned? && StepAssign(env, opt, st, n, h, p).Ok?
    ensures AssignEffect(opt, st, StepAssign(env, opt, st, n, h, p).value)
  {
    hide NormalizePackage;
  }

  lemma BriefHasEffect(opt: Options, st: CaseState, h: Header, p: Payload)
    requires p.BriefDerived? && StepBrief(opt, st, h, p).Ok?
    ensures BriefEffect(opt, st, h, StepBrief(opt, st, h, p).value)
  {
    hide ValidateAndDerive;
    assert DerivedFrom(opt, st, StepBrief(opt, st, h, p).value.brief.value, p.sourceBindings);
  }

  lemma ParticipationHasEffect(env: Env, opt: Options, st: CaseState, h: Header, p: Payload)
    requires p.ParticipationRecorded? && StepParticipation(env, opt, st, h, p).Ok?
    ensures ParticipationEffect(opt, st, h, StepParticipation(env, opt, st, h, p).value)
  {
    hide NormalizeParticipation, BriefIsCurrent;
  }

  lemma RetractionHasEffect(env: Env, opt: Options, st: CaseState, h: Header, p: Payload)
    requires p.ParticipationRetracted? && StepParticipationRetracted(env, opt, st, h, p).Ok?
    ensures RetractionEffect(st, StepParticipationRetracted(env, opt, st, h, p).value)
  {
    hide NormalizeParticipationReference;
  }

  lemma OutcomeHasEffect(env: Env, opt: Options, st: CaseState, h: Header, p: Payload)
    requires p.OutcomeRecorded? && StepOutcome(env, opt, st, h, p).Ok?
    ensures OutcomeEffect(opt, st, h, StepOutcome(env, opt, st, h, p).value)
  {
    hide NormalizeOutcome, BriefIsCurrent;
  }

  /** Department work starts after the discussion. */
  ghost predicate Started(st: CaseState, n: nat) {
    st.departments != [] ==> n >= 3 && st.discussion.Some? && st.suggestion.Some?
  }

  /** The effect of a step, whatever the journal. */
  lemma StepHasEffect(env: Env, opt: Options, st: CaseState, n: nat, h: Header, p: Payload)
    requires h.eventId == EventId(opt.caseId, n + 1) && StepPayload(env, opt, st, n, h, p).Ok?
    requires forall i :: 0 <= i < |st.departments| ==> DepartmentOk(st.departments[i], n)
    requires Started(st, n)
    ensures HasEffect(opt, st, n, h, StepPayload(env, opt, st, n, h, p).value)
  {
    hide NormalizeArtifact, NormalizeSignedSuggestion, StepDraft, StepReview, StepCorrect, StepRetract, StepAssign,
      StepBrief, StepParticipation, StepParticipationRetracted, StepOutcome, DepartmentEffect, AssignEffect,
      BriefEffect, ParticipationEffect, RetractionEffect, OutcomeEffect;
    match h.eventType
    case PackageAssignedV1 => AssignHasEffect(env, opt, st, n, h, p);
    case DraftRecordedV1 => DraftEffect(env, opt, st, n, h, p);
    case ReviewAttestedV1 => ReviewEffect(env, opt, st, n, h, p);
    case DraftCorrectedV1 => CorrectEffect(env, opt, st, n, h, p);
    case ResponseRetractedV1 => RetractEffect(env, opt, st, n, h, p);
    case BriefDerivedV1 => BriefHasEffect(opt, st, h, p);
    case ParticipationRecordedV1 => ParticipationHasEffect(env, opt, st, h, p);
    case ParticipationRetractedV1 => RetractionHasEffect(env, opt, st, h, p);
    case OutcomeRecordedV1 => OutcomeHasEffect(env, opt, st, h, p);
    case _ =>
  }
}
