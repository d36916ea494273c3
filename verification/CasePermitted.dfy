/**
 Which journals replay, said of the journal alone: an event may follow exactly if it is chained to what came
 before, its lane is open, it names the event that it replaces, and it is permitted there.
 */
module CasePermitted {
  import opened Results
  import opened Texts
  import opened CaseTypes
  import opened CaseNormalize
  import opened CaseBriefs
  import opened CaseReplay
  import opened CaseInvariants
  import opened CaseBriefFacts
  import opened CaseReachable
  import opened CaseCurrency
  import opened CaseDepartments
  import opened CaseHandle
  import opened CaseRuns
  import opened CaseBriefText
  import opened CaseRecords
  import opened CaseRecording
  import opened CaseAcceptance
  import opened CaseBelief

  /** A registered actor of this class. */
  predicate Acts(opt: Options, actor: ActorBinding, c: ActorClass) {
    RegisteredActor(opt, actor) && actor.actorClass == c
  }

  predicate ActsIn(opt: Options, actor: ActorBinding, c: ActorClass, departmentId: string) {
    Acts(opt, actor, c) && opt.actors[actor.actorId].departmentId == Some(departmentId)
  }

  /** The lanes of adoptions admit nothing signed otherwise; a synthetic Case goes on with reviews at most. */
  predicate LaneOpen(opt: Options, n: nat, t: EventType) {
    && (opt.citizenAdoption || opt.syntheticAdoption ==>
          t != SignedSuggestionAdmittedV1 && t != SignedTopicSuggestionAdmittedV1)
    && (opt.syntheticAdoption && n >= 3 ==>
          && opt.syntheticDepartmentReview
          && (t == PackageAssignedV1 || t == DraftRecordedV1 || t == ReviewAttestedV1 || t == BriefDerivedV1
              || t == DraftCorrectedV1 || t == ResponseRetractedV1))
  }

  /** The event that a payload replaces or withdraws. */
  function Replaced(before: seq<Event>, p: Payload): Option<EventId> {
    match p
    case DraftCorrected(id, _, _, _, _) => Some(LatestId(before, DraftWork(id)))
    case ResponseRetracted(r) => Some(LatestId(before, AnyWork(r.packageId)))
    case ParticipationRetracted(_) => Some(LatestId(before, Participations))
    case _ => None
  }

  /** A discussion is there, and nothing is admitted or assigned yet. */
  ghost predicate Unadmitted(env: Env, opt: Options, before: seq<Event>) {
    DiscussionOf(env, before).Some? && AdmissionOf(env, opt, before).None? && PackagesOf(env, before) == []
  }

  /** A package that was assigned under this id, with this digest. */
  ghost predicate IsAssigned(env: Env, before: seq<Event>, id: string, p: (DepartmentPackage, Checksum)) {
    p in PackagesOf(env, before) && p.0.id == id
  }

  ghost predicate MayAssign(env: Env, opt: Options, before: seq<Event>, actor: ActorBinding, raw: DepartmentPackage,
                            sum: Checksum)
  {
    var n := NormalizePackage(env, raw);
    && n.Ok? && sum == OfPackage(n.value) && Acts(opt, actor, CaseSteward)
    && SuggestionOf(env, opt, before).Some? && n.value.suggestionId == SuggestionOf(env, opt, before).value.id
    && (opt.requireSignedSuggestionAdmission ==> AdmissionOf(env, opt, before).Some?)
    && (opt.requiredDepartmentIds.Some? ==> n.value.departmentId in opt.requiredDepartmentIds.value)
    && forall p :: p in PackagesOf(env, before) ==> p.0.id != n.value.id && p.0.departmentId != n.value.departmentId
  }

  /** The assigned agent drafts what is not drafted. */
  ghost predicate MayDraft(env: Env, opt: Options, before: seq<Event>, actor: ActorBinding, id: string,
                           packageSum: Checksum,
                           draft: Draft, sum: Checksum)
  {
    var n := NormalizeDraft(env, draft);
    && n.Ok? && sum == OfDraft(n.value) && DraftOf(env, before, id).None?
    && exists p :: IsAssigned(env, before, id, p) && p.1 == packageSum && actor.actorId == p.0.assignedAgentActorId
                   && ActsIn(opt, actor, DepartmentAgent, p.0.departmentId)
  }

  /** The assigned reviewer, another person than the author, reviews the draft that is there, once. */
  ghost predicate MayReview(env: Env, opt: Options, before: seq<Event>, actor: ActorBinding, raw: Review,
                            policyVersion: string, sum: Checksum)
  {
    var r := NormalizeReview(env, raw, opt.syntheticDepartmentReview);
    && r.Ok? && r.value.packageId == raw.packageId && policyVersion == opt.policyVersion
    && sum == OfAttestation(r.value, policyVersion, actor)
    && DraftOf(env, before, raw.packageId).Some? && ReviewOf(env, opt, before, raw.packageId).None?
    && var draft := DraftOf(env, before, raw.packageId).value;
    && r.value.draftArtifactChecksum == OfDraft(draft.draft) && actor.actorId != draft.actorBinding.actorId
    && exists p :: IsAssigned(env, before, raw.packageId, p) && actor.actorId == p.0.assignedReviewerActorId
                   && ActsIn(opt, actor, DepartmentReviewer, p.0.departmentId)
  }

  /** The response of the package was accepted last. */
  ghost predicate Accepts(env: Env, opt: Options, before: seq<Event>, id: string) {
    && DraftOf(env, before, id).Some? && ReviewOf(env, opt, before, id).Some?
    && ReviewOf(env, opt, before, id).value.review.decision == Accepted
  }

  ghost predicate MayCorrect(env: Env, opt: Options, before: seq<Event>, actor: ActorBinding, id: string,
                             packageSum: Checksum, prior: Checksum, draft: Draft, sum: Checksum)
  {
    var n := NormalizeDraft(env, draft);
    && n.Ok? && sum == OfDraft(n.value)
    && Accepts(env, opt, before, id) && prior == OfDraft(DraftOf(env, before, id).value.draft)
    && exists p :: IsAssigned(env, before, id, p) && p.1 == packageSum && actor.actorId == p.0.assignedAgentActorId
                   && ActsIn(opt, actor, DepartmentAgent, p.0.departmentId)
  }

  ghost predicate MayRetract(env: Env, opt: Options, before: seq<Event>, actor: ActorBinding, raw: Retraction) {
    && NormalizeRetraction(env, raw).Ok? && Acts(opt, actor, CaseSteward) && Accepts(env, opt, before, raw.packageId)
    && raw.targetDraftArtifactChecksum == OfDraft(DraftOf(env, before, raw.packageId).value.draft)
    && raw.targetReviewAttestationChecksum == ReviewOf(env, opt, before, raw.packageId).value.attestationChecksum
    && exists p :: IsAssigned(env, before, raw.packageId, p) && p.1 == raw.packageChecksum
  }

  /** The brief says what the accepted responses of all required departments say. */
  ghost predicate MayDerive(env: Env, opt: Options, before: seq<Event>, actor: ActorBinding, brief: Brief,
                            bindings: seq<SourceBinding>, sum: Checksum, policyVersion: string)
  {
    var d, s, ds := DiscussionOf(env, before), SuggestionOf(env, opt, before), DepartmentsOf(env, opt, before);
    && Acts(opt, actor, CaseSteward) && policyVersion == opt.policyVersion && sum == brief.briefChecksum
    && opt.requiredDepartmentIds.Some? && BindsAllReady(opt.requiredDepartmentIds.value, bindings, ds)
    && d.Some? && s.Some? && BriefSays(opt, d.value, s.value, ds, brief.body.id, brief)
  }

  ghost predicate MayRecord(env: Env, opt: Options, before: seq<Event>, actor: ActorBinding, raw: Participation,
                            source: ParticipationSource, policyVersion: string, reviewer: ActorBinding, sum: Checksum)
  {
    var n, k := NormalizeParticipation(env, raw), Latest(before, Briefs);
    && n.Ok? && Acts(opt, actor, ParticipationReviewer) && reviewer == actor && policyVersion == opt.policyVersion
    && Latest(before, Participations).None? && k.Some? && BriefStands(before, k.value)
    && SourceOf(before) == Some(source)
    && n.value.checksum == OfParticipation(n.value.body, source, policyVersion, actor, n.value.body.reviewedAt)
    && sum == OfParticipationAttestation(n.value.checksum, source, policyVersion, actor, n.value.body.reviewedAt)
  }

  /** The recorded brief as a source. */
  function SourceOf(before: seq<Event>): Option<ParticipationSource> {
    var r := BriefOf(before);
    if r.None? then None
    else Some(ParticipationSource(BriefReference(r.value.brief.body.id, r.value.brief.briefChecksum), r.value.eventId))
  }

  ghost predicate MayWithdraw(env: Env, opt: Options, before: seq<Event>, actor: ActorBinding,
                              raw: ParticipationReference)
  {
    var r, p := NormalizeParticipationReference(env, raw, ParticipationRetractionInvalid), ParticipationOf(env, before);
    && r.Ok? && Acts(opt, actor, CaseSteward) && p.Some? && Latest(before, Withdrawals).None?
    && r.value == ParticipationReference(p.value.participation.body.id, p.value.participation.checksum)
  }

  /** The outcome names the discussion, the brief and the participation as they were recorded. */
  ghost predicate NamesSources(env: Env, before: seq<Event>, o: OutcomeInput) {
    var d, source, p := DiscussionOf(env, before), SourceOf(before), ParticipationOf(env, before);
    && d.Some? && o.sourceDiscussionRef == SourceReference(d.value.event.id, d.value.sourceRef)
    && source.Some? && o.sourceBrief == source.value.brief
    && p.Some? && o.sourceParticipation == ParticipationReference(p.value.participation.body.id,
                                                                  p.value.participation.checksum)
  }

  ghost predicate MayConclude(env: Env, opt: Options, before: seq<Event>, actor: ActorBinding, outcome: ReviewedOutcome,
                              policyVersion: string)
  {
    var k := Latest(before, Participations);
    && NormalizeOutcome(env, outcome.input) == Ok(outcome.input)
    && outcome.outcomeChecksum == OfOutcome(outcome.input) && NamesSources(env, before, outcome.input)
    && Acts(opt, actor, CaseSteward) && policyVersion == opt.policyVersion
    && Latest(before, Outcomes).None? && k.Some? && ParticipationStands(before, k.value)
  }

  ghost predicate MayAdmitTopic(env: Env, opt: Options, before: seq<Event>, actor: ActorBinding, topic: TopicSuggestion,
                                answer: NostrEvent, sum: Checksum, policyVersion: string)
  {
    && Unadmitted(env, opt, before) && Acts(opt, actor, CaseSteward) && policyVersion == opt.policyVersion
    && var d := DiscussionOf(env, before).value;
    && var v := env.verifyTopic(ToNostr(d), answer, topic);
    && v.Ok? && v.value.caseId == opt.caseId && v.value.municipalityId == opt.jurisdiction && v.value.discussion == d
    && sum == OfTopicAdmission(v.value.signedSuggestion, v.value.sourceAnswer, opt.caseId, policyVersion, actor)
  }

  ghost predicate MayAdmitAdoption(env: Env, opt: Options, before: seq<Event>, actor: ActorBinding,
                                   evidence: AdoptionEvidence, sum: Checksum, policyVersion: string, synthetic: bool)
  {
    && |before| == 2 && Unadmitted(env, opt, before) && Acts(opt, actor, CaseSteward)
    && policyVersion == opt.policyVersion && (if synthetic then opt.syntheticAdoption else opt.citizenAdoption)
    && var v := env.verifyAdoption(synthetic, evidence);
    && v.Ok? && v.value.caseId == opt.caseId && v.value.discussion == DiscussionOf(env, before).value
    && sum == OfAdoptionAdmission(v.value.evidence, opt.caseId, policyVersion, actor)
  }

  ghost predicate MayAdmitSigned(env: Env, opt: Options, before: seq<Event>, actor: ActorBinding, raw: SignedSuggestion,
                                 sum: Checksum, policyVersion: string)
  {
    && Unadmitted(env, opt, before) && Acts(opt, actor, CaseSteward) && policyVersion == opt.policyVersion
    && var s := NormalizeSignedSuggestion(env, opt, DiscussionOf(env, before).value, raw);
    && s.Ok? && sum == OfSignedAdmission(s.value, policyVersion, actor)
  }

  ghost predicate MayFound(env: Env, opt: Options, before: seq<Event>, p: Payload) {
    match p
    case CaseCreated(caseId, _) => before == [] && caseId == opt.caseId
    case DiscussionRecorded(d, s) =>
      && |before| == 1
      && var n := NormalizeArtifact(env, d);
      && n.Ok? && n.value.id == n.value.event.id && s.discussionId == n.value.id
    case _ => false
  }

  /** What the event says may be said here by its actor. */
  ghost predicate Permitted(env: Env, opt: Options, before: seq<Event>, e: Event) {
    var actor, synthetic := e.header.actorBinding, e.header.eventType.SyntheticAdoptionAdmittedV1?;
    match e.payload
    case CaseCreated(_, _) => MayFound(env, opt, before, e.payload)
    case DiscussionRecorded(_, _) => MayFound(env, opt, before, e.payload)
    case SignedAdmitted(s, sum, policy) => MayAdmitSigned(env, opt, before, actor, s, sum, policy)
    case TopicAdmitted(t, answer, sum, policy) => MayAdmitTopic(env, opt, before, actor, t, answer, sum, policy)
    case AdoptionAdmitted(evidence, sum, policy) =>
      MayAdmitAdoption(env, opt, before, actor, evidence, sum, policy, synthetic)
    case PackageAssigned(pkg, sum) => MayAssign(env, opt, before, actor, pkg, sum)
    case DraftRecorded(id, packageSum, draft, sum) => MayDraft(env, opt, before, actor, id, packageSum, draft, sum)
    case ReviewAttested(r, policy, sum) => MayReview(env, opt, before, actor, r, policy, sum)
    case DraftCorrected(id, packageSum, prior, draft, sum) =>
      MayCorrect(env, opt, before, actor, id, packageSum, prior, draft, sum)
    case ResponseRetracted(r) => MayRetract(env, opt, before, actor, r)
    case BriefDerived(brief, bindings, sum, policy) =>
      MayDerive(env, opt, before, actor, brief, bindings, sum, policy)
    case ParticipationRecorded(p, source, policy, reviewer, sum) =>
      MayRecord(env, opt, before, actor, p, source, policy, reviewer, sum)
    case ParticipationRetracted(target) => MayWithdraw(env, opt, before, actor, target)
    case OutcomeRecorded(outcome, policy) => MayConclude(env, opt, before, actor, outcome, policy)
  }

  /** The event may follow. */
  ghost predicate MayFollow(env: Env, opt: Options, before: seq<Event>, e: Event) {
    && Chained(opt, before, e.header.actorBinding, e) && Fits(e.header.eventType, e.payload)
    && LaneOpen(opt, |before|, e.header.eventType) && e.header.correctionOf == Replaced(before, e.payload)
    && Permitted(env, opt, before, e)
  }

  // The steps of the replay.

  /** A replayed state and the journal that it remembers. */
  ghost predicate Reached(env: Env, opt: Options, before: seq<Event>, st: CaseState) {
    ValidOptions(opt) && Inv(opt, st, |before|) && Remembered(env, opt, before, st) && Fold(env, opt, before) == Ok(st)
  }

  lemma HeaderChecked(opt: Options, before: seq<Event>, e: Event)
    ensures CheckHeader(opt, HeadOf(opt, before), |before|, e) == Pass
       <==> Chained(opt, before, e.header.actorBinding, e) && LaneOpen(opt, |before|, e.header.eventType)
  {
  }

  /** A package is looked up in the state as it is in the journal. */
  lemma PackageFound(env: Env, opt: Options, before: seq<Event>, st: CaseState, id: string)
    requires Remembered(env, opt, before, st) && Unique(st.departments)
    ensures var ds, i := st.departments, FindPackage(st.departments, id);
            && (i < |ds| ==>
                  && IsAssigned(env, before, id, (ds[i].pkg, ds[i].packageChecksum))
                  && ds[i].draft == DraftOf(env, before, id) && ds[i].review == ReviewOf(env, opt, before, id))
            && forall p :: IsAssigned(env, before, id, p) ==> i < |ds| && p == (ds[i].pkg, ds[i].packageChecksum)
  {
    hide DiscussionOf, SuggestionOf, AdmissionOf, BriefOf, ParticipationOf, OutcomeIn, PackagesOf, DraftOf, ReviewOf,
      CorrectionOf, WorkIsAssigned;
    var ds, ps, i := st.departments, PackagesOf(env, before), FindPackage(st.departments, id);
    if i < |ds| {
      assert ps[i] == (ds[i].pkg, ds[i].packageChecksum);
    }
    forall p | IsAssigned(env, before, id, p) ensures i < |ds| && p == (ds[i].pkg, ds[i].packageChecksum) {
      var k :| 0 <= k < |ps| && ps[k] == p;
      assert ds[k].pkg == p.0;
    }
  }

  lemma DepartmentSound(opt: Options, st: CaseState, n: nat, i: nat)
    requires Inv(opt, st, n)
    ensures Unique(st.departments) && (i < |st.departments| ==> DepartmentOk(st.departments[i], n))
  {
    hide BriefOk, ParticipationOk, OutcomeOk;
  }

  lemma AgentActs(opt: Options, actor: ActorBinding, pkg: DepartmentPackage)
    ensures IsAgent(opt, actor, pkg) <==> && actor.actorId == pkg.assignedAgentActorId
                                          && ActsIn(opt, actor, DepartmentAgent, pkg.departmentId)
  {
  }

  lemma DraftPermitted(env: Env, opt: Options, before: seq<Event>, st: CaseState, e: Event)
    requires Reached(env, opt, before, st) && e.payload.DraftRecorded?
    ensures StepDraft(env, opt, st, e.header, e.payload).Ok?
       <==> MayDraft(env, opt, before, e.header.actorBinding, e.payload.packageId, e.payload.packageChecksum,
                     e.payload.draft, e.payload.draftArtifactChecksum)
            && e.header.correctionOf == Replaced(before, e.payload)
  {
    hide IsAgent, ActsIn, NormalizeDraft, Inv, Remembered, Fold, IsAssigned, DraftOf, ReviewOf;
    DepartmentSound(opt, st, |before|, 0);
    PackageFound(env, opt, before, st, e.payload.packageId);
    var i := FindPackage(st.departments, e.payload.packageId);
    if i < |st.departments| {
      AgentActs(opt, e.header.actorBinding, st.departments[i].pkg);
    }
  }

  lemma ReviewPermitted(env: Env, opt: Options, before: seq<Event>, st: CaseState, e: Event)
    requires Reached(env, opt, before, st) && e.payload.ReviewAttested?
    ensures StepReview(env, opt, st, e.header, e.payload).Ok?
       <==> MayReview(env, opt, before, e.header.actorBinding, e.payload.review, e.payload.policyVersion,
                      e.payload.attestationChecksum)
            && e.header.correctionOf == Replaced(before, e.payload)
  {
    hide NormalizeReview, Inv, Remembered, Fold, IsAssigned, DraftOf, ReviewOf;
    DepartmentSound(opt, st, |before|, FindPackage(st.departments, e.payload.review.packageId));
    PackageFound(env, opt, before, st, e.payload.review.packageId);
    PackageNamed(env, before, e.payload.review.packageId);
  }

  lemma PackageNamed(env: Env, before: seq<Event>, id: string)
    ensures forall p :: IsAssigned(env, before, id, p) ==> p.0.id == id
  {
  }

  lemma CorrectionPermitted(env: Env, opt: Options, before: seq<Event>, st: CaseState, e: Event)
    requires Reached(env, opt, before, st) && e.payload.DraftCorrected?
    ensures StepCorrect(env, opt, st, e.header, e.payload).Ok?
       <==> MayCorrect(env, opt, before, e.header.actorBinding, e.payload.packageId, e.payload.packageChecksum,
                       e.payload.priorDraftArtifactChecksum, e.payload.draft, e.payload.draftArtifactChecksum)
            && e.header.correctionOf == Replaced(before, e.payload)
  {
    hide IsAgent, ActsIn, NormalizeDraft, Inv, Remembered, Fold, IsAssigned, DraftOf, ReviewOf, LatestId;
    DepartmentSound(opt, st, |before|, FindPackage(st.departments, e.payload.packageId));
    PackageFound(env, opt, before, st, e.payload.packageId);
    var i := FindPackage(st.departments, e.payload.packageId);
    if i < |st.departments| {
      AgentActs(opt, e.header.actorBinding, st.departments[i].pkg);
    }
    RecordIds(env, opt, before, e.payload.packageId);
  }

  lemma RetractionPermitted(env: Env, opt: Options, before: seq<Event>, st: CaseState, e: Event)
    requires Reached(env, opt, before, st) && e.payload.ResponseRetracted?
    ensures StepRetract(env, opt, st, e.header, e.payload).Ok?
       <==> MayRetract(env, opt, before, e.header.actorBinding, e.payload.retraction)
            && e.header.correctionOf == Replaced(before, e.payload)
  {
    hide NonEmpty, Inv, Remembered, Fold, IsAssigned, DraftOf, ReviewOf, LatestId;
    DepartmentSound(opt, st, |before|, FindPackage(st.departments, e.payload.retraction.packageId));
    PackageFound(env, opt, before, st, e.payload.retraction.packageId);
    RecordIds(env, opt, before, e.payload.retraction.packageId);
  }

  lemma AssignmentPermitted(env: Env, opt: Options, before: seq<Event>, st: CaseState, e: Event)
    requires Reached(env, opt, before, st) && e.payload.PackageAssigned?
    ensures StepAssign(env, opt, st, |before|, e.header, e.payload).Ok?
       <==> MayAssign(env, opt, before, e.header.actorBinding, e.payload.departmentPackage,
                      e.payload.packageChecksum)
            && e.header.correctionOf == Replaced(before, e.payload)
  {
    hide NormalizePackage, Inv, Remembered, Fold, PackagesOf, HasPackage, HasDepartment, AdmissionOf, SuggestionOf;
    IntakeReached(env, opt, before, st);
    if NormalizePackage(env, e.payload.departmentPackage).Ok? {
      NewPackage(env, opt, before, st, NormalizePackage(env, e.payload.departmentPackage).value);
    }
  }

  lemma NewPackage(env: Env, opt: Options, before: seq<Event>, st: CaseState, pkg: DepartmentPackage)
    requires Remembered(env, opt, before, st)
    ensures !HasPackage(st.departments, pkg.id) && !HasDepartment(st.departments, pkg.departmentId)
       <==> forall p :: p in PackagesOf(env, before) ==>
                          p.0.id != pkg.id && p.0.departmentId != pkg.departmentId
  {
    hide DiscussionOf, SuggestionOf, AdmissionOf, BriefOf, ParticipationOf, OutcomeIn, PackagesOf, DraftOf, ReviewOf,
      CorrectionOf, WorkIsAssigned;
    var ds, ps := st.departments, PackagesOf(env, before);
    assert forall i :: 0 <= i < |ds| ==> ds[i].pkg == ps[i].0;
    var i, j := FindPackage(ds, pkg.id), FindDepartment(ds, pkg.departmentId);
    if i < |ds| {
      assert ps[i] in ps;
    }
    if j < |ds| {
      assert ps[j] in ps;
    }
  }

  /** The discussion, the suggestion and the admission of the state. */
  lemma IntakeReached(env: Env, opt: Options, before: seq<Event>, st: CaseState)
    requires Inv(opt, st, |before|) && Remembered(env, opt, before, st)
    ensures st.discussion == DiscussionOf(env, before) && st.suggestion == SuggestionOf(env, opt, before)
    ensures var a := AdmissionOf(env, opt, before); st.admission == if a.None? then None else Some(a.value.0)
    ensures st.discussion.Some? <==> |before| >= 2
    ensures st.suggestion.Some? <==> |before| >= 2
    ensures st.departments == [] <==> PackagesOf(env, before) == []
    ensures |before| < 2 ==> st.departments == []
  {
    hide BriefOk, ParticipationOk, OutcomeOk, DepartmentsOk, Remembered;
    StateRemembered(env, opt, before, st);
    NoPackages(env, opt, before, st);
  }

  lemma SignedPermitted(env: Env, opt: Options, before: seq<Event>, st: CaseState, e: Event)
    requires Reached(env, opt, before, st) && e.payload.SignedAdmitted?
    ensures StepSigned(env, opt, st, e.header, e.payload).Ok?
       <==> MayAdmitSigned(env, opt, before, e.header.actorBinding, e.payload.signedSuggestion,
                           e.payload.admissionChecksum,
                           e.payload.policyVersion)
            && e.header.correctionOf == Replaced(before, e.payload)
  {
    hide NormalizeSignedSuggestion, Inv, Remembered, Fold, PackagesOf, AdmissionOf, SuggestionOf, DiscussionOf;
    IntakeReached(env, opt, before, st);
  }

  lemma TopicPermitted(env: Env, opt: Options, before: seq<Event>, st: CaseState, e: Event)
    requires Reached(env, opt, before, st) && e.payload.TopicAdmitted?
    ensures StepTopic(env, opt, st, e.header, e.payload).Ok?
       <==> MayAdmitTopic(env, opt, before, e.header.actorBinding, e.payload.topicSuggestion,
                          e.payload.sourceAnswer,
                          e.payload.admissionChecksum, e.payload.policyVersion)
            && e.header.correctionOf == Replaced(before, e.payload)
  {
    hide Inv, Remembered, Fold, PackagesOf, AdmissionOf, SuggestionOf, DiscussionOf;
    IntakeReached(env, opt, before, st);
  }

  lemma AdoptionPermitted(env: Env, opt: Options, before: seq<Event>, st: CaseState, e: Event)
    requires Reached(env, opt, before, st) && e.payload.AdoptionAdmitted?
    ensures StepAdoption(env, opt, st, |before|, e.header, e.payload,
                         e.header.eventType.SyntheticAdoptionAdmittedV1?).Ok?
       <==> MayAdmitAdoption(env, opt, before, e.header.actorBinding, e.payload.evidence,
                             e.payload.admissionChecksum,
                             e.payload.policyVersion, e.header.eventType.SyntheticAdoptionAdmittedV1?)
            && e.header.correctionOf == Replaced(before, e.payload)
  {
    hide Inv, Remembered, Fold, PackagesOf, AdmissionOf, SuggestionOf, DiscussionOf;
    IntakeReached(env, opt, before, st);
  }

  lemma FoundingPermitted(env: Env, opt: Options, before: seq<Event>, st: CaseState, e: Event)
    requires Reached(env, opt, before, st)
    ensures var h, p, follows := e.header, e.payload,
                                 Permitted(env, opt, before, e) && e.header.correctionOf == Replaced(before, e.payload);
            && (p.CaseCreated? ==> (StepCreated(opt, st, |before|, h, p).Ok? <==> follows))
            && (p.DiscussionRecorded? ==> (StepDiscussion(env, st, |before|, h, p).Ok? <==> follows))
  {
    hide NormalizeArtifact, Inv, Remembered, Fold;
  }

  /** The records of the state, and where they stand. */
  lemma ReachedStands(env: Env, opt: Options, before: seq<Event>, st: CaseState)
    requires Reached(env, opt, before, st)
    ensures st.brief == BriefOf(before) && st.participation == ParticipationOf(env, before)
    ensures st.outcome.Some? <==> Latest(before, Outcomes).Some?
    ensures st.participation.Some? <==> Latest(before, Participations).Some?
    ensures BriefIsCurrent(opt, st)
       <==> Latest(before, Briefs).Some? && BriefStands(before, Latest(before, Briefs).value)
    ensures ParticipationIsCurrent(opt, st)
       <==> && Latest(before, Participations).Some?
            && ParticipationStands(before, Latest(before, Participations).value)
    ensures st.participation.Some? ==> st.participation.value.retracted == Latest(before, Withdrawals).Some?
    ensures BriefIsCurrent(opt, st) ==> st.discussion.Some? && st.suggestion.Some? && st.brief.Some?
    ensures ParticipationIsCurrent(opt, st) ==> BriefIsCurrent(opt, st) && !st.participation.value.retracted
  {
    hide Inv, Remembered, Fold, DiscussionOf, SuggestionOf, AdmissionOf, DepartmentsOf, OutcomeIn, PinsOf,
      NormalizeParticipation, Stands, AllPinned, ValidateAndDerive, Latest;
    RememberedState(env, opt, before, st);
    RecordsStand(env, opt, before, st);
    if Latest(before, Participations).Some? {
      ParticipationRemains(env, opt, before);
    }
  }

  lemma ParticipationPermitted(env: Env, opt: Options, before: seq<Event>, st: CaseState, e: Event)
    requires Reached(env, opt, before, st) && e.payload.ParticipationRecorded?
    ensures StepParticipation(env, opt, st, e.header, e.payload).Ok?
       <==> MayRecord(env, opt, before, e.header.actorBinding, e.payload.participation, e.payload.sourceBrief,
                      e.payload.policyVersion, e.payload.reviewerActorBinding, e.payload.reviewAttestationChecksum)
            && e.header.correctionOf == Replaced(before, e.payload)
  {
    hide NormalizeParticipation, Inv, Remembered, Fold, BriefIsCurrent, ParticipationIsCurrent, ParticipationOf, Stands,
      PinsOf;
    ReachedStands(env, opt, before, st);
  }

  lemma WithdrawalPermitted(env: Env, opt: Options, before: seq<Event>, st: CaseState, e: Event)
    requires Reached(env, opt, before, st) && e.payload.ParticipationRetracted?
    ensures StepParticipationRetracted(env, opt, st, e.header, e.payload).Ok?
       <==> MayWithdraw(env, opt, before, e.header.actorBinding, e.payload.target)
            && e.header.correctionOf == Replaced(before, e.payload)
  {
    hide NormalizeParticipation, NonEmpty, Inv, Remembered, Fold, BriefIsCurrent, ParticipationIsCurrent, Stands,
      BriefOf;
    ReachedStands(env, opt, before, st);
  }

  lemma SourcesNamed(env: Env, opt: Options, before: seq<Event>, st: CaseState, o: OutcomeInput)
    requires Reached(env, opt, before, st) && st.brief.Some? && st.participation.Some? && st.discussion.Some?
    ensures OutcomeSourcesMatch(o, st) <==> NamesSources(env, before, o)
  {
    hide Inv, Remembered, Fold, BriefIsCurrent, ParticipationIsCurrent, ParticipationOf, Stands, BriefOf, DiscussionOf;
    ReachedStands(env, opt, before, st);
    IntakeReached(env, opt, before, st);
  }

  lemma OutcomePermitted(env: Env, opt: Options, before: seq<Event>, st: CaseState, e: Event)
    requires Reached(env, opt, before, st) && e.payload.OutcomeRecorded?
    ensures StepOutcome(env, opt, st, e.header, e.payload).Ok?
       <==> MayConclude(env, opt, before, e.header.actorBinding, e.payload.outcome, e.payload.policyVersion)
            && e.header.correctionOf == Replaced(before, e.payload)
  {
    hide NormalizeOutcome, Inv, Remembered, Fold, BriefIsCurrent, ParticipationIsCurrent, ParticipationOf, Stands,
      BriefOf, DiscussionOf, OutcomeSourcesMatch, NamesSources;
    ReachedStands(env, opt, before, st);
    IntakeReached(env, opt, before, st);
    if st.brief.Some? && st.participation.Some? && st.discussion.Some? {
      SourcesNamed(env, opt, before, st, e.payload.outcome.input);
    }
  }

  // The brief.

  /** Two lists that ascend and have the same members are one list. */
  lemma {:induction false} AscendingUnique(xs: seq<string>, ys: seq<string>)
    requires forall i, j :: 0 <= i < j < |xs| ==> Less(xs[i], xs[j])
    requires forall i, j :: 0 <= i < j < |ys| ==> Less(ys[i], ys[j])
    requires forall x :: x in xs <==> x in ys
    ensures xs == ys
  {
    EmptyTogether(xs, ys);
    if xs != [] {
      FirstIsLeast(xs, ys);
      LessIrreflexive(xs[0]);
      assert xs[0] !in xs[1..] && ys[0] !in ys[1..];
      assert xs == [xs[0]] + xs[1..] && ys == [ys[0]] + ys[1..];
      forall x ensures x in xs[1..] <==> x in ys[1..] {
        assert x in xs <==> x in ys;
      }
      AscendingUnique(xs[1..], ys[1..]);
    }
  }

  lemma EmptyTogether(xs: seq<string>, ys: seq<string>)
    requires forall x :: x in xs <==> x in ys
    ensures xs == [] <==> ys == []
  {
    if xs != [] {
      assert xs[0] in ys;
    }
    if ys != [] {
      assert ys[0] in xs;
    }
  }

  lemma FirstIsLeast(xs: seq<string>, ys: seq<string>)
    requires forall i, j :: 0 <= i < j < |xs| ==> Less(xs[i], xs[j])
    requires forall i, j :: 0 <= i < j < |ys| ==> Less(ys[i], ys[j])
    requires xs != [] && ys != [] && forall x :: x in xs <==> x in ys
    ensures xs[0] == ys[0]
  {
    assert xs[0] in ys && ys[0] in xs;
    var i :| 0 <= i < |ys| && ys[i] == xs[0];
    var j :| 0 <= j < |xs| && xs[j] == ys[0];
    if i != 0 && j != 0 {
      LessAsymmetric(xs[0], ys[0]);
    }
  }

  lemma RespondsOnce(r: Response, s: Response, d: Department)
    requires Responds(r, d) && Responds(s, d)
    ensures r == s
  {
    AscendingUnique(r.publicCitations, s.publicCitations);
  }

  /** There is one brief that says this. */
  lemma SaysOnce(opt: Options, d: Discussion, s: Suggestion, ds: seq<Department>, id: string, a: Brief, b: Brief)
    requires BriefSays(opt, d, s, ds, id, a) && BriefSays(opt, d, s, ds, id, b)
    ensures a == b
  {
    hide Responds, Joined, Lines, Ready;
    var required := opt.requiredDepartmentIds.value;
    forall k | 0 <= k < |required|
      ensures a.body.responses[k] == b.body.responses[k] && a.body.packageBindings[k] == b.body.packageBindings[k]
    {
      RespondsOnce(a.body.responses[k], b.body.responses[k], DepartmentFor(ds, required[k]));
    }
    assert a.body.responses == b.body.responses;
    assert a.body.packageBindings == b.body.packageBindings;
  }

  /** A derivation gives the one brief that says what the departments say. */
  lemma DerivesWhatIsSaid(opt: Options, d: Discussion, s: Suggestion, ds: seq<Department>, bs: seq<SourceBinding>,
                          brief: Brief)
    requires ValidOptions(opt) && Unique(ds)
    ensures ValidateAndDerive(opt, d, s, ds, brief.body.id, bs).Ok?
            && ValidateAndDerive(opt, d, s, ds, brief.body.id, bs).value.1 == brief
       <==> && opt.requiredDepartmentIds.Some? && BindsAllReady(opt.requiredDepartmentIds.value, bs, ds)
            && BriefSays(opt, d, s, ds, brief.body.id, brief)
  {
    hide ValidateAndDerive, BindsAllReady, BriefSays;
    DerivesExactly(opt, d, s, ds, brief.body.id, bs);
    if ValidateAndDerive(opt, d, s, ds, brief.body.id, bs).Ok? {
      DerivedSays(opt, d, s, ds, brief.body.id, bs);
      if BriefSays(opt, d, s, ds, brief.body.id, brief) {
        SaysOnce(opt, d, s, ds, brief.body.id, brief, ValidateAndDerive(opt, d, s, ds, brief.body.id, bs).value.1);
      }
    }
  }

  lemma BriefPermitted(env: Env, opt: Options, before: seq<Event>, st: CaseState, e: Event)
    requires Reached(env, opt, before, st) && e.payload.BriefDerived?
    ensures StepBrief(opt, st, e.header, e.payload).Ok?
       <==> MayDerive(env, opt, before, e.header.actorBinding, e.payload.brief, e.payload.sourceBindings,
                      e.payload.briefChecksum,
                      e.payload.policyVersion)
            && e.header.correctionOf == Replaced(before, e.payload)
  {
    hide Inv, Remembered, Fold, ValidateAndDerive, SourceEventIds, BindsAllReady, DiscussionOf, SuggestionOf,
      AdmissionOf, DepartmentsOf, BriefSays;
    var p := e.payload;
    DepartmentSound(opt, st, |before|, 0);
    IntakeReached(env, opt, before, st);
    DepartmentsRemembered(env, opt, before, st);
    if st.discussion.Some? && st.suggestion.Some? {
      DerivesWhatIsSaid(opt, st.discussion.value, st.suggestion.value, st.departments, p.sourceBindings, p.brief);
      SaidChecksum(opt, st.discussion.value, st.suggestion.value, st.departments, p.brief);
      if ValidateAndDerive(opt, st.discussion.value, st.suggestion.value, st.departments, p.brief.body.id,
                           p.sourceBindings).Ok? {
        DerivedHasSources(opt, st.discussion.value, st.suggestion.value, st.departments, p.brief.body.id,
                          p.sourceBindings);
      }
    }
  }

  lemma DerivedHasSources(opt: Options, d: Discussion, s: Suggestion, ds: seq<Department>, id: string,
                          bs: seq<SourceBinding>)
    requires Unique(ds) && ValidateAndDerive(opt, d, s, ds, id, bs).Ok?
    ensures SourceEventIds(ValidateAndDerive(opt, d, s, ds, id, bs).value.0, ds).Ok?
  {
    hide ValidateBindings, SourceEventIds, DeriveBrief;
    ValidatedHaveSources(opt, bs, ds);
  }

  lemma SaidChecksum(opt: Options, d: Discussion, s: Suggestion, ds: seq<Department>, brief: Brief)
    ensures BriefSays(opt, d, s, ds, brief.body.id, brief) ==> brief.briefChecksum == OfBrief(brief.body)
  {
  }

  lemma DepartmentsRemembered(env: Env, opt: Options, before: seq<Event>, st: CaseState)
    requires Remembered(env, opt, before, st)
    ensures st.departments == DepartmentsOf(env, opt, before)
  {
    hide DiscussionOf, SuggestionOf, AdmissionOf, DepartmentsOf, BriefOf, ParticipationOf, OutcomeIn, WorkIsAssigned;
  }

  // The journal.

  /** An event is believed exactly if it may follow. */
  lemma BelievedExactly(env: Env, opt: Options, before: seq<Event>, e: Event)
    requires ValidOptions(opt) && Fold(env, opt, before).Ok?
    ensures Fold(env, opt, before + [e]).Ok? <==> MayFollow(env, opt, before, e)
  {
    hide StepPayload, Fold, Remembered, Inv, StateOf, StepCreated, StepDiscussion, StepSigned, StepTopic, StepAdoption,
      StepAssign, StepDraft, StepReview, StepCorrect, StepRetract, StepBrief, StepParticipation,
      StepParticipationRetracted, StepOutcome, Permitted, Replaced, CheckHeader, Chained, LaneOpen, Fits, HeadOf,
      Stepped;
    FoldAppend(env, opt, before, e);
    ReplayRemembers(env, opt, before);
    ReplayedOk(env, opt, before);
    var st := Fold(env, opt, before).value;
    HeadRemembered(env, opt, before);
    HeaderChecked(opt, before, e);
    StepFitsExactly(env, opt, st, |before|, e);
    StepPermitted(env, opt, before, st, e);
  }

  lemma StepFitsExactly(env: Env, opt: Options, st: CaseState, n: nat, e: Event)
    ensures StepPayload(env, opt, st, n, e.header, e.payload).Ok?
       <==> Fits(e.header.eventType, e.payload) && Stepped(env, opt, st, n, e)
  {
    hide StepCreated, StepDiscussion, StepSigned, StepTopic, StepAdoption, StepAssign, StepDraft, StepReview,
      StepCorrect, StepRetract, StepBrief, StepParticipation, StepParticipationRetracted, StepOutcome;
  }

  lemma StepPermitted(env: Env, opt: Options, before: seq<Event>, st: CaseState, e: Event)
    requires Reached(env, opt, before, st)
    ensures Stepped(env, opt, st, |before|, e)
       <==> Permitted(env, opt, before, e) && e.header.correctionOf == Replaced(before, e.payload)
  {
    hide Reached, Replaced, MayAssign, MayDraft, MayReview, MayCorrect, MayRetract, MayDerive, MayRecord, MayWithdraw,
      MayConclude, MayAdmitTopic, MayAdmitAdoption, MayAdmitSigned, MayFound, StepCreated, StepDiscussion, StepSigned,
      StepTopic, StepAdoption, StepAssign, StepDraft, StepReview, StepCorrect, StepRetract, StepBrief,
      StepParticipation, StepParticipationRetracted, StepOutcome;
    match e.payload
    case CaseCreated(_, _) => FoundingPermitted(env, opt, before, st, e);
    case DiscussionRecorded(_, _) => FoundingPermitted(env, opt, before, st, e);
    case SignedAdmitted(_, _, _) => SignedPermitted(env, opt, before, st, e);
    case TopicAdmitted(_, _, _, _) => TopicPermitted(env, opt, before, st, e);
    case AdoptionAdmitted(_, _, _) => AdoptionPermitted(env, opt, before, st, e);
    case PackageAssigned(_, _) => AssignmentPermitted(env, opt, before, st, e);
    case DraftRecorded(_, _, _, _) => DraftPermitted(env, opt, before, st, e);
    case ReviewAttested(_, _, _) => ReviewPermitted(env, opt, before, st, e);
    case DraftCorrected(_, _, _, _, _) => CorrectionPermitted(env, opt, before, st, e);
    case ResponseRetracted(_) => RetractionPermitted(env, opt, before, st, e);
    case BriefDerived(_, _, _, _) => BriefPermitted(env, opt, before, st, e);
    case ParticipationRecorded(_, _, _, _, _) => ParticipationPermitted(env, opt, before, st, e);
    case ParticipationRetracted(_) => WithdrawalPermitted(env, opt, before, st, e);
    case OutcomeRecorded(_, _) => OutcomePermitted(env, opt, before, st, e);
  }

  /** A journal replays exactly if every event of it may follow those before it. */
  lemma {:induction false} ReplaysExactly(env: Env, opt: Options, events: seq<Event>)
    requires ValidOptions(opt)
    ensures Fold(env, opt, events).Ok? <==> forall k :: 0 <= k < |events|
                                                        ==> MayFollow(env, opt, events[..k], events[k])
  {
    hide MayFollow, Step;
    if events != [] {
      var n := |events| - 1;
      ReplaysExactly(env, opt, events[..n]);
      assert events[..n] + [events[n]] == events;
      forall k | 0 <= k < n ensures events[..n][..k] == events[..k] && events[..n][k] == events[k] {
      }
      if Fold(env, opt, events[..n]).Ok? {
        BelievedExactly(env, opt, events[..n], events[n]);
      }
    }
  }
}
