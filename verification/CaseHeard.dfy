/**
 What the coordinator hears. Normalising a command trims its texts and orders its sets, and does nothing
 else to it; it refuses a command exactly if one of its parts is not good.
 */
module CaseHeard {
  import opened Results
  import opened Texts
  import opened Binary64
  import opened CaseTypes
  import opened CaseNormalize
  import opened CaseOrderFree
  import S = Sorting

  // Good texts.

  predicate GoodText(env: Env, s: string) {
    Trim(s) != "" && !env.secret(s)
  }

  predicate GoodDepartmentText(env: Env, s: string, limit: nat) {
    GoodText(env, s) && |Trim(s)| <= limit && !env.privateDepartmentValue(Trim(s))
  }

  predicate GoodParticipationText(env: Env, s: string, limit: nat) {
    GoodText(env, s) && |Trim(s)| <= limit && !env.participationValue(Trim(s))
  }

  function Trimmed(xs: seq<string>): (r: seq<string>)
    ensures |r| == |xs|
  {
    seq(|xs|, i requires 0 <= i < |xs| => Trim(xs[i]))
  }

  lemma PlainTextHeard(env: Env, s: string, code: ErrorCode)
    ensures NonEmpty(env, s, code).Ok? <==> GoodText(env, s)
    ensures NonEmpty(env, s, code).Ok? ==> NonEmpty(env, s, code).value == Trim(s)
  {
    hide Trim;
  }

  lemma TextHeard(env: Env, s: string, code: ErrorCode, limit: nat)
    ensures NonEmpty(env, s, code).Ok? <==> GoodText(env, s)
    ensures NonEmpty(env, s, code).Ok? ==> NonEmpty(env, s, code).value == Trim(s)
    ensures DepartmentText(env, s, code, limit).Ok? <==> GoodDepartmentText(env, s, limit)
    ensures DepartmentText(env, s, code, limit).Ok? ==> DepartmentText(env, s, code, limit).value == Trim(s)
    ensures ParticipationText(env, s, code, limit).Ok? <==> GoodParticipationText(env, s, limit)
    ensures ParticipationText(env, s, code, limit).Ok? ==> ParticipationText(env, s, code, limit).value == Trim(s)
  {
    hide Trim, NonEmpty, GoodText;
    PlainTextHeard(env, s, code);
  }

  lemma {:induction false} AllHeard<A, B>(f: A -> Result<B>, xs: seq<A>)
    ensures MapAll(f, xs).Ok? <==> forall i :: 0 <= i < |xs| ==> f(xs[i]).Ok?
    ensures MapAll(f, xs).Ok? ==>
              && |MapAll(f, xs).value| == |xs|
              && forall i :: 0 <= i < |xs| ==> MapAll(f, xs).value[i] == f(xs[i]).value
  {
    if xs != [] {
      AllHeard(f, xs[1..]);
      if f(xs[0]).Ok? && forall i :: 0 <= i < |xs[1..]| ==> f(xs[1..][i]).Ok? {
        forall i | 0 <= i < |xs| ensures f(xs[i]).Ok? {
          assert i > 0 ==> xs[i] == xs[1..][i - 1];
        }
      }
      if forall i :: 0 <= i < |xs| ==> f(xs[i]).Ok? {
        assert forall i :: 0 <= i < |xs[1..]| ==> f(xs[1..][i]).Ok?;
      }
    }
  }

  lemma DepartmentTextsHeard(env: Env, xs: seq<string>, code: ErrorCode, limit: nat)
    ensures MapAll(DepartmentTextOf(env, code, limit), xs).Ok? <==>
            forall i :: 0 <= i < |xs| ==> GoodDepartmentText(env, xs[i], limit)
    ensures MapAll(DepartmentTextOf(env, code, limit), xs).Ok? ==>
              MapAll(DepartmentTextOf(env, code, limit), xs).value == Trimmed(xs)
  {
    hide DepartmentText, GoodDepartmentText, Trim;
    var f := DepartmentTextOf(env, code, limit);
    AllHeard(f, xs);
    forall i | 0 <= i < |xs|
      ensures f(xs[i]).Ok? <==> GoodDepartmentText(env, xs[i], limit)
      ensures f(xs[i]).Ok? ==> f(xs[i]).value == Trim(xs[i])
    {
      TextHeard(env, xs[i], code, limit);
    }
  }

  predicate GoodTexts(env: Env, xs: seq<string>) {
    |xs| <= 64 && forall i :: 0 <= i < |xs| ==> GoodParticipationText(env, xs[i], 2048)
  }

  function HeardTexts(xs: seq<string>): seq<string> {
    S.Sort(Itself, Trimmed(xs))
  }

  lemma TextArrayHeard(env: Env, xs: seq<string>, code: ErrorCode)
    ensures ParticipationTextArray(env, xs, code).Ok? <==> GoodTexts(env, xs)
    ensures ParticipationTextArray(env, xs, code).Ok? ==> ParticipationTextArray(env, xs, code).value == HeardTexts(xs)
  {
    hide ParticipationText, GoodParticipationText, Trim;
    var f := ParticipationTextOf(env, code);
    AllHeard(f, xs);
    forall i | 0 <= i < |xs|
      ensures f(xs[i]).Ok? <==> GoodParticipationText(env, xs[i], 2048)
      ensures f(xs[i]).Ok? ==> f(xs[i]).value == Trim(xs[i])
    {
      TextHeard(env, xs[i], code, 2048);
    }
    if MapAll(f, xs).Ok? {
      assert MapAll(f, xs).value == Trimmed(xs);
    }
  }

  // The discussion.

  predicate GoodArtifact(env: Env, d: Discussion) {
    var e := d.event;
    && GoodText(env, d.id) && GoodText(env, d.sourceRef) && GoodText(env, d.municipalityId) && GoodText(env, d.caseId)
    && GoodText(env, d.signature) && GoodText(env, e.id) && GoodText(env, e.pubkey) && GoodText(env, e.content)
    && SafeInteger(e.createdAt) && SafeInteger(e.kind) && !env.secretValue(Trim(e.content))
    && (forall tag, part | tag in e.tags && part in tag :: !env.secretValue(part))
    && (forall ref | ref in e.relayRefs :: !env.secretValue(ref))
    && Trim(e.id) == Trim(d.id) && "nostr://event/" <= Trim(d.sourceRef)
  }

  function HeardArtifact(d: Discussion): Discussion {
    d.(id := Trim(d.id), sourceRef := Trim(d.sourceRef), municipalityId := Trim(d.municipalityId),
    caseId := Trim(d.caseId),
    signature := Trim(d.signature),
    event := d.event.(id := Trim(d.event.id), pubkey := Trim(d.event.pubkey), content := Trim(d.event.content)))
  }

  lemma ArtifactHeard(env: Env, d: Discussion)
    ensures NormalizeArtifact(env, d).Ok? <==> GoodArtifact(env, d)
    ensures NormalizeArtifact(env, d).Ok? ==> NormalizeArtifact(env, d).value == HeardArtifact(d)
  {
    hide Trim;
  }

  // The department work.

  predicate GoodPackage(env: Env, p: DepartmentPackage) {
    && GoodDepartmentText(env, p.id, 512) && GoodDepartmentText(env, p.departmentId, 256)
    && GoodDepartmentText(env, p.suggestionId, 512) && GoodDepartmentText(env, p.request, 4000)
    && GoodDepartmentText(env, p.assignedAgentActorId, 256) && GoodDepartmentText(env, p.assignedReviewerActorId, 256)
    && "urn:stadtstack:suggestion:" <= Trim(p.suggestionId)
    && Trim(p.assignedAgentActorId) != Trim(p.assignedReviewerActorId)
  }

  function HeardPackage(p: DepartmentPackage): DepartmentPackage {
    DepartmentPackage(Trim(p.id), Trim(p.departmentId), Trim(p.suggestionId), Trim(p.request),
                      Trim(p.assignedAgentActorId), Trim(p.assignedReviewerActorId))
  }

  lemma PackageHeard(env: Env, p: DepartmentPackage)
    ensures NormalizePackage(env, p).Ok? <==> GoodPackage(env, p)
    ensures NormalizePackage(env, p).Ok? ==> NormalizePackage(env, p).value == HeardPackage(p)
  {
    hide Trim, DepartmentText, GoodDepartmentText;
    TextHeard(env, p.id, DepartmentPackageInvalid, 512);
    TextHeard(env, p.departmentId, DepartmentPackageInvalid, 256);
    TextHeard(env, p.suggestionId, DepartmentPackageInvalid, 512);
    TextHeard(env, p.request, DepartmentPackageInvalid, 4000);
    TextHeard(env, p.assignedAgentActorId, DepartmentPackageInvalid, 256);
    TextHeard(env, p.assignedReviewerActorId, DepartmentPackageInvalid, 256);
  }

  predicate GoodDraft(env: Env, d: Draft) {
    && |d.publicCitations| <= 64 && |d.privateEvidenceRefs| <= 64
    && (forall i :: 0 <= i < |d.publicCitations| ==> GoodDepartmentText(env, d.publicCitations[i], 2048))
    && (forall i :: 0 <= i < |d.privateEvidenceRefs| ==> GoodDepartmentText(env, d.privateEvidenceRefs[i], 2048))
    && (forall c | c in Trimmed(d.publicCitations) :: env.publicReference(c))
    && (forall r | r in Trimmed(d.privateEvidenceRefs) :: env.syntheticReference(r))
    && GoodDepartmentText(env, d.id, 512) && GoodDepartmentText(env, d.publicSummary, 4000)
  }

  function HeardDraft(d: Draft): Draft {
    Draft(Trim(d.id), Trim(d.publicSummary), Trimmed(d.publicCitations), Trimmed(d.privateEvidenceRefs))
  }

  lemma DraftHeard(env: Env, d: Draft)
    ensures NormalizeDraft(env, d).Ok? <==> GoodDraft(env, d)
    ensures NormalizeDraft(env, d).Ok? ==> NormalizeDraft(env, d).value == HeardDraft(d)
  {
    hide Trim, DepartmentText, GoodDepartmentText, MapAll;
    var code := DepartmentDraftInvalid;
    DepartmentTextsHeard(env, d.publicCitations, code, 2048);
    DepartmentTextsHeard(env, d.privateEvidenceRefs, code, 2048);
    TextHeard(env, d.id, code, 512);
    TextHeard(env, d.publicSummary, code, 4000);
  }

  predicate GoodReview(env: Env, r: Review, synthetic: bool) {
    && (if synthetic then env.canonicalInstant(r.reviewedAt) else r.reviewedAt == "2026-08-08T00:00:05.000Z")
    && GoodText(env, r.packageId)
  }

  lemma ReviewHeard(env: Env, r: Review, synthetic: bool)
    ensures NormalizeReview(env, r, synthetic).Ok? <==> GoodReview(env, r, synthetic)
    ensures NormalizeReview(env, r, synthetic).Ok? ==>
              NormalizeReview(env, r, synthetic).value == r.(packageId := Trim(r.packageId))
  {
    hide Trim;
  }

  // The brief.

  function HeardBinding(b: SourceBinding): SourceBinding {
    b.(packageId := Trim(b.packageId))
  }

  function HeardBindings(bs: seq<SourceBinding>): (r: seq<SourceBinding>)
    ensures |r| == |bs|
  {
    seq(|bs|, i requires 0 <= i < |bs| => HeardBinding(bs[i]))
  }

  predicate GoodBrief(env: Env, b: BriefInput) {
    && b.sourceBindings != [] && GoodDepartmentText(env, b.id, 512)
    && (forall i :: 0 <= i < |b.sourceBindings| ==> GoodText(env, b.sourceBindings[i].packageId))
    && DistinctBindings(HeardBindings(b.sourceBindings))
  }

  function HeardBrief(b: BriefInput): BriefInput {
    BriefInput(Trim(b.id), S.Sort(BindingKey, HeardBindings(b.sourceBindings)))
  }

  lemma BriefHeard(env: Env, b: BriefInput)
    ensures NormalizeBrief(env, b).Ok? <==> GoodBrief(env, b)
    ensures NormalizeBrief(env, b).Ok? ==> NormalizeBrief(env, b).value == HeardBrief(b)
  {
    hide Trim, DepartmentText, GoodDepartmentText, MapAll, NonEmpty, GoodText;
    var f, bs := BindingNormalizer(env), b.sourceBindings;
    AllHeard(f, bs);
    forall i | 0 <= i < |bs|
      ensures f(bs[i]).Ok? <==> GoodText(env, bs[i].packageId)
      ensures f(bs[i]).Ok? ==> f(bs[i]).value == HeardBinding(bs[i])
    {
      TextHeard(env, bs[i].packageId, CitizenBriefBindingInvalid, 0);
    }
    if MapAll(f, bs).Ok? {
      assert MapAll(f, bs).value == HeardBindings(bs);
    }
    TextHeard(env, b.id, CitizenBriefInvalid, 512);
  }

  // The participation.

  predicate GoodCount(n: int) {
    0 <= n <= MAX_SAFE_INTEGER
  }

  predicate GoodOption(env: Env, o: ParticipationOption) {
    GoodParticipationText(env, o.optionId, 256) && GoodParticipationText(env, o.optionLabel, 1000)
    && GoodCount(o.aggregateCount)
  }

  function HeardOption(o: ParticipationOption): ParticipationOption {
    o.(optionId := Trim(o.optionId), optionLabel := Trim(o.optionLabel))
  }

  function HeardOptions(os: seq<ParticipationOption>): seq<ParticipationOption> {
    S.Sort(OptionKey, seq(|os|, i requires 0 <= i < |os| => HeardOption(os[i])))
  }

  predicate GoodOptions(env: Env, os: seq<ParticipationOption>) {
    && |os| <= 64 && (forall i :: 0 <= i < |os| ==> GoodOption(env, os[i]))
    && DistinctOptions(HeardOptions(os))
  }

  lemma OptionsHeard(env: Env, os: seq<ParticipationOption>)
    ensures NormalizeOptionSet(env, os).Ok? <==> GoodOptions(env, os)
    ensures NormalizeOptionSet(env, os).Ok? ==> NormalizeOptionSet(env, os).value == HeardOptions(os)
  {
    hide Trim, ParticipationText, GoodParticipationText, MapAll;
    var f := OptionNormalizer(env);
    AllHeard(f, os);
    forall i | 0 <= i < |os|
      ensures f(os[i]).Ok? <==> GoodOption(env, os[i])
      ensures f(os[i]).Ok? ==> f(os[i]).value == HeardOption(os[i])
    {
      TextHeard(env, os[i].optionId, ParticipationField, 256);
      TextHeard(env, os[i].optionLabel, ParticipationField, 1000);
    }
    if MapAll(f, os).Ok? {
      assert MapAll(f, os).value == seq(|os|, i requires 0 <= i < |os| => HeardOption(os[i]));
    }
  }

  function HeardOptional(s: Option<string>): Option<string> {
    if s.None? then None else Some(Trim(s.value))
  }

  predicate GoodAudit(env: Env, a: RepresentationAudit) {
    && GoodParticipationText(env, a.targetPopulationDescription, 4000)
    && GoodParticipationText(env, a.recruitmentMethod, 4000)
    && (a.samplingMethod.Some? ==> GoodParticipationText(env, a.samplingMethod.value, 4000))
    && GoodCount(a.totalCompleted) && GoodCount(a.totalStarted) && a.totalCompleted <= a.totalStarted
    && (a.totalInvited.Some? ==> GoodCount(a.totalInvited.value) && a.totalStarted <= a.totalInvited.value)
    && GoodTexts(env, a.limitations)
  }

  function HeardAudit(a: RepresentationAudit): RepresentationAudit {
    a.(targetPopulationDescription := Trim(a.targetPopulationDescription),
    recruitmentMethod := Trim(a.recruitmentMethod),
    samplingMethod := HeardOptional(a.samplingMethod), limitations := HeardTexts(a.limitations))
  }

  lemma AuditHeard(env: Env, a: RepresentationAudit)
    ensures NormalizeAudit(env, a).Ok? <==> GoodAudit(env, a)
    ensures NormalizeAudit(env, a).Ok? ==> NormalizeAudit(env, a).value == HeardAudit(a)
  {
    hide Trim, ParticipationText, GoodParticipationText, ParticipationTextArray, GoodTexts, HeardTexts;
    TextHeard(env, a.targetPopulationDescription, ParticipationField, 4000);
    TextHeard(env, a.recruitmentMethod, ParticipationField, 4000);
    if a.samplingMethod.Some? {
      TextHeard(env, a.samplingMethod.value, ParticipationField, 4000);
    }
    TextArrayHeard(env, a.limitations, ParticipationField);
  }

  /** The three times follow each other, and the review has its one time. */
  predicate GoodTimes(env: Env, b: ParticipationBody) {
    && env.utcMillis(b.openedAt).Some? && env.utcMillis(b.closedAt).Some? && env.utcMillis(b.reviewedAt).Some?
    && env.utcMillis(b.openedAt).value <= env.utcMillis(b.closedAt).value <= env.utcMillis(b.reviewedAt).value
    && b.reviewedAt == "2026-08-08T00:00:05.000Z"
  }

  predicate GoodStatements(env: Env, b: ParticipationBody) {
    && GoodParticipationText(env, b.id, 512) && GoodParticipationText(env, b.contractId, 512)
    && GoodParticipationText(env, b.methodKind, 256) && GoodParticipationText(env, b.methodVersion, 256)
    && GoodParticipationText(env, b.ruleId, 256) && GoodParticipationText(env, b.ruleVersion, 256)
    && GoodParticipationText(env, b.question, 4000) && GoodParticipationText(env, b.resultSummary, 4000)
    && GoodTexts(env, b.unresolvedDissent) && GoodTexts(env, b.limitations)
  }

  predicate GoodReferences(env: Env, b: ParticipationBody) {
    && GoodParticipationText(env, b.resultArtifactRef, 2048) && env.syntheticReference(Trim(b.resultArtifactRef))
    && (b.minorityReportRef.Some? ==>
          && GoodParticipationText(env, b.minorityReportRef.value, 2048)
          && env.syntheticReference(Trim(b.minorityReportRef.value)))
  }

  /** Everything in it is good, and what was accepted adds up and is no more than what was completed. */
  predicate GoodParticipation(env: Env, p: Participation) {
    var b := p.body;
    && GoodOptions(env, b.options) && GoodAudit(env, b.representationAudit) && GoodTimes(env, b)
    && GoodStatements(env, b) && GoodReferences(env, b)
    && 1 <= b.contractVersion <= MAX_SAFE_INTEGER && GoodCount(b.totalAccepted)
    && Sum(Counts(HeardOptions(b.options))) == b.totalAccepted <= b.representationAudit.totalCompleted
  }

  function HeardParticipation(p: Participation): Participation {
    var b := p.body;
    p.(body := b.(id := Trim(b.id), contractId := Trim(b.contractId), methodKind := Trim(b.methodKind),
    methodVersion := Trim(b.methodVersion), ruleId := Trim(b.ruleId), ruleVersion := Trim(b.ruleVersion),
    question := Trim(b.question), options := HeardOptions(b.options), resultSummary := Trim(b.resultSummary),
    unresolvedDissent := HeardTexts(b.unresolvedDissent), representationAudit := HeardAudit(b.representationAudit),
    limitations := HeardTexts(b.limitations), resultArtifactRef := Trim(b.resultArtifactRef),
    minorityReportRef := HeardOptional(b.minorityReportRef)))
  }

  lemma StatementsHeard(env: Env, b: ParticipationBody)
    ensures NormalizeParticipationTexts(env, b).Ok? <==> GoodStatements(env, b)
    ensures NormalizeParticipationTexts(env, b).Ok? ==>
              NormalizeParticipationTexts(env, b).value
              == b.(id := Trim(b.id), contractId := Trim(b.contractId), methodKind := Trim(b.methodKind),
              methodVersion := Trim(b.methodVersion), ruleId := Trim(b.ruleId), ruleVersion := Trim(b.ruleVersion),
              question := Trim(b.question), resultSummary := Trim(b.resultSummary),
              unresolvedDissent := HeardTexts(b.unresolvedDissent), limitations := HeardTexts(b.limitations))
  {
    hide Trim, ParticipationText, GoodParticipationText, ParticipationTextArray, GoodTexts, HeardTexts;
    TextHeard(env, b.id, ParticipationField, 512);
    TextHeard(env, b.contractId, ParticipationField, 512);
    TextHeard(env, b.methodKind, ParticipationField, 256);
    TextHeard(env, b.methodVersion, ParticipationField, 256);
    TextHeard(env, b.ruleId, ParticipationField, 256);
    TextHeard(env, b.ruleVersion, ParticipationField, 256);
    TextHeard(env, b.question, ParticipationField, 4000);
    TextHeard(env, b.resultSummary, ParticipationField, 4000);
    TextArrayHeard(env, b.unresolvedDissent, ParticipationField);
    TextArrayHeard(env, b.limitations, ParticipationField);
  }

  lemma ReferencesHeard(env: Env, b: ParticipationBody)
    ensures var r := ParticipationText(env, b.resultArtifactRef, ParticipationField, 2048);
            var m := NormalizeOptionalText(env, b.minorityReportRef, ParticipationField, 2048);
            && (r.Ok? && m.Ok? && env.syntheticReference(r.value)
                && (m.value.Some? ==> env.syntheticReference(m.value.value))
                <==> GoodReferences(env, b))
            && (r.Ok? ==> r.value == Trim(b.resultArtifactRef))
            && (m.Ok? ==> m.value == HeardOptional(b.minorityReportRef))
  {
    hide Trim, ParticipationText, GoodParticipationText;
    TextHeard(env, b.resultArtifactRef, ParticipationField, 2048);
    if b.minorityReportRef.Some? {
      TextHeard(env, b.minorityReportRef.value, ParticipationField, 2048);
    }
  }

  lemma ParticipationHeard(env: Env, p: Participation)
    ensures NormalizeParticipation(env, p).Ok? <==> GoodParticipation(env, p)
    ensures NormalizeParticipation(env, p).Ok? ==> NormalizeParticipation(env, p).value == HeardParticipation(p)
  {
    hide Trim, ParticipationText, NormalizeOptionalText, NormalizeOptionSet, NormalizeAudit,
      NormalizeParticipationTexts, CheckCounts, GoodOptions, GoodAudit, GoodStatements, GoodReferences, HeardOptions,
      HeardAudit, HeardTexts;
    var b := p.body;
    OptionsHeard(env, b.options);
    AuditHeard(env, b.representationAudit);
    StatementsHeard(env, b);
    ReferencesHeard(env, b);
    if GoodCount(b.totalAccepted) {
      CountsExact(HeardOptions(b.options), HeardAudit(b.representationAudit), b.totalAccepted);
    }
    assert HeardAudit(b.representationAudit).totalCompleted == b.representationAudit.totalCompleted by {
      AuditKeepsCounts(b.representationAudit);
    }
  }

  lemma AuditKeepsCounts(a: RepresentationAudit)
    ensures HeardAudit(a).totalCompleted == a.totalCompleted
  {
  }

  // The outcome.

  predicate GoodOutcome(env: Env, o: OutcomeInput) {
    && o.reviewedAt == "2026-08-10T00:00:00.000Z"
    && GoodParticipationText(env, o.resultArtifactRef, 2048) && env.syntheticReference(Trim(o.resultArtifactRef))
    && GoodDepartmentText(env, o.id, 512) && GoodDepartmentText(env, o.summary, 4096)
    && GoodText(env, o.sourceDiscussionRef.id) && GoodText(env, o.sourceDiscussionRef.ref)
    && GoodText(env, o.sourceBrief.id) && GoodText(env, o.sourceParticipation.id)
  }

  function HeardOutcome(o: OutcomeInput): OutcomeInput {
    o.(id := Trim(o.id), summary := Trim(o.summary), resultArtifactRef := Trim(o.resultArtifactRef),
    sourceDiscussionRef := SourceReference(Trim(o.sourceDiscussionRef.id), Trim(o.sourceDiscussionRef.ref)),
    sourceBrief := o.sourceBrief.(id := Trim(o.sourceBrief.id)),
    sourceParticipation := o.sourceParticipation.(id := Trim(o.sourceParticipation.id)))
  }

  lemma OutcomeHeard(env: Env, o: OutcomeInput)
    ensures NormalizeOutcome(env, o).Ok? <==> GoodOutcome(env, o)
    ensures NormalizeOutcome(env, o).Ok? ==> NormalizeOutcome(env, o).value == HeardOutcome(o)
  {
    hide Trim;
  }

  // The signed suggestion.

  predicate GoodCore(env: Env, c: SuggestionDraftCore) {
    && GoodText(env, c.sourceAnswerReceiptId) && GoodText(env, c.sourceDiscussionId)
    && GoodText(env, c.sourceDiscussionRef) && GoodText(env, c.municipalityId) && GoodText(env, c.sourceCaseId)
    && GoodText(env, c.caseId) && GoodText(env, c.citizenPubkey)
    && GoodDepartmentText(env, c.title, 240) && GoodDepartmentText(env, c.summary, 2000)
  }

  function HeardCore(c: SuggestionDraftCore): SuggestionDraftCore {
    SuggestionDraftCore(Trim(c.sourceAnswerReceiptId), Trim(c.sourceDiscussionId), Trim(c.sourceDiscussionRef),
                        Trim(c.municipalityId), Trim(c.sourceCaseId), Trim(c.caseId), Trim(c.citizenPubkey),
                        Trim(c.title), Trim(c.summary))
  }

  predicate GoodSuggestionEvent(env: Env, e: NostrEvent) {
    && GoodText(env, e.id) && GoodText(env, e.pubkey) && GoodText(env, e.sig)
    && GoodDepartmentText(env, e.content, 8192)
    && SafeInteger(e.createdAt) && SafeInteger(e.kind)
  }

  function HeardEvent(e: NostrEvent): NostrEvent {
    e.(id := Trim(e.id), pubkey := Trim(e.pubkey), content := Trim(e.content), sig := Trim(e.sig))
  }

  function HeardSigned(s: SignedSuggestion): SignedSuggestion {
    s.(draft := SuggestionDraft(Trim(s.draft.draftId), HeardCore(s.draft.core)), event := HeardEvent(s.event))
  }

  /** A draft of this Case about this discussion, in the name of the citizen who wrote the discussion. */
  predicate AboutDiscussion(env: Env, opt: Options, d: Discussion, draft: SuggestionDraft) {
    var core, receipt := draft.core, "urn:stadtstack:mecky-answer:";
    && core.caseId == opt.caseId && core.municipalityId == d.municipalityId && core.sourceCaseId == d.caseId
    && core.sourceDiscussionId == d.id && core.sourceDiscussionRef == d.sourceRef
    && core.citizenPubkey == d.event.pubkey && IsHex64(core.citizenPubkey)
    && draft.draftId == env.draftIdFor(core)
    && receipt <= core.sourceAnswerReceiptId && IsHex64(core.sourceAnswerReceiptId[|receipt|..])
  }

  /** An event of kind 1 that the citizen signed, with the draft as its content and the tags of the draft. */
  predicate SignedBy(env: Env, s: SignedSuggestion) {
    var e, core := s.event, s.draft.core;
    && env.validNostr(e) && e.kind == 1 && e.pubkey == core.citizenPubkey == s.signerPubkey
    && s.candidateId == "urn:stadtstack:signed-suggestion:" + e.id
    && env.parseDraft(e.content) == Some(s.draft)
    && e.tags == [["schema", "citizen_signed_suggestion_v1"], ["municipality", core.municipalityId],
                  ["case", core.sourceCaseId], ["e", core.sourceDiscussionId, "", "root"],
                  ["mecky-receipt", core.sourceAnswerReceiptId]]
  }

  predicate GoodSigned(env: Env, opt: Options, d: Discussion, s: SignedSuggestion) {
    && GoodCore(env, s.draft.core) && GoodText(env, s.draft.draftId) && GoodSuggestionEvent(env, s.event)
    && AboutDiscussion(env, opt, d, HeardSigned(s).draft) && SignedBy(env, HeardSigned(s))
  }

  lemma CoreHeard(env: Env, c: SuggestionDraftCore)
    ensures NormalizeDraftCore(env, c).Ok? <==> GoodCore(env, c)
    ensures NormalizeDraftCore(env, c).Ok? ==> NormalizeDraftCore(env, c).value == HeardCore(c)
  {
    hide Trim, DepartmentText, GoodDepartmentText;
    TextHeard(env, c.title, SignedSuggestionTitleInvalid, 240);
    TextHeard(env, c.summary, SignedSuggestionSummaryInvalid, 2000);
  }

  lemma EventHeard(env: Env, e: NostrEvent)
    ensures NormalizeSuggestionEvent(env, e).Ok? <==> GoodSuggestionEvent(env, e)
    ensures NormalizeSuggestionEvent(env, e).Ok? ==> NormalizeSuggestionEvent(env, e).value == HeardEvent(e)
  {
    hide Trim, DepartmentText, GoodDepartmentText;
    TextHeard(env, e.content, SignedSuggestionEventInvalid, 8192);
  }

  lemma SignedHeard(env: Env, opt: Options, d: Discussion, s: SignedSuggestion)
    ensures NormalizeSignedSuggestion(env, opt, d, s).Ok? <==> GoodSigned(env, opt, d, s)
    ensures NormalizeSignedSuggestion(env, opt, d, s).Ok? ==>
              NormalizeSignedSuggestion(env, opt, d, s) == Ok(HeardSigned(s))
  {
    hide Trim, NormalizeDraftCore, GoodCore, HeardCore, NormalizeSuggestionEvent, GoodSuggestionEvent, HeardEvent;
    CoreHeard(env, s.draft.core);
    EventHeard(env, s.event);
  }

  // Commands.

  predicate GoodBody(env: Env, opt: Options, b: CommandBody) {
    match b
    case IntakeDiscussion(d) => GoodArtifact(env, d)
    case AssignDepartmentPackage(p) => GoodPackage(env, p)
    case RecordDepartmentDraft(id, _, d) => GoodText(env, id) && GoodDraft(env, d)
    case AttestDepartmentReview(r) => GoodReview(env, r, opt.syntheticDepartmentReview)
    case DeriveCitizenBrief(i) => GoodBrief(env, i)
    case CorrectDepartmentDraft(id, _, _, d) => GoodText(env, id) && GoodDraft(env, d)
    case RetractDepartmentResponse(r) => GoodText(env, r.packageId)
    case RecordAdvisoryParticipation(p, s) => GoodParticipation(env, p) && GoodText(env, s.id)
    case RetractAdvisoryParticipation(t) => GoodText(env, t.id)
    case RecordReviewedOutcome(o) => GoodOutcome(env, o)
    case _ => true
  }

  function HeardBody(b: CommandBody): CommandBody {
    match b
    case IntakeDiscussion(d) => IntakeDiscussion(HeardArtifact(d))
    case AssignDepartmentPackage(p) => AssignDepartmentPackage(HeardPackage(p))
    case RecordDepartmentDraft(id, sum, d) => RecordDepartmentDraft(Trim(id), sum, HeardDraft(d))
    case AttestDepartmentReview(r) => AttestDepartmentReview(r.(packageId := Trim(r.packageId)))
    case DeriveCitizenBrief(i) => DeriveCitizenBrief(HeardBrief(i))
    case CorrectDepartmentDraft(id, sum, prior, d) => CorrectDepartmentDraft(Trim(id), sum, prior, HeardDraft(d))
    case RetractDepartmentResponse(r) => RetractDepartmentResponse(r.(packageId := Trim(r.packageId)))
    case RecordAdvisoryParticipation(p, s) =>
      RecordAdvisoryParticipation(HeardParticipation(p), s.(id := Trim(s.id)))
    case RetractAdvisoryParticipation(t) => RetractAdvisoryParticipation(t.(id := Trim(t.id)))
    case RecordReviewedOutcome(o) => RecordReviewedOutcome(HeardOutcome(o))
    case _ => b
  }

  lemma BodyHeard(env: Env, opt: Options, b: CommandBody)
    ensures NormalizeBody(env, opt, b).Ok? <==> GoodBody(env, opt, b)
    ensures NormalizeBody(env, opt, b).Ok? ==> NormalizeBody(env, opt, b).value == HeardBody(b)
  {
    hide Trim, NormalizeArtifact, NormalizePackage, NormalizeDraft, NormalizeReview, NormalizeBrief,
      NormalizeParticipation, NormalizeOutcome, GoodArtifact, GoodPackage, GoodDraft, GoodReview, GoodBrief,
      GoodParticipation, GoodOutcome, HeardArtifact, HeardPackage, HeardDraft, HeardBrief, HeardParticipation,
      HeardOutcome;
    match b
    case IntakeDiscussion(d) => ArtifactHeard(env, d);
    case AssignDepartmentPackage(p) => PackageHeard(env, p);
    case RecordDepartmentDraft(_, _, d) => DraftHeard(env, d);
    case AttestDepartmentReview(r) => ReviewHeard(env, r, opt.syntheticDepartmentReview);
    case DeriveCitizenBrief(i) => BriefHeard(env, i);
    case CorrectDepartmentDraft(_, _, _, d) => DraftHeard(env, d);
    case RecordAdvisoryParticipation(p, _) => ParticipationHeard(env, p);
    case RecordReviewedOutcome(o) => OutcomeHeard(env, o);
    case _ =>
  }

  predicate GoodCommand(env: Env, opt: Options, c: Command) {
    && GoodText(env, c.caseId) && GoodText(env, c.actor.actorId) && GoodCount(c.expectedCaseVersion)
    && GoodText(env, c.idempotencyKey) && |Trim(c.idempotencyKey)| <= 256 && GoodText(env, c.policyVersion)
    && GoodBody(env, opt, c.body)
  }

  function Heard(c: Command): Command {
    c.(caseId := Trim(c.caseId), actor := c.actor.(actorId := Trim(c.actor.actorId)),
    idempotencyKey := Trim(c.idempotencyKey), policyVersion := Trim(c.policyVersion), body := HeardBody(c.body))
  }

  /** A command is normalised exactly if all of it is good, and then only trimmed and ordered. */
  lemma CommandHeard(env: Env, opt: Options, c: Command)
    ensures NormalizeCommand(env, opt, c).Ok? <==> GoodCommand(env, opt, c)
    ensures NormalizeCommand(env, opt, c).Ok? ==> NormalizeCommand(env, opt, c).value == Heard(c)
  {
    hide Trim, NormalizeBody, GoodBody, HeardBody;
    BodyHeard(env, opt, c.body);
  }
}
