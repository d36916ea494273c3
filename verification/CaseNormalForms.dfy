/** Normalising twice changes nothing, and normal forms ignore the order of lists that stand for sets. */
module CaseNormalForms {
  import opened Results
  import opened Texts
  import opened CaseTypes
  import opened CaseNormalize
  import S = Sorting

  /** The unanchored marker patterns find nothing in a trimmed string that they do not find in the string. */
  ghost predicate MarkersTrimmed(env: Env) {
    forall s: string :: env.secret(Trim(s)) ==> env.secret(s)
  }

  lemma NonEmptyFixed(env: Env, s: string, code: ErrorCode)
    requires MarkersTrimmed(env) && NonEmpty(env, s, code).Ok?
    ensures NonEmpty(env, NonEmpty(env, s, code).value, code) == NonEmpty(env, s, code)
  {
    TrimIdempotent(s);
  }

  lemma DepartmentTextFixed(env: Env, s: string, code: ErrorCode, limit: nat)
    requires MarkersTrimmed(env) && DepartmentText(env, s, code, limit).Ok?
    ensures DepartmentText(env, DepartmentText(env, s, code, limit).value, code, limit)
         == DepartmentText(env, s, code, limit)
  {
    NonEmptyFixed(env, s, code);
  }

  lemma ParticipationTextFixed(env: Env, s: string, code: ErrorCode, limit: nat)
    requires MarkersTrimmed(env) && ParticipationText(env, s, code, limit).Ok?
    ensures ParticipationText(env, ParticipationText(env, s, code, limit).value, code, limit)
         == ParticipationText(env, s, code, limit)
  {
    NonEmptyFixed(env, s, code);
  }

  /** Every element is its own checked form. */
  ghost predicate EachFixed<A>(f: A -> Result<A>, xs: seq<A>) {
    forall i :: 0 <= i < |xs| ==> f(xs[i]) == Ok(xs[i])
  }

  ghost predicate Settles<A(!new)>(f: A -> Result<A>) {
    forall x :: f(x).Ok? ==> f(f(x).value) == f(x)
  }

  lemma {:induction false} MapAllEach<A(!new)>(f: A -> Result<A>, xs: seq<A>)
    requires Settles(f) && MapAll(f, xs).Ok?
    ensures |MapAll(f, xs).value| == |xs|
    ensures EachFixed(f, MapAll(f, xs).value)
  {
    if xs != [] {
      MapAllEach(f, xs[1..]);
    }
  }

  lemma {:induction false} EachFixedMaps<A>(f: A -> Result<A>, xs: seq<A>)
    requires EachFixed(f, xs)
    ensures MapAll(f, xs) == Ok(xs)
  {
    if xs != [] {
      assert xs == [xs[0]] + xs[1..];
      EachFixedMaps(f, xs[1..]);
    }
  }

  lemma EachFixedPermuted<A>(f: A -> Result<A>, xs: seq<A>, ys: seq<A>)
    requires EachFixed(f, xs) && multiset(xs) == multiset(ys)
    ensures EachFixed(f, ys)
  {
    forall i | 0 <= i < |ys| ensures f(ys[i]) == Ok(ys[i]) {
      assert ys[i] in multiset(xs);
    }
  }

  /** Checking, sorting, checking again: the second check finds a fixed, sorted list. */
  lemma SortedMapFixed<A(!new)>(f: A -> Result<A>, key: A -> string, xs: seq<A>)
    requires Settles(f) && MapAll(f, xs).Ok?
    ensures var sorted := S.Sort(key, MapAll(f, xs).value);
            && |sorted| == |xs| && multiset(sorted) == multiset(MapAll(f, xs).value)
            && MapAll(f, sorted) == Ok(sorted) && S.Sort(key, sorted) == sorted
  {
    var r := MapAll(f, xs).value;
    var sorted := S.Sort(key, r);
    MapAllEach(f, xs);
    S.SortPermutes(key, r);
    S.SortSorts(key, r);
    EachFixedPermuted(f, r, sorted);
    EachFixedMaps(f, sorted);
    S.SortSorted(key, sorted);
    assert |multiset(sorted)| == |sorted| && |multiset(r)| == |r|;
  }

  lemma {:induction false} MapAllInserted<A, B>(f: A -> Result<B>, ys: seq<A>, i: nat)
    requires i < |ys| && MapAll(f, ys[..i] + ys[i + 1..]).Ok? && f(ys[i]).Ok?
    ensures MapAll(f, ys).Ok?
    ensures multiset(MapAll(f, ys).value) == multiset{f(ys[i]).value} + multiset(MapAll(f, ys[..i] + ys[i + 1..]).value)
  {
    var rest := ys[..i] + ys[i + 1..];
    if i == 0 {
      assert rest == ys[1..];
    } else {
      assert rest[0] == ys[0];
      assert rest[1..] == ys[1..][..i - 1] + ys[1..][i..];
      MapAllInserted(f, ys[1..], i - 1);
    }
  }

  /** Mapping permuted lists gives permuted lists. */
  lemma {:induction false} MapAllPermuted<A, B>(f: A -> Result<B>, xs: seq<A>, ys: seq<A>)
    requires multiset(xs) == multiset(ys) && MapAll(f, xs).Ok?
    ensures MapAll(f, ys).Ok? && multiset(MapAll(f, ys).value) == multiset(MapAll(f, xs).value)
    ensures |xs| == |ys|
  {
    assert |multiset(xs)| == |xs| && |multiset(ys)| == |ys|;
    if xs != [] {
      assert xs[0] in multiset(ys);
      var i :| 0 <= i < |ys| && ys[i] == xs[0];
      RemovedFromBoth(xs, ys, i);
      MapAllPermuted(f, xs[1..], ys[..i] + ys[i + 1..]);
      MapAllInserted(f, ys, i);
    }
  }

  lemma RemovedFromBoth<A>(xs: seq<A>, ys: seq<A>, i: nat)
    requires xs != [] && i < |ys| && ys[i] == xs[0] && multiset(xs) == multiset(ys)
    ensures multiset(xs[1..]) == multiset(ys[..i] + ys[i + 1..])
  {
    assert xs == [xs[0]] + xs[1..];
    var front, back := ys[..i], ys[i + 1..];
    assert ys == front + [ys[i]] + back;
    assert multiset(ys) == multiset(front) + multiset{ys[i]} + multiset(back);
    assert multiset(xs[1..]) == multiset(xs) - multiset{xs[0]};
    assert multiset(front + back) == multiset(front) + multiset(back);
  }

  lemma TextArrayFixed(env: Env, xs: seq<string>, code: ErrorCode)
    requires MarkersTrimmed(env) && ParticipationTextArray(env, xs, code).Ok?
    ensures ParticipationTextArray(env, ParticipationTextArray(env, xs, code).value, code)
         == ParticipationTextArray(env, xs, code)
  {
    ParticipationTextSettles(env, code);
    SortedMapFixed(ParticipationTextOf(env, code), Itself, xs);
  }

  lemma ParticipationTextSettles(env: Env, code: ErrorCode)
    requires MarkersTrimmed(env)
    ensures Settles(ParticipationTextOf(env, code))
  {
    forall s: string | ParticipationTextOf(env, code)(s).Ok?
      ensures ParticipationTextOf(env, code)(ParticipationTextOf(env, code)(s).value)
           == ParticipationTextOf(env, code)(s)
    {
      ParticipationTextFixed(env, s, code, 2048);
    }
  }

  /** The order of dissent or limitations does not matter. */
  lemma TextArrayIgnoresOrder(env: Env, xs: seq<string>, ys: seq<string>, code: ErrorCode)
    requires multiset(xs) == multiset(ys) && ParticipationTextArray(env, xs, code).Ok?
    ensures ParticipationTextArray(env, ys, code) == ParticipationTextArray(env, xs, code)
  {
    var f := ParticipationTextOf(env, code);
    MapAllPermuted(f, xs, ys);
    S.SortIgnoresOrder(Itself, MapAll(f, xs).value, MapAll(f, ys).value);
  }

  // Every normaliser leaves its own result unchanged.

  lemma ArtifactFixed(env: Env, d: Discussion)
    requires MarkersTrimmed(env) && NormalizeArtifact(env, d).Ok?
    ensures NormalizeArtifact(env, NormalizeArtifact(env, d).value) == NormalizeArtifact(env, d)
  {
    hide StartsWith;
    NonEmptyFixed(env, d.id, DiscussionProofInvalid);
    NonEmptyFixed(env, d.sourceRef, DiscussionProofInvalid);
    NonEmptyFixed(env, d.municipalityId, DiscussionScopeMissing);
    NonEmptyFixed(env, d.caseId, DiscussionScopeMissing);
    NonEmptyFixed(env, d.signature, DiscussionSignatureRequired);
    NonEmptyFixed(env, d.event.id, DiscussionEventInvalid);
    NonEmptyFixed(env, d.event.pubkey, DiscussionEventInvalid);
    NonEmptyFixed(env, d.event.content, DiscussionEventInvalid);
    var n := NormalizeArtifact(env, d).value;
    assert SecretFree(env, d.event);
    assert SecretFree(env, n.event) by {
      assert n.event.tags == d.event.tags && n.event.relayRefs == d.event.relayRefs;
    }
  }

  lemma PackageFixed(env: Env, p: DepartmentPackage)
    requires MarkersTrimmed(env) && NormalizePackage(env, p).Ok?
    ensures NormalizePackage(env, NormalizePackage(env, p).value) == NormalizePackage(env, p)
  {
    hide StartsWith;
    DepartmentTextFixed(env, p.id, DepartmentPackageInvalid, 512);
    DepartmentTextFixed(env, p.departmentId, DepartmentPackageInvalid, 256);
    DepartmentTextFixed(env, p.suggestionId, DepartmentPackageInvalid, 512);
    DepartmentTextFixed(env, p.request, DepartmentPackageInvalid, 4000);
    DepartmentTextFixed(env, p.assignedAgentActorId, DepartmentPackageInvalid, 256);
    DepartmentTextFixed(env, p.assignedReviewerActorId, DepartmentPackageInvalid, 256);
  }

  lemma DepartmentTextSettles(env: Env, code: ErrorCode, limit: nat)
    requires MarkersTrimmed(env)
    ensures Settles(DepartmentTextOf(env, code, limit))
  {
    forall s: string | DepartmentTextOf(env, code, limit)(s).Ok?
      ensures DepartmentTextOf(env, code, limit)(DepartmentTextOf(env, code, limit)(s).value)
           == DepartmentTextOf(env, code, limit)(s)
    {
      DepartmentTextFixed(env, s, code, limit);
    }
  }

  lemma DraftFixed(env: Env, d: Draft)
    requires MarkersTrimmed(env) && NormalizeDraft(env, d).Ok?
    ensures NormalizeDraft(env, NormalizeDraft(env, d).value) == NormalizeDraft(env, d)
  {
    hide DepartmentText;
    var f := DepartmentTextOf(env, DepartmentDraftInvalid, 2048);
    DepartmentTextSettles(env, DepartmentDraftInvalid, 2048);
    MapAllEach(f, d.publicCitations);
    MapAllEach(f, d.privateEvidenceRefs);
    EachFixedMaps(f, MapAll(f, d.publicCitations).value);
    EachFixedMaps(f, MapAll(f, d.privateEvidenceRefs).value);
    DepartmentTextFixed(env, d.id, DepartmentDraftInvalid, 512);
    DepartmentTextFixed(env, d.publicSummary, DepartmentDraftInvalid, 4000);
  }

  lemma ReviewFixed(env: Env, r: Review, synthetic: bool)
    requires MarkersTrimmed(env) && NormalizeReview(env, r, synthetic).Ok?
    ensures NormalizeReview(env, NormalizeReview(env, r, synthetic).value, synthetic)
         == NormalizeReview(env, r, synthetic)
  {
    NonEmptyFixed(env, r.packageId, DepartmentReviewInvalid);
  }

  lemma OutcomeFixed(env: Env, o: OutcomeInput)
    requires MarkersTrimmed(env) && NormalizeOutcome(env, o).Ok?
    ensures NormalizeOutcome(env, NormalizeOutcome(env, o).value) == NormalizeOutcome(env, o)
  {
    ParticipationTextFixed(env, o.resultArtifactRef, ParticipationField, 2048);
    DepartmentTextFixed(env, o.id, ReviewedOutcomeInvalid, 512);
    DepartmentTextFixed(env, o.summary, ReviewedOutcomeInvalid, 4096);
    NonEmptyFixed(env, o.sourceDiscussionRef.id, ReviewedOutcomeDiscussionInvalid);
    NonEmptyFixed(env, o.sourceDiscussionRef.ref, ReviewedOutcomeDiscussionInvalid);
    NonEmptyFixed(env, o.sourceBrief.id, ReviewedOutcomeBriefInvalid);
    NonEmptyFixed(env, o.sourceParticipation.id, ReviewedOutcomeParticipationInvalid);
  }

  lemma RetractionFixed(env: Env, r: Retraction)
    requires MarkersTrimmed(env) && NormalizeRetraction(env, r).Ok?
    ensures NormalizeRetraction(env, NormalizeRetraction(env, r).value) == NormalizeRetraction(env, r)
  {
    NonEmptyFixed(env, r.packageId, DepartmentRetractionInvalid);
  }

  lemma ParticipationReferenceFixed(env: Env, p: ParticipationReference, code: ErrorCode)
    requires MarkersTrimmed(env) && NormalizeParticipationReference(env, p, code).Ok?
    ensures NormalizeParticipationReference(env, NormalizeParticipationReference(env, p, code).value, code)
         == NormalizeParticipationReference(env, p, code)
  {
    NonEmptyFixed(env, p.id, code);
  }

  lemma DraftCoreFixed(env: Env, c: SuggestionDraftCore)
    requires MarkersTrimmed(env) && NormalizeDraftCore(env, c).Ok?
    ensures NormalizeDraftCore(env, NormalizeDraftCore(env, c).value) == NormalizeDraftCore(env, c)
  {
    NonEmptyFixed(env, c.sourceAnswerReceiptId, SignedSuggestionReceiptInvalid);
    NonEmptyFixed(env, c.sourceDiscussionId, SignedSuggestionDiscussionInvalid);
    NonEmptyFixed(env, c.sourceDiscussionRef, SignedSuggestionDiscussionInvalid);
    NonEmptyFixed(env, c.municipalityId, SignedSuggestionScopeInvalid);
    NonEmptyFixed(env, c.sourceCaseId, SignedSuggestionScopeInvalid);
    NonEmptyFixed(env, c.caseId, SignedSuggestionCaseInvalid);
    NonEmptyFixed(env, c.citizenPubkey, SignedSuggestionSignerInvalid);
    DepartmentTextFixed(env, c.title, SignedSuggestionTitleInvalid, 240);
    DepartmentTextFixed(env, c.summary, SignedSuggestionSummaryInvalid, 2000);
  }

  lemma SuggestionEventFixed(env: Env, e: NostrEvent)
    requires MarkersTrimmed(env) && NormalizeSuggestionEvent(env, e).Ok?
    ensures NormalizeSuggestionEvent(env, NormalizeSuggestionEvent(env, e).value) == NormalizeSuggestionEvent(env, e)
  {
    NonEmptyFixed(env, e.id, SignedSuggestionEventInvalid);
    NonEmptyFixed(env, e.pubkey, SignedSuggestionEventInvalid);
    DepartmentTextFixed(env, e.content, SignedSuggestionEventInvalid, 8192);
    NonEmptyFixed(env, e.sig, SignedSuggestionEventInvalid);
  }

  lemma SignedSuggestionFixed(env: Env, opt: Options, d: Discussion, s: SignedSuggestion)
    requires MarkersTrimmed(env) && NormalizeSignedSuggestion(env, opt, d, s).Ok?
    ensures NormalizeSignedSuggestion(env, opt, d, NormalizeSignedSuggestion(env, opt, d, s).value)
         == NormalizeSignedSuggestion(env, opt, d, s)
  {
    hide NormalizeDraftCore, NormalizeSuggestionEvent, NonEmpty, DraftBound, SuggestionTags;
    DraftCoreFixed(env, s.draft.core);
    NonEmptyFixed(env, s.draft.draftId, SignedSuggestionDraftInvalid);
    SuggestionEventFixed(env, s.event);
  }

  lemma OptionNormalizerSettles(env: Env)
    requires MarkersTrimmed(env)
    ensures Settles(OptionNormalizer(env))
  {
    forall o: ParticipationOption | OptionNormalizer(env)(o).Ok?
      ensures OptionNormalizer(env)(OptionNormalizer(env)(o).value) == OptionNormalizer(env)(o)
    {
      ParticipationTextFixed(env, o.optionId, ParticipationField, 256);
      ParticipationTextFixed(env, o.optionLabel, ParticipationField, 1000);
    }
  }

  lemma OptionSetFixed(env: Env, os: seq<ParticipationOption>)
    requires MarkersTrimmed(env) && NormalizeOptionSet(env, os).Ok?
    ensures NormalizeOptionSet(env, NormalizeOptionSet(env, os).value) == NormalizeOptionSet(env, os)
  {
    OptionNormalizerSettles(env);
    SortedMapFixed(OptionNormalizer(env), OptionKey, os);
  }

  lemma OptionalTextFixed(env: Env, s: Option<string>, code: ErrorCode, limit: nat)
    requires MarkersTrimmed(env) && NormalizeOptionalText(env, s, code, limit).Ok?
    ensures NormalizeOptionalText(env, NormalizeOptionalText(env, s, code, limit).value, code, limit)
         == NormalizeOptionalText(env, s, code, limit)
  {
    if s.Some? {
      ParticipationTextFixed(env, s.value, code, limit);
    }
  }

  lemma AuditFixed(env: Env, a: RepresentationAudit)
    requires MarkersTrimmed(env) && NormalizeAudit(env, a).Ok?
    ensures NormalizeAudit(env, NormalizeAudit(env, a).value) == NormalizeAudit(env, a)
  {
    hide ParticipationText, ParticipationTextArray, NormalizeOptionalText;
    ParticipationTextFixed(env, a.targetPopulationDescription, ParticipationField, 4000);
    ParticipationTextFixed(env, a.recruitmentMethod, ParticipationField, 4000);
    OptionalTextFixed(env, a.samplingMethod, ParticipationField, 4000);
    TextArrayFixed(env, a.limitations, ParticipationField);
  }

  lemma ParticipationTextsFixed(env: Env, b: ParticipationBody)
    requires MarkersTrimmed(env) && NormalizeParticipationTexts(env, b).Ok?
    ensures NormalizeParticipationTexts(env, NormalizeParticipationTexts(env, b).value)
         == NormalizeParticipationTexts(env, b)
  {
    hide ParticipationText, ParticipationTextArray;
    ParticipationTextFixed(env, b.id, ParticipationField, 512);
    ParticipationTextFixed(env, b.contractId, ParticipationField, 512);
    ParticipationTextFixed(env, b.methodKind, ParticipationField, 256);
    ParticipationTextFixed(env, b.methodVersion, ParticipationField, 256);
    ParticipationTextFixed(env, b.ruleId, ParticipationField, 256);
    ParticipationTextFixed(env, b.ruleVersion, ParticipationField, 256);
    ParticipationTextFixed(env, b.question, ParticipationField, 4000);
    ParticipationTextFixed(env, b.resultSummary, ParticipationField, 4000);
    TextArrayFixed(env, b.unresolvedDissent, ParticipationField);
    TextArrayFixed(env, b.limitations, ParticipationField);
  }

  /** The texts of a body do not depend on its other fields. */
  lemma ParticipationTextsFramed(env: Env, b: ParticipationBody, c: ParticipationBody)
    requires NormalizeParticipationTexts(env, b) == Ok(b)
    requires c.(contractVersion := b.contractVersion, options := b.options, totalAccepted := b.totalAccepted,
             representationAudit := b.representationAudit, resultArtifactRef := b.resultArtifactRef,
             minorityReportRef := b.minorityReportRef) == b
    ensures NormalizeParticipationTexts(env, c) == Ok(c)
  {
    hide ParticipationText, ParticipationTextArray;
  }

  lemma ParticipationFixed(env: Env, p: Participation)
    requires MarkersTrimmed(env) && NormalizeParticipation(env, p).Ok?
    ensures NormalizeParticipation(env, NormalizeParticipation(env, p).value) == NormalizeParticipation(env, p)
  {
    hide ParticipationText, NormalizeOptionSet, NormalizeAudit, NormalizeOptionalText, NormalizeParticipationTexts,
      CheckCounts;
    var b, n := p.body, NormalizeParticipation(env, p).value.body;
    OptionSetFixed(env, b.options);
    AuditFixed(env, b.representationAudit);
    ParticipationTextFixed(env, b.resultArtifactRef, ParticipationField, 2048);
    OptionalTextFixed(env, b.minorityReportRef, ParticipationField, 2048);
    ParticipationTextsFixed(env, b);
    ParticipationTimesKept(env, b);
    ParticipationTextsFramed(env, NormalizeParticipationTexts(env, b).value, n);
  }

  lemma ParticipationTimesKept(env: Env, b: ParticipationBody)
    requires NormalizeParticipationTexts(env, b).Ok?
    ensures var n := NormalizeParticipationTexts(env, b).value;
            n.openedAt == b.openedAt && n.closedAt == b.closedAt && n.reviewedAt == b.reviewedAt
  {
    hide ParticipationText, ParticipationTextArray;
  }
}
