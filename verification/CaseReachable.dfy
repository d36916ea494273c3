/** The invariant of every state that a replay reaches. */
module CaseReachable {
  import opened Results
  import opened CaseTypes
  import opened CaseNormalize
  import opened CaseBriefs
  import opened CaseReplay
  import opened CaseInvariants
  import opened CaseBriefFacts

  /** The first event creates the Case and the second records its discussion. */
  ghost predicate OriginOk(st: CaseState, n: nat) {
    && (n <= 1 ==> st.discussion.None? && st.suggestion.None? && st.admission.None? && st.departments == [])
    && (n >= 2 ==> st.discussion.Some? && st.suggestion.Some?)
    && (st.departments != [] ==> n >= 3)
  }

  ghost predicate DepartmentsOk(opt: Options, ds: seq<Department>, n: nat) {
    && Unique(ds)
    && (forall i :: 0 <= i < |ds| ==> DepartmentOk(ds[i], n))
    && (opt.requiredDepartmentIds.Some? ==>
          forall i :: 0 <= i < |ds| ==> ds[i].pkg.departmentId in opt.requiredDepartmentIds.value)
  }

  ghost predicate SourcesBefore(sources: map<string, SourceEvents>, n: nat) {
    forall id :: id in sources ==> Within(sources[id].draftEventId, n) && Within(sources[id].reviewEventId, n)
  }

  /**
   A recorded brief covers the required departments, was derived from earlier events, and is current
   as soon as its departments still have those events.
   */
  ghost predicate BriefOk(opt: Options, st: CaseState, n: nat) {
    st.brief.Some? ==>
      && st.discussion.Some? && st.suggestion.Some? && opt.requiredDepartmentIds.Some?
      && var b := st.brief.value;
      && Within(b.eventId, n) && SourcesBefore(b.sourceEventIds, b.eventId.version - 1)
      && Covers(opt.requiredDepartmentIds.value, b.brief.body.packageBindings, st.departments)
      && (AllPinned(st) ==> BriefIsCurrent(opt, st))
  }

  ghost predicate ParticipationOk(opt: Options, st: CaseState, n: nat) {
    st.participation.Some? ==>
      && st.brief.Some?
      && var p, b := st.participation.value, st.brief.value;
      && Within(p.eventId, n) && Within(p.sourceBrief.briefEventId, n)
      && (p.sourceBrief.briefEventId == b.eventId
          ==> p.sourceBrief.brief == BriefReference(b.brief.body.id, b.brief.briefChecksum))
      && p.participation.checksum
         == ParticipationChecksum(p.participation.body, p.sourceBrief, p.policyVersion, p.reviewerActorBinding)
  }

  ghost predicate OutcomeOk(st: CaseState, n: nat) {
    st.outcome.Some? ==>
      && st.participation.Some? && st.discussion.Some?
      && var o, p, d := st.outcome.value, st.participation.value, st.discussion.value;
      && Within(o.eventId, n) && o.outcome == OutcomeOf(o.outcome.input)
      && o.outcome.input.sourceDiscussionRef == SourceReference(d.event.id, d.sourceRef)
      && o.outcome.input.sourceBrief == p.sourceBrief.brief
      && o.outcome.input.sourceParticipation
         == ParticipationReference(p.participation.body.id, p.participation.checksum)
  }

  /** The invariant of the state after `n` events. */
  ghost predicate Inv(opt: Options, st: CaseState, n: nat) {
    OriginOk(st, n) && DepartmentsOk(opt, st.departments, n) && BriefOk(opt, st, n) && ParticipationOk(opt, st, n)
    && OutcomeOk(st, n)
  }

  /** A brief needs departments. */
  lemma NoDepartmentsNoBrief(opt: Options, st: CaseState, n: nat)
    requires ValidOptions(opt) && Inv(opt, st, n) && st.departments == []
    ensures st.brief.None? && st.participation.None? && st.outcome.None?
  {
    hide BriefIsCurrent, AllPinned;
    if st.brief.Some? {
      var i := FindDepartment([], opt.requiredDepartmentIds.value[0]);
      assert false;
    }
  }

  lemma OriginKept(env: Env, opt: Options, st: CaseState, n: nat, h: Header, p: Payload)
    requires StepPayload(env, opt, st, n, h, p).Ok?
             && HasEffect(opt, st, n, h, StepPayload(env, opt, st, n, h, p).value)
    requires Inv(opt, st, n)
    ensures OriginOk(StepPayload(env, opt, st, n, h, p).value, n + 1)
  {
    hide NormalizeArtifact, NormalizeSignedSuggestion, StepDraft, StepReview, StepCorrect, StepRetract, StepAssign,
      StepBrief, StepParticipation, StepParticipationRetracted, StepOutcome, BriefIsCurrent, AllPinned;
  }

  lemma AssignKeeps(opt: Options, st: CaseState, n: nat, next: CaseState)
    requires Inv(opt, st, n) && AssignEffect(opt, st, next) && n >= 2
    ensures DepartmentsOk(opt, next.departments, n + 1) && BriefOk(opt, next, n + 1)
    ensures st.brief.None?
  {
    hide BriefIsCurrent, AllPinned;
  }

  /** Positions do not move when a department is rewritten. */
  lemma {:induction false} RewrittenFound(ds: seq<Department>, es: seq<Department>, id: string)
    requires |ds| == |es| && forall k :: 0 <= k < |ds| ==> es[k].pkg == ds[k].pkg
    ensures FindPackage(es, id) == FindPackage(ds, id) && FindDepartment(es, id) == FindDepartment(ds, id)
  {
  }

  /** The department of a package binding that a brief carries is one of the brief's pins. */
  lemma Carried(opt: Options, st: CaseState, n: nat, i: nat) returns (k: nat)
    requires Inv(opt, st, n) && st.brief.Some? && i < |st.departments|
    ensures k < |st.brief.value.brief.body.packageBindings|
    ensures st.brief.value.brief.body.packageBindings[k].binding.packageId == st.departments[i].pkg.id
  {
    hide BriefIsCurrent, AllPinned;
    var required := opt.requiredDepartmentIds.value;
    assert st.departments[i].pkg.departmentId in required;
    k :| 0 <= k < |required| && required[k] == st.departments[i].pkg.departmentId;
    FindsItself(st.departments, i);
  }

  /** Rewriting any department unpins the brief. */
  lemma RewritingUnpins(opt: Options, st: CaseState, n: nat, next: CaseState, i: nat)
    requires Inv(opt, st, n) && st.brief.Some? && RewrittenAt(st, n, next, i) && next.brief == st.brief
    ensures !AllPinned(next)
  {
    hide BriefIsCurrent;
    var b := st.brief.value;
    var k := Carried(opt, st, n, i);
    var pb := b.brief.body.packageBindings[k];
    assert pb in b.brief.body.packageBindings;
    FindsItself(st.departments, i);
    RewrittenFound(st.departments, next.departments, pb.binding.packageId);
    assert !Pinned(next.departments, b.sourceEventIds, pb.binding.packageId);
  }

  lemma RewritingCovers(required: seq<string>, pbs: seq<PackageBinding>, ds: seq<Department>, es: seq<Department>)
    requires Covers(required, pbs, ds) && |ds| == |es| && forall k :: 0 <= k < |ds| ==> es[k].pkg == ds[k].pkg
    ensures Covers(required, pbs, es)
  {
    forall k | 0 <= k < |required| ensures FindDepartment(es, required[k]) == FindDepartment(ds, required[k]) {
      RewrittenFound(ds, es, required[k]);
    }
  }

  lemma RewrittenDepartmentsOk(opt: Options, st: CaseState, n: nat, next: CaseState, i: nat)
    requires DepartmentsOk(opt, st.departments, n) && RewrittenAt(st, n, next, i)
    ensures DepartmentsOk(opt, next.departments, n + 1)
    ensures forall k :: 0 <= k < |st.departments| ==> next.departments[k].pkg == st.departments[k].pkg
  {
  }

  lemma DepartmentKeeps(opt: Options, st: CaseState, n: nat, next: CaseState)
    requires Inv(opt, st, n) && DepartmentEffect(st, n, next)
    ensures DepartmentsOk(opt, next.departments, n + 1) && BriefOk(opt, next, n + 1)
    ensures next.brief.Some? ==> !AllPinned(next)
  {
    hide BriefIsCurrent, AllPinned, Covers, ParticipationOk, OutcomeOk, OriginOk, DepartmentsOk, SourcesBefore;
    var i :| RewrittenAt(st, n, next, i);
    RewrittenDepartmentsOk(opt, st, n, next, i);
    if st.brief.Some? {
      RewritingUnpins(opt, st, n, next, i);
      RewritingCovers(opt.requiredDepartmentIds.value, st.brief.value.brief.body.packageBindings, st.departments,
                      next.departments);
    }
  }

  lemma BriefKeeps(opt: Options, st: CaseState, n: nat, h: Header, next: CaseState)
    requires Inv(opt, st, n) && ValidOptions(opt) && h.eventId.version == n + 1 && BriefEffect(opt, st, h, next)
    ensures BriefOk(opt, next, n + 1) && BriefIsCurrent(opt, next)
  {
    hide BriefIsCurrent, AllPinned, ValidateAndDerive;
    var r := next.brief.value;
    var bs :| DerivedFrom(opt, st, r, bs);
    DerivedIsCurrent(opt, st, r, bs);
    DerivedCovers(opt, st, r, bs);
    SourcesWithin(ValidateAndDerive(opt, st.discussion.value, st.suggestion.value, st.departments, r.brief.body.id,
                                    bs).value.0,
                  st.departments, n);
  }

  /** Currency depends on the discussion, the suggestion, the departments and the brief alone. */
  lemma CurrencyFramed(opt: Options, st: CaseState, next: CaseState)
    requires next.discussion == st.discussion && next.suggestion == st.suggestion
    requires next.departments == st.departments && next.brief == st.brief
    ensures BriefIsCurrent(opt, next) == BriefIsCurrent(opt, st)
    ensures st.brief.Some? ==> AllPinned(next) == AllPinned(st)
  {
    hide ValidateAndDerive;
  }

  /** One step keeps the invariant. */
  lemma StepKeeps(env: Env, opt: Options, st: CaseState, n: nat, h: Header, p: Payload)
    requires ValidOptions(opt) && Inv(opt, st, n)
    requires h.eventId == EventId(opt.caseId, n + 1) && StepPayload(env, opt, st, n, h, p).Ok?
    ensures HasEffect(opt, st, n, h, StepPayload(env, opt, st, n, h, p).value)
    ensures Inv(opt, StepPayload(env, opt, st, n, h, p).value, n + 1)
  {
    StepHasEffect(env, opt, st, n, h, p);
    OriginKept(env, opt, st, n, h, p);
    EffectKeeps(opt, st, n, h, StepPayload(env, opt, st, n, h, p).value);
  }

  lemma ParticipationKeeps(opt: Options, st: CaseState, n: nat, h: Header, next: CaseState)
    requires ValidOptions(opt) && Inv(opt, st, n) && OriginOk(next, n + 1)
    requires h.eventId.version == n + 1 && ParticipationEffect(opt, st, h, next)
    ensures Inv(opt, next, n + 1)
  {
    hide BriefIsCurrent, AllPinned, DerivedFrom, Covers;
    CurrencyFramed(opt, st, next);
  }

  lemma RetractionKeeps(opt: Options, st: CaseState, n: nat, next: CaseState)
    requires ValidOptions(opt) && Inv(opt, st, n) && OriginOk(next, n + 1)
    requires RetractionEffect(st, next)
    ensures Inv(opt, next, n + 1)
  {
    hide BriefIsCurrent, AllPinned, DerivedFrom, Covers;
    CurrencyFramed(opt, st, next);
  }

  lemma OutcomeKeeps(opt: Options, st: CaseState, n: nat, h: Header, next: CaseState)
    requires ValidOptions(opt) && Inv(opt, st, n) && OriginOk(next, n + 1)
    requires h.eventId.version == n + 1 && OutcomeEffect(opt, st, h, next)
    ensures Inv(opt, next, n + 1)
  {
    hide BriefIsCurrent, AllPinned, DerivedFrom, Covers;
    CurrencyFramed(opt, st, next);
  }

  lemma IntakeKeeps(opt: Options, st: CaseState, n: nat, next: CaseState)
    requires ValidOptions(opt) && Inv(opt, st, n) && OriginOk(next, n + 1)
    requires IntakeEffect(st, next)
    ensures Inv(opt, next, n + 1)
  {
    hide BriefIsCurrent, AllPinned, DerivedFrom, Covers;
    NoDepartmentsNoBrief(opt, st, n);
  }

  lemma EffectKeeps(opt: Options, st: CaseState, n: nat, h: Header, next: CaseState)
    requires ValidOptions(opt) && Inv(opt, st, n) && OriginOk(next, n + 1)
    requires h.eventId.version == n + 1 && HasEffect(opt, st, n, h, next)
    ensures Inv(opt, next, n + 1)
  {
    hide BriefIsCurrent, AllPinned, DerivedFrom, Covers, ParticipationEffect, RetractionEffect, OutcomeEffect,
      IntakeEffect;
    match h.eventType
    case PackageAssignedV1 => AssignKeeps(opt, st, n, next);
    case DraftRecordedV1 => DepartmentKeeps(opt, st, n, next);
    case ReviewAttestedV1 => DepartmentKeeps(opt, st, n, next);
    case DraftCorrectedV1 => DepartmentKeeps(opt, st, n, next);
    case ResponseRetractedV1 => DepartmentKeeps(opt, st, n, next);
    case BriefDerivedV1 => BriefKeeps(opt, st, n, h, next);
    case ParticipationRecordedV1 => ParticipationKeeps(opt, st, n, h, next);
    case ParticipationRetractedV1 => RetractionKeeps(opt, st, n, next);
    case OutcomeRecordedV1 => OutcomeKeeps(opt, st, n, h, next);
    case _ => IntakeKeeps(opt, st, n, next);
  }
}
