/** Departments, the citizen brief derived from them, and when a brief, participation or outcome is current. */
module CaseBriefs {
  import opened Results
  import opened CaseTypes
  import opened CaseNormalize
  import S = Sorting

  const REQUIRED_DEPARTMENTS := 8

  /** The position of package `id`, or the number of departments. */
  function FindPackage(ds: seq<Department>, id: string): (i: nat)
    ensures i <= |ds|
    ensures i < |ds| ==> ds[i].pkg.id == id
    ensures forall j :: 0 <= j < i ==> ds[j].pkg.id != id
  {
    if ds == [] || ds[0].pkg.id == id then 0 else 1 + FindPackage(ds[1..], id)
  }

  /** The position of the first package of a department, or the number of departments. */
  function FindDepartment(ds: seq<Department>, departmentId: string): (i: nat)
    ensures i <= |ds|
    ensures i < |ds| ==> ds[i].pkg.departmentId == departmentId
    ensures forall j :: 0 <= j < i ==> ds[j].pkg.departmentId != departmentId
  {
    if ds == [] || ds[0].pkg.departmentId == departmentId then 0 else 1 + FindDepartment(ds[1..], departmentId)
  }

  function FindBinding(bs: seq<SourceBinding>, packageId: string): (i: nat)
    ensures i <= |bs|
    ensures i < |bs| ==> bs[i].packageId == packageId
    ensures forall j :: 0 <= j < i ==> bs[j].packageId != packageId
  {
    if bs == [] || bs[0].packageId == packageId then 0 else 1 + FindBinding(bs[1..], packageId)
  }

  /** An accepted, current response. */
  predicate Ready(d: Department) {
    d.draft.Some? && d.review.Some? && d.review.value.review.decision == Accepted && d.correctionState == Current
  }

  /** The binding a brief must carry for a department. */
  function BindingOf(d: Department): SourceBinding
    requires d.draft.Some? && d.review.Some?
  {
    SourceBinding(d.pkg.id, d.packageChecksum, d.draft.value.draftArtifactChecksum, d.review.value.attestationChecksum)
  }

  /** The bindings in the order of the required departments. */
  function OrderBindings(required: seq<string>, bs: seq<SourceBinding>,
                         ds: seq<Department>): Result<seq<SourceBinding>> {
    if required == [] then Ok([])
    else
      var i := FindDepartment(ds, required[0]);
      :- Need(i < |ds| && Ready(ds[i]), CitizenBriefReviewIncomplete);
      var j := FindBinding(bs, ds[i].pkg.id);
      :- Need(j < |bs| && bs[j] == BindingOf(ds[i]), CitizenBriefBindingStale);
      var rest :- OrderBindings(required[1..], bs, ds);
      Ok([bs[j]] + rest)
  }

  /** `validateBriefBindings`. */
  function ValidateBindings(opt: Options, bs: seq<SourceBinding>, ds: seq<Department>): Result<seq<SourceBinding>> {
    if !(opt.requiredDepartmentIds.Some? && |opt.requiredDepartmentIds.value| == REQUIRED_DEPARTMENTS
         && |bs| == |opt.requiredDepartmentIds.value|) then Err(CitizenBriefDepartmentsIncomplete)
    else
      :- Need(DistinctBindings(bs), CitizenBriefBindingDuplicate);
      OrderBindings(opt.requiredDepartmentIds.value, bs, ds)
  }

  function ResponseOf(d: Department): Response
    requires d.draft.Some?
  {
    Response(d.pkg.departmentId, d.draft.value.draft.publicSummary,
             S.Sort(Itself, S.Distinct(d.draft.value.draft.publicCitations)))
  }

  function Responses(required: seq<string>, ds: seq<Department>): Result<seq<Response>> {
    if required == [] then Ok([])
    else
      var i := FindDepartment(ds, required[0]);
      :- Need(i < |ds| && ds[i].draft.Some? && ds[i].review.Some? && ds[i].review.value.review.decision == Accepted,
              CitizenBriefReviewIncomplete);
      var rest :- Responses(required[1..], ds);
      Ok([ResponseOf(ds[i])] + rest)
  }

  function PackageBindings(required: seq<string>, bs: seq<SourceBinding>,
                           ds: seq<Department>): Result<seq<PackageBinding>>
    requires |bs| == |required|
  {
    if required == [] then Ok([])
    else
      var i := FindDepartment(ds, required[0]);
      :- Need(i < |ds| && ds[i].draft.Some? && ds[i].review.Some?, CitizenBriefReviewIncomplete);
      var rest :- PackageBindings(required[1..], bs[1..], ds);
      Ok([PackageBinding(bs[0], required[0], ds[i].review.value.review.reviewedAt)] + rest)
  }

  function Summary(rs: seq<Response>): string {
    if rs == [] then ""
    else rs[0].departmentId + ": " + rs[0].publicSummary + (if |rs| == 1 then "" else " " + Summary(rs[1..]))
  }

  /** `deriveBriefProjection`. */
  function DeriveBrief(opt: Options, d: Discussion, s: Suggestion, ds: seq<Department>,
                       id: string, bs: seq<SourceBinding>): Result<Brief>
    requires opt.requiredDepartmentIds.Some? && |bs| == |opt.requiredDepartmentIds.value|
  {
    var required := opt.requiredDepartmentIds.value;
    var responses :- Responses(required, ds);
    var bindings :- PackageBindings(required, bs, ds);
    var body := BriefBody(id, s.title, Summary(responses), responses, SourceReference(d.event.id, d.sourceRef),
                          s.id, bindings, opt.policyVersion);
    Ok(Brief(body, OfBrief(body)))
  }

  lemma {:induction false} OrderBindingsLength(required: seq<string>, bs: seq<SourceBinding>, ds: seq<Department>)
    requires OrderBindings(required, bs, ds).Ok?
    ensures |OrderBindings(required, bs, ds).value| == |required|
  {
    if required != [] {
      OrderBindingsLength(required[1..], bs, ds);
    }
  }

  /** The validated bindings and the brief derived from them. */
  function ValidateAndDerive(opt: Options, d: Discussion, s: Suggestion, ds: seq<Department>,
                             id: string, bs: seq<SourceBinding>): Result<(seq<SourceBinding>, Brief)> {
    var ordered :- ValidateBindings(opt, bs, ds);
    assert |ordered| == |opt.requiredDepartmentIds.value| by {
      OrderBindingsLength(opt.requiredDepartmentIds.value, bs, ds);
    }
    var brief :- DeriveBrief(opt, d, s, ds, id, ordered);
    Ok((ordered, brief))
  }

  function Unbound(pbs: seq<PackageBinding>): seq<SourceBinding> {
    seq(|pbs|, i requires 0 <= i < |pbs| => pbs[i].binding)
  }

  /** The department of a binding still has the draft and review events the brief was derived from. */
  predicate Pinned(ds: seq<Department>, sources: map<string, SourceEvents>, packageId: string) {
    var i := FindPackage(ds, packageId);
    && i < |ds| && ds[i].draft.Some? && ds[i].review.Some? && packageId in sources
    && ds[i].draft.value.eventId == sources[packageId].draftEventId
    && ds[i].review.value.eventId == sources[packageId].reviewEventId
  }

  predicate AllPinned(st: CaseState)
    requires st.brief.Some?
  {
    var b := st.brief.value;
    forall pb | pb in b.brief.body.packageBindings :: Pinned(st.departments, b.sourceEventIds, pb.binding.packageId)
  }

  /** `briefIsCurrent` for the brief of the state. */
  predicate BriefIsCurrent(opt: Options, st: CaseState) {
    && st.brief.Some? && st.discussion.Some? && st.suggestion.Some?
    && var b := st.brief.value;
    && |b.sourceEventIds| == |b.brief.body.packageBindings|
    && AllPinned(st)
    && var derived := ValidateAndDerive(opt, st.discussion.value, st.suggestion.value, st.departments,
                                        b.brief.body.id, Unbound(b.brief.body.packageBindings));
    && derived.Ok? && derived.value.1 == b.brief
    && OfBrief(b.brief.body) == b.brief.briefChecksum
  }

  function ParticipationChecksum(body: ParticipationBody, source: ParticipationSource,
                                 policyVersion: string, actor: ActorBinding): Checksum {
    OfParticipation(body, source, policyVersion, actor, body.reviewedAt)
  }

  /** `participationIsCurrent` for the participation of the state. */
  predicate ParticipationIsCurrent(opt: Options, st: CaseState) {
    && st.participation.Some? && st.brief.Some?
    && var p, b := st.participation.value, st.brief.value;
    && !p.retracted
    && BriefIsCurrent(opt, st)
    && p.sourceBrief.brief.id == b.brief.body.id
    && p.sourceBrief.brief.briefChecksum == b.brief.briefChecksum
    && p.sourceBrief.briefEventId == b.eventId
    && p.participation.checksum
       == ParticipationChecksum(p.participation.body, p.sourceBrief, p.policyVersion, p.reviewerActorBinding)
  }

  function OutcomeOf(input: OutcomeInput): ReviewedOutcome {
    ReviewedOutcome(input, OfOutcome(input))
  }

  /** The sources an outcome names are the discussion, brief and participation of the state. */
  predicate OutcomeSourcesMatch(o: OutcomeInput, st: CaseState)
    requires st.discussion.Some? && st.brief.Some? && st.participation.Some?
  {
    var d, b, p := st.discussion.value, st.brief.value.brief, st.participation.value.participation;
    && o.sourceDiscussionRef == SourceReference(d.event.id, d.sourceRef)
    && o.sourceBrief == BriefReference(b.body.id, b.briefChecksum)
    && o.sourceParticipation == ParticipationReference(p.body.id, p.checksum)
  }

  /** `outcomeIsCurrent`. */
  predicate OutcomeIsCurrent(opt: Options, st: CaseState) {
    && st.outcome.Some? && st.participation.Some? && st.brief.Some? && st.discussion.Some?
    && BriefIsCurrent(opt, st) && ParticipationIsCurrent(opt, st)
    && st.outcome.value.outcome.outcomeChecksum == OfOutcome(st.outcome.value.outcome.input)
    && OutcomeSourcesMatch(st.outcome.value.outcome.input, st)
  }
}
