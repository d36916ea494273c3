/**
 The departments of a Case: what a review means, why a rejection is final, and what a current brief says of
 all of them.
 */
module CaseDepartments {
  import opened Results
  import opened Texts
  import opened Pigeonholes
  import opened CaseTypes
  import opened CaseNormalize
  import opened CaseBriefs
  import opened CaseReplay
  import opened CaseInvariants
  import opened CaseBriefFacts
  import opened CaseReachable
  import opened CaseCurrency
  import opened CaseHandle
  import opened CaseAgreement
  import opened CaseRuns
  import S = Sorting

  /** In every reachable state a review is of the draft beside it, and not by that draft's author. */
  lemma ReviewsMatchDrafts(env: Env, opt: Options, events: seq<Event>, i: nat)
    requires ValidOptions(opt) && Fold(env, opt, events).Ok? && i < |Fold(env, opt, events).value.departments|
    ensures var d := Fold(env, opt, events).value.departments[i];
            d.review.Some? ==>
              && d.draft.Some?
              && d.review.value.review.packageId == d.pkg.id
              && d.review.value.review.draftArtifactChecksum == OfDraft(d.draft.value.draft)
              && d.review.value.actorBinding.actorId != d.draft.value.actorBinding.actorId
  {
    hide Fold, BriefOk, ParticipationOk, OutcomeOk;
    ReplayedOk(env, opt, events);
  }

  // A rejected review is absorbing.

  predicate RejectedAt(st: CaseState, i: nat) {
    i < |st.departments| && st.departments[i].review.Some? && st.departments[i].review.value.review.decision == Rejected
  }

  lemma RejectedNotReady(opt: Options, st: CaseState, n: nat, i: nat)
    requires ValidOptions(opt) && Inv(opt, st, n) && RejectedAt(st, i) && opt.requiredDepartmentIds.Some?
    ensures !ReadyFor(st.departments, st.departments[i].pkg.departmentId)
    ensures st.departments[i].pkg.departmentId in opt.requiredDepartmentIds.value
  {
    hide BriefOk, ParticipationOk, OutcomeOk;
    FindsItself(st.departments, i);
  }

  /** With a rejected department nothing can be derived. */
  lemma RejectedBlocks(opt: Options, st: CaseState, n: nat, i: nat, d: Discussion, s: Suggestion, id: string,
                       bs: seq<SourceBinding>)
    requires ValidOptions(opt) && Inv(opt, st, n) && RejectedAt(st, i)
    ensures ValidateAndDerive(opt, d, s, st.departments, id, bs).Err?
  {
    hide OrderBindings, DeriveBrief, BriefOk, ParticipationOk, OutcomeOk, DepartmentOk;
    if ValidateAndDerive(opt, d, s, st.departments, id, bs).Ok? {
      RejectedNotReady(opt, st, n, i);
      OrderingFinds(opt.requiredDepartmentIds.value, bs, st.departments);
    }
  }

  lemma RejectedNotCurrent(opt: Options, st: CaseState, n: nat, i: nat)
    requires ValidOptions(opt) && Inv(opt, st, n) && RejectedAt(st, i)
    ensures !BriefIsCurrent(opt, st)
  {
    hide ValidateAndDerive, AllPinned, Inv;
    if st.brief.Some? && st.discussion.Some? && st.suggestion.Some? {
      RejectedBlocks(opt, st, n, i, st.discussion.value, st.suggestion.value, st.brief.value.brief.body.id,
                     Unbound(st.brief.value.brief.body.packageBindings));
    }
  }

  /** No step touches a rejected department or derives a brief. */
  lemma RejectedStep(opt: Options, st: CaseState, n: nat, h: Header, next: CaseState, i: nat)
    requires ValidOptions(opt) && Inv(opt, st, n) && RejectedAt(st, i) && HasEffect(opt, st, n, h, next)
    ensures i < |next.departments| && next.departments[i] == st.departments[i]
    ensures h.eventType != BriefDerivedV1
  {
    hide Inv, DepartmentOk, ValidateAndDerive, BriefIsCurrent, ParticipationIsCurrent;
    if h.eventType == BriefDerivedV1 {
      var bs :| DerivedFrom(opt, st, next.brief.value, bs);
      RejectedBlocks(opt, st, n, i, st.discussion.value, st.suggestion.value, next.brief.value.brief.body.id, bs);
    }
    if h.eventType in DEPARTMENT_EVENTS {
      var k :| RewrittenAt(st, n, next, k);
    }
    if h.eventType == PackageAssignedV1 {
      assert next.departments[..|st.departments|][i] == st.departments[i];
    }
  }

  /** After a rejection no journal changes the department, derives a brief, or has a current one. */
  lemma {:induction false} RejectionIsFinal(env: Env, opt: Options, events: seq<Event>, m: nat, i: nat)
    requires ValidOptions(opt) && Fold(env, opt, events).Ok? && m <= |events|
    requires Fold(env, opt, events[..m]).Ok? && RejectedAt(Fold(env, opt, events[..m]).value, i)
    ensures var before, after := Fold(env, opt, events[..m]).value, Fold(env, opt, events).value;
            && i < |after.departments| && after.departments[i] == before.departments[i]
            && (forall k :: m <= k < |events| ==> events[k].header.eventType != BriefDerivedV1)
            && !BriefIsCurrent(opt, after)
  {
    hide StepPayload, CheckHeader, Inv, HasEffect, BriefIsCurrent;
    ReplayedOk(env, opt, events);
    if m < |events| {
      var st, mid := LastStep(env, opt, events);
      var init, e := events[..|events| - 1], events[|events| - 1];
      assert init[..m] == events[..m];
      RejectionIsFinal(env, opt, init, m, i);
      ReplayedOk(env, opt, init);
      StepKeeps(env, opt, st, |init|, e.header, e.payload);
      RejectedStep(opt, st, |init|, e.header, mid, i);
      assert forall k :: m <= k < |init| ==> init[k] == events[k];
    } else {
      assert events[..m] == events;
    }
    RejectedNotCurrent(opt, Fold(env, opt, events).value, |events|, i);
  }

  /** A run that starts from a Case with a discussion in normal form replays for ever. */
  lemma {:induction false} CaseRunsOn(env: Env, opt: Options, j: Journal, cmds: seq<Command>)
    requires Sound(env) && ValidOptions(opt) && Replays(env, opt, j) && DiscussionNormal(env, j.events)
             && |j.events| >= 2
    ensures var later := RunFrom(env, opt, j, cmds);
            j.events <= later.events && Replays(env, opt, later) && DiscussionNormal(env, later.events)
  {
    hide Handle, Sound, Replay, NormalizeArtifact, Considered, BringsNormal;
    if cmds != [] {
      CaseRunsOn(env, opt, j, cmds[..|cmds| - 1]);
      HandleAgrees(env, opt, RunFrom(env, opt, j, cmds[..|cmds| - 1]), cmds[|cmds| - 1]);
    }
  }

  /** After a rejection no commands change the department, derive a brief, or make one current. */
  lemma NoCommandLiftsRejection(env: Env, opt: Options, j: Journal, cmds: seq<Command>, i: nat)
    requires Sound(env) && ValidOptions(opt) && DiscussionNormal(env, j.events)
    requires Replays(env, opt, j) && RejectedAt(Replay(env, opt, j.events, j.head).value, i)
    ensures var later := RunFrom(env, opt, j, cmds);
            && Replays(env, opt, later)
            && var st, su := Replay(env, opt, j.events, j.head).value, Replay(env, opt, later.events, later.head).value;
            && i < |su.departments| && su.departments[i] == st.departments[i]
            && (forall k :: |j.events| <= k < |later.events| ==> later.events[k].header.eventType != BriefDerivedV1)
            && !BriefIsCurrent(opt, su)
  {
    hide Fold, RunFrom, Sound, DiscussionNormal, BriefIsCurrent, BriefOk, ParticipationOk, OutcomeOk, DepartmentsOk;
    ReplayIffFold(env, opt, j.events, j.head);
    ReplayedOk(env, opt, j.events);
    CaseRunsOn(env, opt, j, cmds);
    var later := RunFrom(env, opt, j, cmds);
    ReplayIffFold(env, opt, later.events, later.head);
    assert later.events[..|j.events|] == j.events;
    RejectionIsFinal(env, opt, later.events, |j.events|, i);
  }

  // What a current brief says of all departments.

  /** Every required department has exactly one package, and the brief binds it with its draft and review. */
  ghost predicate BindsOneToOne(required: seq<string>, pbs: seq<PackageBinding>, ds: seq<Department>) {
    && |pbs| == |ds| == |required|
    && (forall i :: 0 <= i < |ds| ==> IsBound(required, pbs, ds, i))
    && (forall k :: 0 <= k < |pbs| ==> Binds(required, pbs, ds, k))
    && (forall k, l, i :: BoundBy(required, pbs, ds, k, i) && BoundBy(required, pbs, ds, l, i) ==> k == l)
    && (forall k, i, j :: BoundBy(required, pbs, ds, k, i) && BoundBy(required, pbs, ds, k, j) ==> i == j)
  }

  /** Binding `k` is the binding of department `i`, which is required department `k`. */
  ghost predicate BoundBy(required: seq<string>, pbs: seq<PackageBinding>, ds: seq<Department>, k: int, i: int) {
    && 0 <= k < |pbs| && k < |required| && 0 <= i < |ds| && Ready(ds[i])
    && pbs[k].departmentId == required[k] == ds[i].pkg.departmentId
    && pbs[k].binding == BindingOf(ds[i])
  }

  ghost predicate IsBound(required: seq<string>, pbs: seq<PackageBinding>, ds: seq<Department>, i: int) {
    exists k :: BoundBy(required, pbs, ds, k, i)
  }

  ghost predicate Binds(required: seq<string>, pbs: seq<PackageBinding>, ds: seq<Department>, k: int) {
    exists i :: BoundBy(required, pbs, ds, k, i)
  }

  /** The response of a department: its public summary, with its citations sorted and each once. */
  ghost predicate Responds(r: Response, d: Department) {
    && d.draft.Some?
    && r.departmentId == d.pkg.departmentId && r.publicSummary == d.draft.value.draft.publicSummary
    && (forall c :: c in r.publicCitations <==> c in d.draft.value.draft.publicCitations)
    && (forall a, b :: 0 <= a < b < |r.publicCitations| ==> Less(r.publicCitations[a], r.publicCitations[b]))
  }

  lemma {:induction false} ResponsesFollow(required: seq<string>, ds: seq<Department>)
    requires Responses(required, ds).Ok?
    ensures var rs := Responses(required, ds).value;
            && |rs| == |required|
            && forall k :: 0 <= k < |rs| ==> FindDepartment(ds, required[k]) < |ds|
                                             && ds[FindDepartment(ds, required[k])].draft.Some?
                                             && rs[k] == ResponseOf(ds[FindDepartment(ds, required[k])])
  {
    hide ResponseOf;
    if required != [] {
      ResponsesFollow(required[1..], ds);
    }
  }

  lemma ResponseResponds(d: Department)
    requires d.draft.Some?
    ensures Responds(ResponseOf(d), d)
  {
    var cs := d.draft.value.draft.publicCitations;
    var distinct := S.Distinct(cs);
    var sorted := S.Sort(Itself, distinct);
    S.DistinctKeepsMembers(cs);
    S.SortPermutes(Itself, distinct);
    S.SortSorts(Itself, distinct);
    forall c ensures c in sorted <==> c in cs {
      assert c in sorted <==> c in multiset(sorted);
      assert c in distinct <==> c in multiset(distinct);
    }
    S.PermutedDistinct(distinct, sorted);
    forall a, b | 0 <= a < b < |sorted| ensures Less(sorted[a], sorted[b]) {
      LessTotal(sorted[a], sorted[b]);
    }
  }

  lemma CurrentDerivation(opt: Options, st: CaseState) returns (r: BriefRecord)
    requires ValidOptions(opt) && Unique(st.departments) && BriefIsCurrent(opt, st)
    ensures r.brief == st.brief.value.brief
    ensures DerivedFrom(opt, st, r, Unbound(r.brief.body.packageBindings))
  {
    hide OrderBindings, DeriveBrief, SourceEventIds, AllPinned;
    var b := st.brief.value;
    var bs := Unbound(b.brief.body.packageBindings);
    ValidatedHaveSources(opt, bs, st.departments);
    var validated := ValidateAndDerive(opt, st.discussion.value, st.suggestion.value, st.departments, b.brief.body.id,
                                       bs).value.0;
    r := b.(sourceEventIds := SourceEventIds(validated, st.departments).value);
  }

  lemma DerivedResponses(opt: Options, d: Discussion, s: Suggestion, ds: seq<Department>, id: string,
                         bs: seq<SourceBinding>)
    requires ValidateAndDerive(opt, d, s, ds, id, bs).Ok?
    ensures opt.requiredDepartmentIds.Some?
    ensures Responses(opt.requiredDepartmentIds.value, ds)
         == Ok(ValidateAndDerive(opt, d, s, ds, id, bs).value.1.body.responses)
  {
    hide OrderBindings, Responses, PackageBindings, Summary;
  }

  /** The binding and the response of every required department. */
  lemma CurrentBriefParts(opt: Options, st: CaseState, n: nat)
    requires ValidOptions(opt) && Inv(opt, st, n) && BriefIsCurrent(opt, st)
    ensures opt.requiredDepartmentIds.Some? && |opt.requiredDepartmentIds.value| == REQUIRED_DEPARTMENTS
    ensures var required, ds, b := opt.requiredDepartmentIds.value, st.departments, st.brief.value.brief.body;
            && |b.packageBindings| == |required| == |b.responses|
            && forall k :: 0 <= k < |required| ==>
                             && BoundBy(required, b.packageBindings, ds, k, FindDepartment(ds, required[k]))
                             && b.responses[k] == ResponseOf(ds[FindDepartment(ds, required[k])])
  {
    hide ValidateAndDerive, AllPinned, BriefOk, ParticipationOk, OutcomeOk, ResponseOf, DepartmentOk;
    var r := CurrentDerivation(opt, st);
    var pbs := r.brief.body.packageBindings;
    DerivedBinds(opt, st, r, Unbound(pbs));
    var required, ds := opt.requiredDepartmentIds.value, st.departments;
    DerivedResponses(opt, st.discussion.value, st.suggestion.value, ds, r.brief.body.id, Unbound(pbs));
    ResponsesFollow(required, ds);
    assert forall k :: 0 <= k < |pbs| ==> Unbound(pbs)[k] == pbs[k].binding;
  }

  lemma BoundOneToOne(required: seq<string>, pbs: seq<PackageBinding>, ds: seq<Department>)
    requires Unique(ds) && ValidRequired(required) && |pbs| == |required|
    requires forall i :: 0 <= i < |ds| ==> ds[i].pkg.departmentId in required
    requires forall k :: 0 <= k < |required| ==> BoundBy(required, pbs, ds, k, FindDepartment(ds, required[k]))
    ensures BindsOneToOne(required, pbs, ds)
    ensures forall i :: 0 <= i < |ds| ==> Ready(ds[i])
  {
    forall k | 0 <= k < |pbs| ensures Binds(required, pbs, ds, k) {
      assert BoundBy(required, pbs, ds, k, FindDepartment(ds, required[k]));
    }
    forall i | 0 <= i < |ds| ensures IsBound(required, pbs, ds, i) && Ready(ds[i]) {
      assert ds[i].pkg.departmentId in required;
      var k :| 0 <= k < |required| && required[k] == ds[i].pkg.departmentId;
      FindsItself(ds, i);
      assert BoundBy(required, pbs, ds, k, i);
    }
    AsManyDepartments(required, ds);
  }

  /**
   A current brief binds the eight required departments one to one with the Case's packages, all of
   them accepted, and has one response a department, in the sorted order of the department ids.
   */
  lemma CurrentBriefBindsAll(opt: Options, st: CaseState, n: nat)
    requires ValidOptions(opt) && Inv(opt, st, n) && BriefIsCurrent(opt, st)
    ensures opt.requiredDepartmentIds.Some? && |st.departments| == REQUIRED_DEPARTMENTS
    ensures BindsOneToOne(opt.requiredDepartmentIds.value, st.brief.value.brief.body.packageBindings, st.departments)
    ensures forall i :: 0 <= i < |st.departments| ==> Ready(st.departments[i])
    ensures var rs := st.brief.value.brief.body.responses;
            && |rs| == REQUIRED_DEPARTMENTS
            && (forall k :: 0 <= k < |rs| ==> FindDepartment(st.departments, rs[k].departmentId) < |st.departments|
                                              && Responds(rs[k], DepartmentFor(st.departments, rs[k].departmentId)))
            && (forall k, l :: 0 <= k < l < |rs| ==> Less(rs[k].departmentId, rs[l].departmentId))
  {
    hide BriefIsCurrent, BriefOk, ParticipationOk, OutcomeOk, Responds, ResponseOf, DepartmentOk, BindsOneToOne;
    CurrentBriefParts(opt, st, n);
    var required, ds := opt.requiredDepartmentIds.value, st.departments;
    CurrentPinned(opt, st);
    BoundOneToOne(required, st.brief.value.brief.body.packageBindings, ds);
    var rs := st.brief.value.brief.body.responses;
    forall k | 0 <= k < |rs| ensures rs[k].departmentId == required[k]
                                     && Responds(rs[k], DepartmentFor(ds, required[k])) {
      ResponseResponds(DepartmentFor(ds, required[k]));
      assert Responds(ResponseOf(DepartmentFor(ds, required[k])), DepartmentFor(ds, required[k]));
      RespondsFor(rs[k], DepartmentFor(ds, required[k]));
    }
    AsManyDepartments(required, ds);
  }

  lemma RespondsFor(r: Response, d: Department)
    requires Responds(r, d)
    ensures r.departmentId == d.pkg.departmentId
  {
  }

  lemma AsManyDepartments(required: seq<string>, ds: seq<Department>)
    requires Unique(ds) && ValidRequired(required)
    requires forall i :: 0 <= i < |ds| ==> ds[i].pkg.departmentId in required
    requires forall k :: 0 <= k < |required| ==> FindDepartment(ds, required[k]) < |ds|
    ensures |ds| == |required|
  {
    Pigeonhole(DepartmentIds(ds), required);
    forall k | 0 <= k < |required| ensures required[k] in DepartmentIds(ds) {
      assert DepartmentIds(ds)[FindDepartment(ds, required[k])] == required[k];
    }
    Pigeonhole(required, DepartmentIds(ds));
  }
}
