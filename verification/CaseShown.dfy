/** What the public, the council and the administration are shown, said of the journal alone. */
module CaseShown {
  import opened Results
  import opened Texts
  import opened CaseTypes
  import opened CaseNormalize
  import opened CaseBriefs
  import opened CaseReplay
  import opened CaseInvariants
  import opened CaseBriefFacts
  import opened CaseReachable
  import opened CaseCurrency
  import opened CaseViews
  import opened CaseRecords
  import S = Sorting

  /** A package in the public view: the draft and the accepting review that the journal has for it. */
  ghost predicate ShowsAnswer(env: Env, opt: Options, events: seq<Event>, p: (DepartmentPackage, Checksum),
                              w: PackageView)
  {
    var draft, review := DraftOf(env, events, p.0.id), ReviewOf(env, opt, events, p.0.id);
    && w.AcceptedPackage? && draft.Some? && review.Some? && review.value.review.decision == Accepted
    && w.id == p.0.id && w.departmentId == p.0.departmentId && w.suggestionId == p.0.suggestionId
    && w.request == p.0.request && w.packageChecksum == p.1
    && w.artifactChecksum == OfDraft(draft.value.draft) && w.publicSummary == draft.value.draft.publicSummary
    && w.publicCitations == draft.value.draft.publicCitations
    && w.reviewedAt == review.value.review.reviewedAt && w.policyVersion == review.value.policyVersion
  }

  /** A package in the view of the administration, whatever was done to it. */
  ghost predicate ShowsWork(env: Env, opt: Options, events: seq<Event>, p: (DepartmentPackage, Checksum),
                            w: PackageView)
  {
    var draft, review := DraftOf(env, events, p.0.id), ReviewOf(env, opt, events, p.0.id);
    && w.FullPackage? && w.pkg == p.0 && w.packageChecksum == p.1
    && w.draft == draft && w.review == review && w.correctionState == CorrectionOf(events, p.0.id)
    && match w.reviewState
       case Assigned => draft.None?
       case DraftPendingReview => draft.Some? && review.None?
       case Reviewed(decision) => review.Some? && review.value.review.decision == decision
  }

  ghost predicate ShowsPackage(env: Env, opt: Options, events: seq<Event>, v: Visibility,
                               p: (DepartmentPackage, Checksum), w: PackageView)
  {
    if v.AdministrationView? then ShowsWork(env, opt, events, p, w) else ShowsAnswer(env, opt, events, p, w)
  }

  function DepartmentIn(w: PackageView): string {
    match w
    case AcceptedPackage(_, id, _, _, _, _, _, _, _, _) => id
    case FullPackage(pkg, _, _, _, _, _) => pkg.departmentId
  }

  ghost predicate ByDepartment(ws: seq<PackageView>) {
    forall i, j :: 0 <= i < j < |ws| ==> Less(DepartmentIn(ws[i]), DepartmentIn(ws[j]))
  }

  /** Every package that is to be seen is shown once, in the order of the department ids. */
  ghost predicate PackagesShown(env: Env, opt: Options, events: seq<Event>, v: Visibility, w: CaseProjection) {
    var ps, ws := PackagesOf(env, events), w.departmentPackages;
    && (forall x :: x in ws <==> exists p :: p in ps && ShowsPackage(env, opt, events, v, p, x))
    && ByDepartment(ws)
    && w.departmentPackage == if |ps| == 1 && ws != [] then Some(ws[0]) else None
  }

  /** A brief that no longer stands keeps its bindings and loses its text. */
  ghost predicate BriefShown(events: seq<Event>, w: Option<BriefView>) {
    var k := Latest(events, Briefs);
    if k.None? then w.None?
    else
      var b := events[k.value].payload.brief;
      && w.Some?
      && if BriefStands(events, k.value) then w.value.state == BriefInForce && w.value.brief == b
         else
           var shown := w.value.brief;
           && w.value.state == BriefInvalidated && shown.body.summary == "" && shown.body.responses == []
           && shown.briefChecksum == b.briefChecksum
           && shown.body.id == b.body.id && shown.body.title == b.body.title
           && shown.body.sourceDiscussionRef == b.body.sourceDiscussionRef
           && shown.body.suggestionId == b.body.suggestionId
           && shown.body.packageBindings == b.body.packageBindings && shown.body.policyVersion == b.body.policyVersion
  }

  ghost predicate ParticipationShown(env: Env, events: seq<Event>, v: Visibility, w: Option<ParticipationView>) {
    var k, p := Latest(events, Participations), ParticipationOf(env, events);
    if k.None? then w.None?
    else
      && p.Some?
      && if v.AdministrationView? then
           && w.Some? && w.value.FullParticipation? && w.value.record == p.value
           && match w.value.state
              case ParticipationInForce => ParticipationStands(events, k.value)
              case ParticipationWithdrawn => Latest(events, Withdrawals).Some?
              case ParticipationOutdated =>
                !ParticipationStands(events, k.value) && Latest(events, Withdrawals).None?
         else if ParticipationStands(events, k.value) then
           w.Some? && w.value.AdvisoryView? && w.value.state == ParticipationInForce
           && w.value.participation == p.value.participation
         else w.None?
  }

  ghost predicate OutcomeShown(events: seq<Event>, w: CaseProjection) {
    var k := Latest(events, Outcomes);
    if k.Some? && OutcomeStands(events, k.value) then
      && w.outcome == Some(events[k.value].payload.outcome)
      && w.outcomeRef == Some(events[k.value].payload.outcome.outcomeChecksum)
    else w.outcome.None? && w.outcomeRef.None?
  }

  /** The council is told of a standing brief only, with the participation while that stands. */
  ghost predicate CouncilTold(env: Env, events: seq<Event>, v: Visibility, w: Option<CouncilBrief>) {
    var k, p := Latest(events, Briefs), Latest(events, Participations);
    if v.CouncilView? && k.Some? && BriefStands(events, k.value) then
      && w.Some? && w.value.summary == events[k.value].payload.brief.body.summary
      && w.value.reviewedDepartmentResponseCount == 8
      && if p.Some? && ParticipationStands(events, p.value) then
           ParticipationOf(env, events).Some?
           && w.value.citizenSignal == Some(ParticipationOf(env, events).value.participation)
         else w.value.citizenSignal.None?
    else w.None?
  }

  ghost predicate Shown(env: Env, opt: Options, events: seq<Event>, v: Visibility, w: CaseProjection) {
    && DiscussionOf(env, events) == Some(w.discussion) && SuggestionOf(env, opt, events) == Some(w.suggestion)
    && w.admission == (var a := AdmissionOf(env, opt, events); if a.None? then None else Some(a.value.0))
    && PackagesShown(env, opt, events, v, w)
    && BriefShown(events, w.brief) && ParticipationShown(env, events, v, w.participation)
    && OutcomeShown(events, w) && CouncilTold(env, events, v, w.council)
  }

  // The packages.

  lemma {:induction false} ViewsOf(ds: seq<Department>, v: Visibility, x: PackageView)
    ensures x in PackageViews(ds, v) <==> exists i :: 0 <= i < |ds| && PackageViewOf(ds[i], v) == Some(x)
  {
    hide PackageViewOf;
    if ds != [] {
      ViewsOf(ds[1..], v, x);
      if x in PackageViews(ds[1..], v) {
        var i :| 0 <= i < |ds| - 1 && PackageViewOf(ds[1..][i], v) == Some(x);
        assert ds[i + 1] == ds[1..][i];
      }
      if i :| 0 < i < |ds| && PackageViewOf(ds[i], v) == Some(x) {
        assert ds[1..][i - 1] == ds[i];
      }
    }
  }

  lemma ViewNamesDepartment(d: Department, v: Visibility)
    ensures PackageViewOf(d, v).Some? ==> DepartmentIn(PackageViewOf(d, v).value) == d.pkg.departmentId
  {
  }

  lemma {:induction false} ViewsAscend(ds: seq<Department>, v: Visibility)
    requires forall i, j :: 0 <= i < j < |ds| ==> Less(ds[i].pkg.departmentId, ds[j].pkg.departmentId)
    ensures ByDepartment(PackageViews(ds, v))
  {
    hide PackageViewOf, DepartmentIn;
    if ds != [] {
      ViewsAscend(ds[1..], v);
      var rest := PackageViews(ds[1..], v);
      forall j | 0 <= j < |rest| ensures Less(ds[0].pkg.departmentId, DepartmentIn(rest[j])) {
        ViewsOf(ds[1..], v, rest[j]);
        var i :| 0 <= i < |ds| - 1 && PackageViewOf(ds[1..][i], v) == Some(rest[j]);
        ViewNamesDepartment(ds[1..][i], v);
      }
      ViewNamesDepartment(ds[0], v);
    }
  }

  lemma SortedAscend(ds: seq<Department>)
    requires Unique(ds)
    ensures var es := S.Sort(DepartmentKey, ds);
            && |es| == |ds| && (forall d :: d in es <==> d in ds)
            && forall i, j :: 0 <= i < j < |es| ==> Less(es[i].pkg.departmentId, es[j].pkg.departmentId)
  {
    var es := S.Sort(DepartmentKey, ds);
    S.SortPermutes(DepartmentKey, ds);
    S.SortSorts(DepartmentKey, ds);
    S.SameLength(es, ds);
    forall d ensures d in es <==> d in ds {
      assert d in es <==> d in multiset(es);
      assert d in ds <==> d in multiset(ds);
    }
    forall i, j | 0 <= i < j < |es| ensures Less(es[i].pkg.departmentId, es[j].pkg.departmentId) {
      KeysDiffer(ds, es, i, j);
      assert !Less(DepartmentKey(es[j]), DepartmentKey(es[i]));
      LessTotal(es[i].pkg.departmentId, es[j].pkg.departmentId);
    }
  }

  lemma KeysDiffer(ds: seq<Department>, es: seq<Department>, i: nat, j: nat)
    requires Unique(ds) && multiset(ds) == multiset(es) && i < j < |es|
    ensures es[i].pkg.departmentId != es[j].pkg.departmentId
  {
    if es[i].pkg.departmentId == es[j].pkg.departmentId {
      assert es[i] in multiset(ds) && es[j] in multiset(ds);
      var a :| 0 <= a < |ds| && ds[a] == es[i];
      var b :| 0 <= b < |ds| && ds[b] == es[j];
      assert a == b;
      TwiceCounted(es, i, j);
      OnceCounted(ds, a);
    }
  }

  lemma TwiceCounted<T>(xs: seq<T>, i: nat, j: nat)
    requires i < j < |xs| && xs[i] == xs[j]
    ensures multiset(xs)[xs[i]] >= 2
  {
    assert xs == xs[..j] + xs[j..];
    assert xs[i] in xs[..j] && xs[j..][0] == xs[i];
    assert multiset(xs) == multiset(xs[..j]) + multiset(xs[j..]);
  }

  lemma OnceCounted(ds: seq<Department>, a: nat)
    requires Unique(ds) && a < |ds|
    ensures multiset(ds)[ds[a]] == 1
  {
    assert ds == ds[..a] + [ds[a]] + ds[a + 1..];
    assert ds[a] !in ds[..a] && ds[a] !in ds[a + 1..];
    assert multiset(ds) == multiset(ds[..a]) + multiset{ds[a]} + multiset(ds[a + 1..]);
  }

  /** A department of the state, and its package in the journal. */
  lemma ViewIsShown(env: Env, opt: Options, events: seq<Event>, v: Visibility, p: (DepartmentPackage, Checksum),
                    n: nat, x: PackageView)
    requires DepartmentOk(DepartmentOf(env, opt, events, p.0, p.1), n)
    ensures PackageViewOf(DepartmentOf(env, opt, events, p.0, p.1), v) == Some(x)
       <==> ShowsPackage(env, opt, events, v, p, x)
  {
    hide DraftOf, ReviewOf, CorrectionOf;
    ReviewedIsCurrent(env, opt, events, p.0.id);
  }

  lemma ReviewedIsCurrent(env: Env, opt: Options, events: seq<Event>, id: string)
    ensures ReviewOf(env, opt, events, id).Some? ==> CorrectionOf(events, id) == Current
  {
    hide NormalizeReview;
  }

  lemma PackageListed(env: Env, opt: Options, events: seq<Event>, es: seq<Department>, v: Visibility, x: PackageView)
    requires var ds := DepartmentsOf(env, opt, events);
             (forall d :: d in es <==> d in ds) && DepartmentsOk(opt, ds, |events|)
    ensures x in PackageViews(es, v)
       <==> exists p :: p in PackagesOf(env, events) && ShowsPackage(env, opt, events, v, p, x)
  {
    hide PackageViewOf, DepartmentOf, PackagesOf, ShowsPackage, DepartmentOk;
    var ds, ps := DepartmentsOf(env, opt, events), PackagesOf(env, events);
    ViewsOf(es, v, x);
    if x in PackageViews(es, v) {
      var i :| 0 <= i < |es| && PackageViewOf(es[i], v) == Some(x);
      assert es[i] in ds;
      var k :| 0 <= k < |ds| && ds[k] == es[i];
      ViewIsShown(env, opt, events, v, ps[k], |events|, x);
      assert ps[k] in ps;
    }
    if p :| p in ps && ShowsPackage(env, opt, events, v, p, x) {
      var k :| 0 <= k < |ps| && ps[k] == p;
      assert ds[k] == DepartmentOf(env, opt, events, ps[k].0, ps[k].1);
      ViewIsShown(env, opt, events, v, ps[k], |events|, x);
      assert ds[k] in es;
      var i :| 0 <= i < |es| && es[i] == ds[k];
    }
  }

  lemma PackagesAreShown(env: Env, opt: Options, events: seq<Event>, st: CaseState, v: Visibility)
    requires st.departments == DepartmentsOf(env, opt, events) && DepartmentsOk(opt, st.departments, |events|)
    requires st.discussion.Some? && st.suggestion.Some?
    ensures PackagesShown(env, opt, events, v, BuildProjection(opt, st, v))
  {
    hide PackageViewOf, DepartmentOf, PackagesOf, ShowsPackage, DepartmentOk, BriefIsCurrent, ParticipationIsCurrent,
      OutcomeIsCurrent, ByDepartment, PackageViews;
    var es := S.Sort(DepartmentKey, st.departments);
    SortedAscend(st.departments);
    ViewsAscend(es, v);
    forall x
      ensures x in PackageViews(es, v)
         <==> exists p :: p in PackagesOf(env, events) && ShowsPackage(env, opt, events, v, p, x)
    {
      PackageListed(env, opt, events, es, v, x);
    }
    OnlyPackage(es, v);
  }

  lemma OnlyPackage(ds: seq<Department>, v: Visibility)
    ensures |ds| == 1 ==>
              PackageViewOf(ds[0], v) == if PackageViews(ds, v) != [] then Some(PackageViews(ds, v)[0]) else None
  {
    hide PackageViewOf;
    if |ds| == 1 {
      assert PackageViews(ds[1..], v) == [];
    }
  }

  // The records.

  lemma BriefIsShown(env: Env, opt: Options, events: seq<Event>, st: CaseState)
    requires ValidOptions(opt) && Fold(env, opt, events) == Ok(st) && st == StateOf(env, opt, events)
    ensures BriefShown(events, BriefViewOf(opt, st))
  {
    hide BriefIsCurrent, Fold, BriefStands, PinsOf, DiscussionOf, SuggestionOf, AdmissionOf, DepartmentsOf,
      ParticipationOf, OutcomeIn;
    RecordsStand(env, opt, events, st);
  }

  lemma ParticipationIsShown(env: Env, opt: Options, events: seq<Event>, st: CaseState, v: Visibility)
    requires ValidOptions(opt) && Fold(env, opt, events) == Ok(st) && st == StateOf(env, opt, events)
    ensures ParticipationShown(env, events, v, ParticipationViewOf(opt, st, v))
  {
    hide BriefIsCurrent, Fold, ParticipationStands, DiscussionOf, SuggestionOf, AdmissionOf, DepartmentsOf,
      BriefOf, OutcomeIn, NormalizeParticipation;
    RecordsStand(env, opt, events, st);
    if Latest(events, Participations).Some? {
      ParticipationRemains(env, opt, events);
    }
  }

  lemma OutcomeIsShown(env: Env, opt: Options, events: seq<Event>, st: CaseState, v: Visibility)
    requires ValidOptions(opt) && Fold(env, opt, events) == Ok(st) && st == StateOf(env, opt, events)
    requires st.discussion.Some? && st.suggestion.Some?
    ensures OutcomeShown(events, BuildProjection(opt, st, v))
  {
    hide BriefIsCurrent, ParticipationIsCurrent, Fold, BriefViewOf, ParticipationViewOf, CouncilBriefOf, DiscussionOf,
      SuggestionOf, AdmissionOf, DepartmentsOf, BriefOf, ParticipationOf, OutcomeStands, PackageViews;
    RecordsStand(env, opt, events, st);
  }

  lemma CouncilIsTold(env: Env, opt: Options, events: seq<Event>, st: CaseState, v: Visibility)
    requires ValidOptions(opt) && Fold(env, opt, events) == Ok(st) && st == StateOf(env, opt, events)
    requires Inv(opt, st, |events|)
    ensures CouncilTold(env, events, v, CouncilBriefOf(opt, st, v))
  {
    hide BriefIsCurrent, ParticipationIsCurrent, Fold, BriefStands, ParticipationStands, DiscussionOf, SuggestionOf,
      AdmissionOf, DepartmentsOf, ParticipationOf, OutcomeIn, PinsOf, Inv, CountReady;
    RecordsStand(env, opt, events, st);
    CouncilCountsEight(opt, st, |events|);
    if Latest(events, Participations).Some? {
      ParticipationRemains(env, opt, events);
    }
  }

  /** Every audience is shown what the journal says, and a record without its text once it no longer stands. */
  lemma JournalIsShown(env: Env, opt: Options, events: seq<Event>, v: Visibility)
    requires ValidOptions(opt) && Fold(env, opt, events).Ok? && Existing(Fold(env, opt, events).value).Some?
    ensures Shown(env, opt, events, v, BuildProjection(opt, Fold(env, opt, events).value, v))
  {
    hide Fold, BriefIsCurrent, ParticipationIsCurrent, OutcomeIsCurrent, PackagesShown, BriefShown, ParticipationShown,
      CouncilTold, BriefViewOf, ParticipationViewOf, CouncilBriefOf, DiscussionOf, SuggestionOf, AdmissionOf,
      DepartmentsOf, BriefOf, ParticipationOf, OutcomeIn, OutcomeShown, PackageViews, BriefOk, ParticipationOk,
      OutcomeOk, Remembered, DepartmentsOk;
    var st := Fold(env, opt, events).value;
    ReplayRemembers(env, opt, events);
    ReplayedOk(env, opt, events);
    RecordsStand(env, opt, events, st);
    PackagesAreShown(env, opt, events, st, v);
    BriefIsShown(env, opt, events, st);
    ParticipationIsShown(env, opt, events, st, v);
    CouncilIsTold(env, opt, events, st, v);
    OutcomeIsShown(env, opt, events, st, v);
  }
}
