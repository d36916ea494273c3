/** `buildProjection`: what the public, the council and the administration see of a Case. */
module CaseViews {
  import opened Results
  import opened CaseTypes
  import opened CaseNormalize
  import opened CaseBriefs
  import opened CaseReplay
  import opened CaseInvariants
  import opened CaseBriefFacts
  import opened CaseReachable
  import opened CaseCurrency
  import opened CaseDepartments
  import S = Sorting

  datatype Visibility = PublicView | CouncilView | AdministrationView

  datatype ReviewState = Assigned | DraftPendingReview | Reviewed(decision: Decision)

  datatype PackageView =
    | AcceptedPackage(id: string, departmentId: string, suggestionId: string, request: string,
                      packageChecksum: Checksum,
                      artifactChecksum: Checksum, reviewedAt: string, policyVersion: string,
                      publicSummary: string, publicCitations: seq<string>)
    | FullPackage(pkg: DepartmentPackage, packageChecksum: Checksum, reviewState: ReviewState,
                  correctionState: CorrectionState,
                  draft: Option<DraftRecord>, review: Option<ReviewRecord>)

  datatype BriefState = BriefInForce | BriefInvalidated

  datatype BriefView = BriefView(brief: Brief, state: BriefState)

  datatype ParticipationState = ParticipationInForce | ParticipationWithdrawn | ParticipationOutdated

  datatype ParticipationView =
    | AdvisoryView(participation: Participation, state: ParticipationState)
    | FullParticipation(record: ParticipationRecord, state: ParticipationState)

  datatype CouncilBrief = CouncilBrief(summary: string, citizenSignal: Option<Participation>,
                                       reviewedDepartmentResponseCount: nat)

  datatype CaseProjection = CaseProjection(
    discussion: Discussion, outcomeRef: Option<Checksum>, suggestion: Suggestion, admission: Option<Admission>,
    departmentPackages: seq<PackageView>, departmentPackage: Option<PackageView>,
    brief: Option<BriefView>, participation: Option<ParticipationView>, outcome: Option<ReviewedOutcome>,
    council: Option<CouncilBrief>)

  /** `departmentPackageProjection`. */
  function PackageViewOf(d: Department, v: Visibility): Option<PackageView> {
    if v.AdministrationView? then
      Some(FullPackage(d.pkg, d.packageChecksum,
                       if d.review.Some? then Reviewed(d.review.value.review.decision)
                       else if d.draft.Some? then DraftPendingReview else Assigned,
                       d.correctionState, d.draft, d.review))
    else if d.correctionState != Current || d.review.None? || d.review.value.review.decision != Accepted
            || d.draft.None? then None
    else
      var r, a := d.review.value, d.draft.value.draft;
      Some(AcceptedPackage(d.pkg.id, d.pkg.departmentId, d.pkg.suggestionId, d.pkg.request, d.packageChecksum,
                           r.review.draftArtifactChecksum, r.review.reviewedAt, r.policyVersion, a.publicSummary,
                           a.publicCitations))
  }

  function DepartmentKey(d: Department): string {
    d.pkg.departmentId
  }

  function PackageViewer(v: Visibility): Department -> Option<PackageView> {
    (d: Department) => PackageViewOf(d, v)
  }

  function PackageViews(ds: seq<Department>, v: Visibility): seq<PackageView> {
    if ds == [] then []
    else (if PackageViewOf(ds[0], v).Some? then [PackageViewOf(ds[0], v).value] else []) + PackageViews(ds[1..], v)
  }

  function BriefViewOf(opt: Options, st: CaseState): Option<BriefView> {
    if st.brief.None? then None
    else
      var b := st.brief.value.brief;
      Some(if BriefIsCurrent(opt, st) then BriefView(b, BriefInForce)
           else BriefView(b.(body := b.body.(summary := "", responses := [])), BriefInvalidated))
  }

  function ParticipationViewOf(opt: Options, st: CaseState, v: Visibility): Option<ParticipationView> {
    if st.participation.None? then None
    else
      var p, current := st.participation.value, ParticipationIsCurrent(opt, st);
      if v.AdministrationView? then
        Some(FullParticipation(p, if p.retracted then ParticipationWithdrawn
                               else if current then ParticipationInForce else ParticipationOutdated))
      else if current then Some(AdvisoryView(p.participation, ParticipationInForce))
      else None
  }

  function CountReady(ds: seq<Department>): nat {
    if ds == [] then 0
    else CountReady(ds[..|ds| - 1])
         + (var d := ds[|ds| - 1];
            if d.review.Some? && d.review.value.review.decision == Accepted && d.correctionState == Current then 1
            else 0)
  }

  function CouncilBriefOf(opt: Options, st: CaseState, v: Visibility): Option<CouncilBrief> {
    if !v.CouncilView? || st.brief.None? || !BriefIsCurrent(opt, st) then None
    else
      Some(CouncilBrief(st.brief.value.brief.body.summary,
                        if st.participation.Some? && ParticipationIsCurrent(opt, st) then
                          Some(st.participation.value.participation)
                        else None,
                        CountReady(st.departments)))
  }

  /** `buildProjection` of a replayed Case. */
  function BuildProjection(opt: Options, st: CaseState, v: Visibility): CaseProjection
    requires st.discussion.Some? && st.suggestion.Some?
  {
    var ds := S.Sort(DepartmentKey, st.departments);
    var outcome := if OutcomeIsCurrent(opt, st) then Some(st.outcome.value.outcome) else None;
    CaseProjection(st.discussion.value, if outcome.Some? then Some(outcome.value.outcomeChecksum) else None,
                   st.suggestion.value, st.admission,
                   PackageViews(ds, v), if |ds| == 1 then PackageViewOf(ds[0], v) else None,
                   BriefViewOf(opt, st), ParticipationViewOf(opt, st, v), outcome, CouncilBriefOf(opt, st, v))
  }

  lemma {:induction false} PackageViewsAlike(ds: seq<Department>, es: seq<Department>, v: Visibility)
    requires S.Alike(DepartmentKey, PackageViewer(v), ds, es)
    ensures PackageViews(ds, v) == PackageViews(es, v)
  {
    hide PackageViewOf;
    if ds != [] {
      assert PackageViewer(v)(ds[0]) == PackageViewer(v)(es[0]);
      PackageViewsAlike(ds[1..], es[1..], v);
    }
  }

  /** Two states in which nothing is current, with departments that look alike, look the same. */
  lemma LooksAlike(opt: Options, st: CaseState, next: CaseState, v: Visibility)
    requires st.discussion.Some? && st.suggestion.Some? && !v.AdministrationView?
    requires next == st.(departments := next.departments)
    requires !BriefIsCurrent(opt, st) && !BriefIsCurrent(opt, next)
    requires S.Alike(DepartmentKey, PackageViewer(v), st.departments, next.departments)
    ensures BuildProjection(opt, next, v) == BuildProjection(opt, st, v)
  {
    hide BriefIsCurrent, PackageViewOf;
    S.SortAlike(DepartmentKey, PackageViewer(v), st.departments, next.departments);
    var ds, es := S.Sort(DepartmentKey, st.departments), S.Sort(DepartmentKey, next.departments);
    PackageViewsAlike(ds, es, v);
    assert |ds| == 1 ==> PackageViewer(v)(ds[0]) == PackageViewer(v)(es[0]);
  }

  /** Recording a draft, or attesting a rejection. */
  predicate Unpublished(h: Header, p: Payload) {
    || h.eventType == DraftRecordedV1
    || (h.eventType == ReviewAttestedV1 && p.ReviewAttested? && p.review.decision == Rejected)
  }

  /** The one department of such an event: without an accepted review before it and after it. */
  lemma UnpublishedStep(env: Env, opt: Options, st: CaseState, n: nat, h: Header, p: Payload) returns (i: nat)
    requires Inv(opt, st, n) && StepPayload(env, opt, st, n, h, p).Ok? && Unpublished(h, p)
    ensures var next := StepPayload(env, opt, st, n, h, p).value;
            && next == st.(departments := next.departments)
            && i < |st.departments| == |next.departments|
            && next.departments == st.departments[i := next.departments[i]]
            && next.departments[i].pkg == st.departments[i].pkg
            && !AcceptedResponse(st.departments[i]) && !AcceptedResponse(next.departments[i])
  {
    hide NormalizeDraft, BriefOk, ParticipationOk, OutcomeOk, NonEmpty,
      StepCreated, StepDiscussion, StepSigned, StepTopic, StepAdoption, StepAssign, StepBrief, StepCorrect, StepRetract,
      StepParticipation, StepParticipationRetracted, StepOutcome;
    i := if h.eventType == DraftRecordedV1 then FindPackage(st.departments, p.packageId)
    else FindPackage(st.departments, p.review.packageId);
  }

  lemma UnreadyNotCurrent(opt: Options, st: CaseState, n: nat, i: nat)
    requires ValidOptions(opt) && Inv(opt, st, n) && i < |st.departments| && !AcceptedResponse(st.departments[i])
    ensures !BriefIsCurrent(opt, st)
  {
    hide Inv, BriefIsCurrent, BindsOneToOne, Responds;
    if BriefIsCurrent(opt, st) {
      CurrentBriefBindsAll(opt, st, n);
    }
  }

  lemma PriorUnseen(opt: Options, st: CaseState, sum: Checksum, v: Visibility)
    requires st.discussion.Some? && st.suggestion.Some?
    ensures BuildProjection(opt, st.(prior := sum), v) == BuildProjection(opt, st, v)
  {
    hide BriefIsCurrent, ParticipationIsCurrent, OutcomeIsCurrent;
    PriorFramed(opt, st, 0, sum);
  }

  /** One step: recording a draft or attesting a rejection shows nothing to the public or the council. */
  lemma UnpublishedUnseen(env: Env, opt: Options, st: CaseState, n: nat, h: Header, p: Payload, v: Visibility)
    requires ValidOptions(opt) && Inv(opt, st, n) && st.discussion.Some? && st.suggestion.Some?
             && !v.AdministrationView?
    requires h.eventId == EventId(opt.caseId, n + 1) && StepPayload(env, opt, st, n, h, p).Ok? && Unpublished(h, p)
    ensures var next := StepPayload(env, opt, st, n, h, p).value;
            && next.discussion.Some? && next.suggestion.Some?
            && BuildProjection(opt, next, v) == BuildProjection(opt, st, v)
  {
    hide StepPayload, Inv, HasEffect, BriefIsCurrent, BuildProjection, Unpublished;
    var i := UnpublishedStep(env, opt, st, n, h, p);
    StepKeeps(env, opt, st, n, h, p);
    var next := StepPayload(env, opt, st, n, h, p).value;
    UnreadyNotCurrent(opt, st, n, i);
    UnreadyNotCurrent(opt, next, n + 1, i);
    assert S.Alike(DepartmentKey, PackageViewer(v), st.departments, next.departments);
    LooksAlike(opt, st, next, v);
  }

  /**
   In a journal whose last event records a draft or rejects one, the public and the council see what they saw
   before it.
   */
  lemma UnpublishedEventsUnseen(env: Env, opt: Options, events: seq<Event>, v: Visibility)
    requires ValidOptions(opt) && events != [] && Fold(env, opt, events).Ok? && !v.AdministrationView?
    requires Unpublished(events[|events| - 1].header, events[|events| - 1].payload)
    ensures Fold(env, opt, events[..|events| - 1]).Ok?
    ensures var before, after := Fold(env, opt, events[..|events| - 1]).value, Fold(env, opt, events).value;
            && Existing(before).Some? && Existing(after).Some?
            && BuildProjection(opt, after, v) == BuildProjection(opt, before, v)
  {
    hide StepPayload, CheckHeader, BuildProjection, Unpublished, BriefOk, ParticipationOk, OutcomeOk, DepartmentsOk;
    var st, mid := LastStep(env, opt, events);
    var n, e := |events| - 1, events[|events| - 1];
    ReplayedOk(env, opt, events[..n]);
    var i := UnpublishedStep(env, opt, st, n, e.header, e.payload);
    assert st.departments != [];
    UnpublishedUnseen(env, opt, st, n, e.header, e.payload, v);
    PriorUnseen(opt, mid, e.eventChecksum, v);
  }

  lemma {:induction false} AllReadyCounted(ds: seq<Department>)
    requires forall i :: 0 <= i < |ds| ==> Ready(ds[i])
    ensures CountReady(ds) == |ds|
  {
    if ds != [] {
      AllReadyCounted(ds[..|ds| - 1]);
    }
  }

  /** The council brief, when there is one, counts exactly the eight required departments. */
  lemma CouncilCountsEight(opt: Options, st: CaseState, n: nat)
    requires ValidOptions(opt) && Inv(opt, st, n)
    ensures var c := CouncilBriefOf(opt, st, CouncilView);
            && (c.Some? <==> BriefIsCurrent(opt, st))
            && (c.Some? ==> c.value.reviewedDepartmentResponseCount == 8)
  {
    hide Inv, BriefIsCurrent, ParticipationIsCurrent, BindsOneToOne, Responds;
    CurrentPinned(opt, st);
    if BriefIsCurrent(opt, st) {
      CurrentBriefBindsAll(opt, st, n);
      AllReadyCounted(st.departments);
    }
  }

  /** A package as the public sees it, and the department it shows: what was reviewed is what is shown. */
  predicate Shows(w: PackageView, d: Department) {
    && w.AcceptedPackage? && Ready(d)
    && w.id == d.pkg.id && w.departmentId == d.pkg.departmentId && w.packageChecksum == d.packageChecksum
    && w.publicSummary == d.draft.value.draft.publicSummary && w.publicCitations == d.draft.value.draft.publicCitations
    && w.artifactChecksum == OfDraft(d.draft.value.draft)
  }

  lemma ViewShows(d: Department, n: nat, v: Visibility)
    requires DepartmentOk(d, n) && !v.AdministrationView?
    ensures PackageViewOf(d, v).Some? <==> Ready(d)
    ensures Ready(d) ==> Shows(PackageViewOf(d, v).value, d)
  {
  }

  lemma {:induction false} ViewsShow(ds: seq<Department>, n: nat, v: Visibility)
    requires !v.AdministrationView? && forall i :: 0 <= i < |ds| ==> DepartmentOk(ds[i], n)
    ensures forall w :: w in PackageViews(ds, v) ==> exists d :: d in ds && Shows(w, d)
    ensures forall d :: d in ds && Ready(d) ==> exists w :: w in PackageViews(ds, v) && Shows(w, d)
  {
    hide Shows, PackageViewOf, DepartmentOk, Ready;
    if ds != [] {
      ViewsShow(ds[1..], n, v);
      ViewShows(ds[0], n, v);
      assert ds == [ds[0]] + ds[1..];
      forall w | w in PackageViews(ds, v) ensures exists d :: d in ds && Shows(w, d) {
        if w in PackageViews(ds[1..], v) {
          var d :| d in ds[1..] && Shows(w, d);
          assert d in ds;
        } else {
          assert ds[0] in ds && Shows(w, ds[0]);
        }
      }
      forall d | d in ds && Ready(d) ensures exists w :: w in PackageViews(ds, v) && Shows(w, d) {
        if d in ds[1..] {
          var w :| w in PackageViews(ds[1..], v) && Shows(w, d);
          assert w in PackageViews(ds, v);
        } else {
          assert PackageViewOf(ds[0], v).value in PackageViews(ds, v);
        }
      }
    }
  }

  /**
   The public and the council see exactly the departments with an accepted current response, each with
   the summary and the citations of the very draft whose checksum was reviewed.
   */
  lemma ReviewedIsShown(opt: Options, st: CaseState, n: nat, v: Visibility)
    requires Inv(opt, st, n) && st.discussion.Some? && st.suggestion.Some? && !v.AdministrationView?
    ensures var ws := BuildProjection(opt, st, v).departmentPackages;
            && (forall w :: w in ws ==> exists d :: d in st.departments && Shows(w, d))
            && (forall d :: d in st.departments && Ready(d) ==> exists w :: w in ws && Shows(w, d))
  {
    hide BriefOk, ParticipationOk, OutcomeOk, Shows, PackageViewOf, DepartmentOk;
    var ds := S.Sort(DepartmentKey, st.departments);
    S.SortPermutes(DepartmentKey, st.departments);
    forall i | 0 <= i < |ds| ensures DepartmentOk(ds[i], n) {
      assert ds[i] in multiset(st.departments);
    }
    ViewsShow(ds, n, v);
    forall d ensures d in ds <==> d in st.departments {
      assert d in ds <==> d in multiset(ds);
      assert d in st.departments <==> d in multiset(st.departments);
    }
  }
}
