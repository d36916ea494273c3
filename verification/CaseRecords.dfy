/**
 What a replay remembers. Every part of the state that a replay builds up step by step is looked up here in
 the journal, latest entry first; the two are shown to be the same.
 */
module CaseRecords {
  import opened Results
  import opened CaseTypes
  import opened CaseNormalize
  import opened CaseBriefs
  import opened CaseReplay
  import opened CaseInvariants
  import opened CaseBriefFacts
  import opened CaseReachable
  import opened CaseCurrency

  /** What is looked for in a journal. */
  datatype Query =
      /** The drafts and corrections of a package, and the retractions of its response. */
    | DraftWork(packageId: string)
      /** These and the reviews. */
    | AnyWork(packageId: string)
    | Discussions | Admissions | Briefs | Participations | Withdrawals | Outcomes

  predicate ChangesDraft(p: Payload, id: string) {
    ((p.DraftRecorded? || p.DraftCorrected?) && p.packageId == id)
    || (p.ResponseRetracted? && p.retraction.packageId == id)
  }

  predicate Meets(e: Event, q: Query) {
    var p := e.payload;
    match q
    case DraftWork(id) => ChangesDraft(p, id)
    case AnyWork(id) => ChangesDraft(p, id) || (p.ReviewAttested? && p.review.packageId == id)
    case Discussions => p.DiscussionRecorded?
    case Admissions => p.SignedAdmitted? || p.TopicAdmitted? || p.AdoptionAdmitted?
    case Briefs => p.BriefDerived?
    case Participations => p.ParticipationRecorded?
    case Withdrawals => p.ParticipationRetracted?
    case Outcomes => p.OutcomeRecorded?
  }

  /** The last event that meets the query. */
  function Latest(events: seq<Event>, q: Query): (k: Option<nat>)
    ensures k.Some? ==> k.value < |events| && Meets(events[k.value], q)
    ensures forall j :: (if k.Some? then k.value + 1 else 0) <= j < |events| ==> !Meets(events[j], q)
  {
    if events == [] then None
    else if Meets(events[|events| - 1], q) then Some(|events| - 1)
    else Latest(events[..|events| - 1], q)
  }

  function LatestId(events: seq<Event>, q: Query): EventId {
    var k := Latest(events, q);
    if k.None? then EventId("", 0) else events[k.value].header.eventId
  }

  /** The value of an accepted check. */
  function IfOk<T>(r: Result<T>): Option<T> {
    if r.Ok? then Some(r.value) else None
  }

  /** The draft of a package is that of its last draft or correction, unless its response was retracted since. */
  function DraftOf(env: Env, events: seq<Event>, id: string): Option<DraftRecord> {
    var k := Latest(events, DraftWork(id));
    if k.None? || events[k.value].payload.ResponseRetracted? then None
    else
      var e := events[k.value];
      var draft := NormalizeDraft(env, e.payload.draft);
      if draft.Err? then None
      else Some(DraftRecord(draft.value, e.payload.draftArtifactChecksum, e.header.actorBinding, e.header.eventId))
  }

  /** The review of a package is that of its last review, unless it was corrected or retracted since. */
  function ReviewOf(env: Env, opt: Options, events: seq<Event>, id: string): Option<ReviewRecord> {
    var k := Latest(events, AnyWork(id));
    if k.None? || !events[k.value].payload.ReviewAttested? then None
    else
      var e := events[k.value];
      var review := NormalizeReview(env, e.payload.review, opt.syntheticDepartmentReview);
      if review.Err? then None
      else Some(ReviewRecord(review.value, e.payload.policyVersion, e.header.actorBinding,
                             e.payload.attestationChecksum, e.header.eventId))
  }

  /** What was done last to a package. */
  function CorrectionOf(events: seq<Event>, id: string): CorrectionState {
    var k := Latest(events, AnyWork(id));
    if k.None? then Current
    else match events[k.value].payload
         case DraftCorrected(_, _, _, _, _) => Corrected
         case ResponseRetracted(_) => Retracted
         case _ => Current
  }

  function DepartmentOf(env: Env, opt: Options, events: seq<Event>, pkg: DepartmentPackage, sum: Checksum): Department {
    Department(pkg, sum, DraftOf(env, events, pkg.id), ReviewOf(env, opt, events, pkg.id), CorrectionOf(events, pkg.id))
  }

  /** The packages in the order of their assignment. */
  function PackagesOf(env: Env, events: seq<Event>): seq<(DepartmentPackage, Checksum)> {
    if events == [] then []
    else
      var rest, p := PackagesOf(env, events[..|events| - 1]), events[|events| - 1].payload;
      if p.PackageAssigned? && NormalizePackage(env, p.departmentPackage).Ok? then
        rest + [(NormalizePackage(env, p.departmentPackage).value, p.packageChecksum)]
      else rest
  }

  function DepartmentsOf(env: Env, opt: Options, events: seq<Event>): seq<Department> {
    var ps := PackagesOf(env, events);
    seq(|ps|, i requires 0 <= i < |ps| => DepartmentOf(env, opt, events, ps[i].0, ps[i].1))
  }

  function DiscussionOf(env: Env, events: seq<Event>): Option<Discussion> {
    var k := Latest(events, Discussions);
    if k.None? then None else IfOk(NormalizeArtifact(env, events[k.value].payload.discussion))
  }

  /** What an admission event admits, with the title it gives to the suggestion. */
  function AdmissionIn(env: Env, opt: Options, d: Discussion, e: Event): Option<(Admission, string)> {
    var id := e.header.eventId;
    match e.payload
    case SignedAdmitted(signed, sum, _) =>
      var s := NormalizeSignedSuggestion(env, opt, d, signed);
      if s.Err? then None else Some((SignedAdmission(s.value, sum, id), s.value.draft.core.title))
    case TopicAdmitted(topic, answer, sum, _) =>
      var v := env.verifyTopic(ToNostr(d), answer, topic);
      if v.Err? then None
      else Some((TopicAdmissionRecord(v.value.signedSuggestion, v.value.sourceAnswer, sum, id),
                 v.value.signedSuggestion.title))
    case AdoptionAdmitted(evidence, sum, _) =>
      var v := env.verifyAdoption(e.header.eventType.SyntheticAdoptionAdmittedV1?, evidence);
      if v.Err? then None else Some((AdoptionAdmissionRecord(v.value.evidence, sum, id), v.value.title))
    case _ => None
  }

  function AdmissionOf(env: Env, opt: Options, events: seq<Event>): Option<(Admission, string)> {
    var k, d := Latest(events, Admissions), DiscussionOf(env, events);
    if k.None? || d.None? then None else AdmissionIn(env, opt, d.value, events[k.value])
  }

  function SuggestionOf(env: Env, opt: Options, events: seq<Event>): Option<Suggestion> {
    var k, a := Latest(events, Discussions), AdmissionOf(env, opt, events);
    if k.None? then None
    else
      var s := events[k.value].payload.suggestion;
      Some(if a.None? then s else s.(title := a.value.1))
  }

  /** A brief is pinned to the last draft and the last review before it of every package that it binds. */
  function PinsOf(events: seq<Event>, b: Brief): map<string, SourceEvents> {
    map pb | pb in b.body.packageBindings ::
      pb.binding.packageId := SourceEvents(LatestId(events, DraftWork(pb.binding.packageId)),
                                           LatestId(events, AnyWork(pb.binding.packageId)))
  }

  function BriefOf(events: seq<Event>): Option<BriefRecord> {
    var k := Latest(events, Briefs);
    if k.None? then None
    else
      var e := events[k.value];
      Some(BriefRecord(e.payload.brief, e.header.eventId, PinsOf(events[..k.value], e.payload.brief)))
  }

  function ParticipationOf(env: Env, events: seq<Event>): Option<ParticipationRecord> {
    var k, w := Latest(events, Participations), Latest(events, Withdrawals);
    if k.None? then None
    else
      var e := events[k.value];
      var n := NormalizeParticipation(env, e.payload.participation);
      if n.Err? then None
      else Some(ParticipationRecord(n.value, e.payload.sourceBrief, e.payload.policyVersion,
                                    e.payload.reviewerActorBinding, e.payload.reviewAttestationChecksum,
                                    e.header.eventId, w.Some?))
  }

  function OutcomeIn(events: seq<Event>): Option<OutcomeRecord> {
    var k := Latest(events, Outcomes);
    if k.None? then None else Some(OutcomeRecord(events[k.value].payload.outcome, events[k.value].header.eventId))
  }

  function HeadOf(opt: Options, events: seq<Event>): Checksum {
    if events == [] then Genesis(opt) else events[|events| - 1].eventChecksum
  }

  /** The state of a Case, read off its journal. */
  function StateOf(env: Env, opt: Options, events: seq<Event>): CaseState {
    var a := AdmissionOf(env, opt, events);
    CaseState(HeadOf(opt, events), DiscussionOf(env, events), SuggestionOf(env, opt, events),
              if a.None? then None else Some(a.value.0), DepartmentsOf(env, opt, events),
              BriefOf(events), ParticipationOf(env, events), OutcomeIn(events))
  }

  // One more event.

  /** An event that does not meet the query does not change what is looked up. */
  lemma LatestKept(events: seq<Event>, q: Query)
    requires events != [] && !Meets(events[|events| - 1], q)
    ensures var init := events[..|events| - 1];
            && Latest(events, q) == Latest(init, q)
            && (Latest(events, q).Some? ==> events[Latest(events, q).value] == init[Latest(events, q).value])
            && LatestId(events, q) == LatestId(init, q)
  {
  }

  /** The package that an event works on. */
  function WorkedOn(p: Payload): Option<string> {
    match p
    case DraftRecorded(id, _, _, _) => Some(id)
    case DraftCorrected(id, _, _, _, _) => Some(id)
    case ReviewAttested(r, _, _) => Some(r.packageId)
    case ResponseRetracted(r) => Some(r.packageId)
    case _ => None
  }

  lemma WorkKept(env: Env, opt: Options, events: seq<Event>, pkg: DepartmentPackage, sum: Checksum)
    requires events != [] && WorkedOn(events[|events| - 1].payload) != Some(pkg.id)
    ensures DepartmentOf(env, opt, events, pkg, sum) == DepartmentOf(env, opt, events[..|events| - 1], pkg, sum)
  {
    hide NormalizeDraft, NormalizeReview;
    LatestKept(events, DraftWork(pkg.id));
    LatestKept(events, AnyWork(pkg.id));
  }

  /** Without an assignment the packages stay, and at most the department that is worked on changes. */
  lemma DepartmentsKept(env: Env, opt: Options, events: seq<Event>, ds: seq<Department>)
    requires events != [] && !events[|events| - 1].payload.PackageAssigned?
    requires ds == DepartmentsOf(env, opt, events[..|events| - 1])
    ensures var es := DepartmentsOf(env, opt, events);
            && |es| == |ds|
            && forall i :: 0 <= i < |ds| ==>
                             && (WorkedOn(events[|events| - 1].payload) != Some(ds[i].pkg.id) ==> es[i] == ds[i])
                             && es[i] == DepartmentOf(env, opt, events, ds[i].pkg, ds[i].packageChecksum)
  {
    hide NormalizePackage, DraftOf, ReviewOf, CorrectionOf;
    forall i | 0 <= i < |ds| && WorkedOn(events[|events| - 1].payload) != Some(ds[i].pkg.id)
      ensures DepartmentsOf(env, opt, events)[i] == ds[i]
    {
      WorkKept(env, opt, events, ds[i].pkg, ds[i].packageChecksum);
    }
  }

  /** Nothing but the department work is looked up where an event works on a package. */
  lemma RestKept(env: Env, opt: Options, events: seq<Event>)
    requires events != []
    ensures var init, p := events[..|events| - 1], events[|events| - 1].payload;
            && (!p.DiscussionRecorded? ==> DiscussionOf(env, events) == DiscussionOf(env, init))
            && (!p.DiscussionRecorded? && !p.SignedAdmitted? && !p.TopicAdmitted? && !p.AdoptionAdmitted? ==>
                  && AdmissionOf(env, opt, events) == AdmissionOf(env, opt, init)
                  && SuggestionOf(env, opt, events) == SuggestionOf(env, opt, init))
            && (!p.ParticipationRecorded? && !p.ParticipationRetracted? ==>
                  ParticipationOf(env, events) == ParticipationOf(env, init))
            && (!p.OutcomeRecorded? ==> OutcomeIn(events) == OutcomeIn(init))
  {
    hide NormalizeArtifact, AdmissionIn, NormalizeParticipation, Latest;
    var e := events[|events| - 1];
    forall q | !Meets(e, q) ensures Latest(events, q) == Latest(events[..|events| - 1], q) {
      LatestKept(events, q);
    }
  }

  lemma BriefKept(events: seq<Event>)
    requires events != [] && !events[|events| - 1].payload.BriefDerived?
    ensures BriefOf(events) == BriefOf(events[..|events| - 1])
  {
    hide PinsOf;
    LatestKept(events, Briefs);
    var k := Latest(events, Briefs);
    if k.Some? {
      assert events[..|events| - 1][..k.value] == events[..k.value];
    }
  }

  // Every step of a replay.

  /** Every package that was worked on had been assigned. */
  ghost predicate WorkIsAssigned(events: seq<Event>, ds: seq<Department>) {
    forall j :: 0 <= j < |events| && WorkedOn(events[j].payload).Some? ==>
                  HasPackage(ds, WorkedOn(events[j].payload).value)
  }

  /** What a replay has built up is what the journal says. */
  ghost predicate Remembered(env: Env, opt: Options, events: seq<Event>, st: CaseState) {
    && st == StateOf(env, opt, events) && WorkIsAssigned(events, st.departments)
    && (Latest(events, Withdrawals).Some? ==> st.participation.Some?)
    && (Latest(events, Admissions).Some? ==> st.admission.Some?)
  }

  lemma RewrittenIsRemembered(env: Env, opt: Options, events: seq<Event>, st: CaseState, mid: CaseState, i: nat)
    requires events != [] && Remembered(env, opt, events[..|events| - 1], st) && Unique(st.departments)
    requires WorkedOn(events[|events| - 1].payload).Some?
    requires i < |st.departments| && st.departments[i].pkg.id == WorkedOn(events[|events| - 1].payload).value
    requires var d := st.departments[i];
             mid == st.(departments := st.departments[i := DepartmentOf(env, opt, events, d.pkg, d.packageChecksum)])
    ensures Remembered(env, opt, events, mid.(prior := events[|events| - 1].eventChecksum))
  {
    hide DepartmentOf, DiscussionOf, AdmissionOf, SuggestionOf, BriefOf, ParticipationOf, OutcomeIn, DepartmentsOf;
    var n, init, ds := |events| - 1, events[..|events| - 1], st.departments;
    DepartmentsKept(env, opt, events, ds);
    RestKept(env, opt, events);
    BriefKept(events);
    assert mid.departments == DepartmentsOf(env, opt, events);
    PackageOfDepartment(env, opt, events, ds[i]);
    forall j | 0 <= j < |events| && WorkedOn(events[j].payload).Some?
      ensures HasPackage(mid.departments, WorkedOn(events[j].payload).value)
    {
      var id := WorkedOn(events[j].payload).value;
      if j < n {
        assert init[j] == events[j];
        PackageKept(ds, mid.departments, id);
      } else {
        assert mid.departments[i].pkg.id == id;
      }
    }
  }

  lemma PackageOfDepartment(env: Env, opt: Options, events: seq<Event>, d: Department)
    ensures DepartmentOf(env, opt, events, d.pkg, d.packageChecksum).pkg == d.pkg
  {
  }

  lemma PackageKept(ds: seq<Department>, es: seq<Department>, id: string)
    requires |ds| == |es| && HasPackage(ds, id)
    requires forall i :: 0 <= i < |ds| ==> es[i].pkg == ds[i].pkg || ds[i].pkg.id != id
    ensures HasPackage(es, id)
  {
    var i := FindPackage(ds, id);
    assert es[i].pkg.id == id;
  }

  lemma DraftRemembered(env: Env, opt: Options, events: seq<Event>, st: CaseState)
    requires events != [] && Remembered(env, opt, events[..|events| - 1], st)
             && DepartmentsOk(opt, st.departments, |events| - 1)
    requires var e := events[|events| - 1];
             e.payload.DraftRecorded? && StepDraft(env, opt, st, e.header, e.payload).Ok?
    ensures var e := events[|events| - 1];
            Remembered(env, opt, events, StepDraft(env, opt, st, e.header, e.payload).value.(prior := e.eventChecksum))
  {
    hide NormalizeDraft, NormalizeReview, Remembered;
    var e := events[|events| - 1];
    var i := FindPackage(st.departments, e.payload.packageId);
    RewrittenIsRemembered(env, opt, events, st, StepDraft(env, opt, st, e.header, e.payload).value, i);
  }

  lemma CorrectionRemembered(env: Env, opt: Options, events: seq<Event>, st: CaseState)
    requires events != [] && Remembered(env, opt, events[..|events| - 1], st)
             && DepartmentsOk(opt, st.departments, |events| - 1)
    requires var e := events[|events| - 1];
             e.payload.DraftCorrected? && StepCorrect(env, opt, st, e.header, e.payload).Ok?
    ensures var e := events[|events| - 1];
            Remembered(env, opt, events,
                       StepCorrect(env, opt, st, e.header, e.payload).value.(prior := e.eventChecksum))
  {
    hide NormalizeDraft, NormalizeReview, Remembered;
    var e := events[|events| - 1];
    var i := FindPackage(st.departments, e.payload.packageId);
    RewrittenIsRemembered(env, opt, events, st, StepCorrect(env, opt, st, e.header, e.payload).value, i);
  }

  lemma ReviewRemembered(env: Env, opt: Options, events: seq<Event>, st: CaseState)
    requires events != [] && Remembered(env, opt, events[..|events| - 1], st)
             && DepartmentsOk(opt, st.departments, |events| - 1)
    requires var e := events[|events| - 1];
             e.payload.ReviewAttested? && StepReview(env, opt, st, e.header, e.payload).Ok?
    ensures var e := events[|events| - 1];
            Remembered(env, opt, events, StepReview(env, opt, st, e.header, e.payload).value.(prior := e.eventChecksum))
  {
    hide NormalizeDraft, NormalizeReview, Remembered;
    var e := events[|events| - 1];
    var i := FindPackage(st.departments, e.payload.review.packageId);
    DepartmentRemembered(env, opt, events[..|events| - 1], st, i);
    LatestKept(events, DraftWork(e.payload.review.packageId));
    RewrittenIsRemembered(env, opt, events, st, StepReview(env, opt, st, e.header, e.payload).value, i);
  }

  lemma RetractionRemembered(env: Env, opt: Options, events: seq<Event>, st: CaseState)
    requires events != [] && Remembered(env, opt, events[..|events| - 1], st)
             && DepartmentsOk(opt, st.departments, |events| - 1)
    requires var e := events[|events| - 1];
             e.payload.ResponseRetracted? && StepRetract(env, opt, st, e.header, e.payload).Ok?
    ensures var e := events[|events| - 1];
            Remembered(env, opt, events,
                       StepRetract(env, opt, st, e.header, e.payload).value.(prior := e.eventChecksum))
  {
    hide NormalizeDraft, NormalizeReview, NormalizeRetraction, Remembered;
    var e := events[|events| - 1];
    var i := FindPackage(st.departments, e.payload.retraction.packageId);
    RewrittenIsRemembered(env, opt, events, st, StepRetract(env, opt, st, e.header, e.payload).value, i);
  }

  /** A remembered department is looked up under its package. */
  lemma DepartmentRemembered(env: Env, opt: Options, events: seq<Event>, st: CaseState, i: nat)
    requires Remembered(env, opt, events, st) && i < |st.departments|
    ensures var d := st.departments[i]; d == DepartmentOf(env, opt, events, d.pkg, d.packageChecksum)
  {
    hide PackagesOf, DraftOf, ReviewOf, CorrectionOf, DiscussionOf, AdmissionOf, SuggestionOf, BriefOf, ParticipationOf,
      OutcomeIn;
  }

  lemma AssignmentRemembered(env: Env, opt: Options, events: seq<Event>, st: CaseState)
    requires events != [] && Remembered(env, opt, events[..|events| - 1], st)
    requires var e := events[|events| - 1];
             e.payload.PackageAssigned? && StepAssign(env, opt, st, |events| - 1, e.header, e.payload).Ok?
    ensures var e := events[|events| - 1];
            Remembered(env, opt, events,
                       StepAssign(env, opt, st, |events| - 1, e.header, e.payload).value.(prior := e.eventChecksum))
  {
    hide NormalizePackage, DraftOf, ReviewOf, CorrectionOf, DiscussionOf, AdmissionOf, SuggestionOf, BriefOf,
      ParticipationOf, OutcomeIn;
    var n, init, e, ds := |events| - 1, events[..|events| - 1], events[|events| - 1], st.departments;
    var mid := StepAssign(env, opt, st, n, e.header, e.payload).value;
    var pkg := NormalizePackage(env, e.payload.departmentPackage).value;
    RestKept(env, opt, events);
    BriefKept(events);
    forall i | 0 <= i < |ds| ensures DepartmentsOf(env, opt, events)[i] == ds[i] {
      WorkKept(env, opt, events, ds[i].pkg, ds[i].packageChecksum);
    }
    NothingWorkedOn(env, opt, events, pkg.id);
    assert mid.departments == DepartmentsOf(env, opt, events);
    forall j | 0 <= j < |events| && WorkedOn(events[j].payload).Some?
      ensures HasPackage(mid.departments, WorkedOn(events[j].payload).value)
    {
      assert init[j] == events[j];
      PackageStays(ds, mid.departments, WorkedOn(events[j].payload).value);
    }
  }

  lemma PackageStays(ds: seq<Department>, es: seq<Department>, id: string)
    requires ds <= es && HasPackage(ds, id)
    ensures HasPackage(es, id)
  {
    assert es[FindPackage(ds, id)].pkg.id == id;
  }

  lemma NothingWorkedOn(env: Env, opt: Options, events: seq<Event>, id: string)
    requires forall j :: 0 <= j < |events| ==> WorkedOn(events[j].payload) != Some(id)
    ensures DraftOf(env, events, id).None? && ReviewOf(env, opt, events, id).None?
            && CorrectionOf(events, id) == Current
  {
    hide NormalizeDraft, NormalizeReview;
  }

  /** Without department work and assignments the departments stay as they are. */
  lemma DepartmentsUntouched(env: Env, opt: Options, events: seq<Event>, st: CaseState, next: CaseState)
    requires events != [] && Remembered(env, opt, events[..|events| - 1], st) && next.departments == st.departments
    requires var p := events[|events| - 1].payload; WorkedOn(p).None? && !p.PackageAssigned?
    ensures next.departments == DepartmentsOf(env, opt, events) && WorkIsAssigned(events, next.departments)
  {
    hide DepartmentOf, DepartmentsOf, DiscussionOf, AdmissionOf, SuggestionOf, BriefOf, ParticipationOf, OutcomeIn;
    DepartmentsKept(env, opt, events, st.departments);
    forall j | 0 <= j < |events| && WorkedOn(events[j].payload).Some?
      ensures HasPackage(next.departments, WorkedOn(events[j].payload).value)
    {
      assert events[..|events| - 1][j] == events[j];
    }
  }

  lemma ParticipationTaken(env: Env, opt: Options, st: CaseState, h: Header, p: Payload)
    requires p.ParticipationRecorded? && StepParticipation(env, opt, st, h, p).Ok?
    ensures st.participation.None? && NormalizeParticipation(env, p.participation).Ok?
    ensures StepParticipation(env, opt, st, h, p).value
         == st.(participation := Some(ParticipationRecord(NormalizeParticipation(env, p.participation).value,
                                                          p.sourceBrief, p.policyVersion, p.reviewerActorBinding,
                                                          p.reviewAttestationChecksum, h.eventId, false)))
  {
    hide NormalizeParticipation, BriefIsCurrent;
  }

  lemma ParticipationRemembered(env: Env, opt: Options, events: seq<Event>, st: CaseState)
    requires events != [] && Remembered(env, opt, events[..|events| - 1], st)
    requires var e := events[|events| - 1];
             e.payload.ParticipationRecorded? && StepParticipation(env, opt, st, e.header, e.payload).Ok?
    ensures var e := events[|events| - 1];
            Remembered(env, opt, events,
                       StepParticipation(env, opt, st, e.header, e.payload).value.(prior := e.eventChecksum))
  {
    hide NormalizeParticipation, DepartmentsOf, DiscussionOf, AdmissionOf, SuggestionOf, BriefOf, OutcomeIn,
      BriefIsCurrent, WorkIsAssigned, StepParticipation;
    var e := events[|events| - 1];
    ParticipationTaken(env, opt, st, e.header, e.payload);
    RestKept(env, opt, events);
    BriefKept(events);
    LatestKept(events, Withdrawals);
    DepartmentsUntouched(env, opt, events, st, StepParticipation(env, opt, st, e.header, e.payload).value);
  }

  lemma WithdrawalRemembered(env: Env, opt: Options, events: seq<Event>, st: CaseState)
    requires events != [] && Remembered(env, opt, events[..|events| - 1], st)
    requires var e := events[|events| - 1];
             e.payload.ParticipationRetracted? && StepParticipationRetracted(env, opt, st, e.header, e.payload).Ok?
    ensures var e := events[|events| - 1];
            Remembered(env, opt, events,
                       StepParticipationRetracted(env, opt, st, e.header, e.payload).value.(prior := e.eventChecksum))
  {
    hide NormalizeParticipation, NormalizeParticipationReference, DepartmentsOf, DiscussionOf, AdmissionOf,
      SuggestionOf, BriefOf, OutcomeIn, WorkIsAssigned;
    var e := events[|events| - 1];
    RestKept(env, opt, events);
    BriefKept(events);
    LatestKept(events, Participations);
    DepartmentsUntouched(env, opt, events, st, StepParticipationRetracted(env, opt, st, e.header, e.payload).value);
  }

  lemma OutcomeRemembered(env: Env, opt: Options, events: seq<Event>, st: CaseState)
    requires events != [] && Remembered(env, opt, events[..|events| - 1], st)
    requires var e := events[|events| - 1];
             e.payload.OutcomeRecorded? && StepOutcome(env, opt, st, e.header, e.payload).Ok?
    ensures var e := events[|events| - 1];
            Remembered(env, opt, events,
                       StepOutcome(env, opt, st, e.header, e.payload).value.(prior := e.eventChecksum))
  {
    hide NormalizeOutcome, DepartmentsOf, DiscussionOf, AdmissionOf, SuggestionOf, BriefOf, ParticipationOf,
      BriefIsCurrent, ParticipationIsCurrent, WorkIsAssigned;
    var e := events[|events| - 1];
    RestKept(env, opt, events);
    BriefKept(events);
    DepartmentsUntouched(env, opt, events, st, StepOutcome(env, opt, st, e.header, e.payload).value);
  }

  lemma BriefRemembered(env: Env, opt: Options, events: seq<Event>, st: CaseState)
    requires ValidOptions(opt) && Unique(st.departments)
    requires events != [] && Remembered(env, opt, events[..|events| - 1], st)
    requires var e := events[|events| - 1]; e.payload.BriefDerived? && StepBrief(opt, st, e.header, e.payload).Ok?
    ensures var e := events[|events| - 1];
            Remembered(env, opt, events, StepBrief(opt, st, e.header, e.payload).value.(prior := e.eventChecksum))
  {
    hide DepartmentsOf, DiscussionOf, AdmissionOf, SuggestionOf, ParticipationOf, OutcomeIn, ValidateAndDerive,
      SourceEventIds, PinsOf, WorkIsAssigned;
    var e := events[|events| - 1];
    var mid := StepBrief(opt, st, e.header, e.payload).value;
    RestKept(env, opt, events);
    DepartmentsUntouched(env, opt, events, st, mid);
    assert mid.brief.value.sourceEventIds == PinsOf(events[..|events| - 1], e.payload.brief) by {
      assert DerivedFrom(opt, st, mid.brief.value, e.payload.sourceBindings);
      PinsRemembered(env, opt, events[..|events| - 1], st, mid.brief.value, e.payload.sourceBindings);
    }
  }

  /** The pins of a derived brief are the events that are remembered of its packages. */
  lemma PinsRemembered(env: Env, opt: Options, events: seq<Event>, st: CaseState, r: BriefRecord,
                       bs: seq<SourceBinding>)
    requires ValidOptions(opt) && Unique(st.departments)
    requires Remembered(env, opt, events, st) && DerivedFrom(opt, st, r, bs)
    ensures r.sourceEventIds == PinsOf(events, r.brief)
  {
    hide ValidateAndDerive, Remembered, LatestId, Pinned, DerivedFrom, BriefIsCurrent, Covers, BoundReady;
    DerivedPinned(opt, st, r, bs);
    var pbs := r.brief.body.packageBindings;
    SourcesOfBound(opt, st, r, bs);
    forall id | id in r.sourceEventIds ensures id in PinsOf(events, r.brief) {
      var k :| 0 <= k < |pbs| && Unbound(pbs)[k].packageId == id;
      assert pbs[k] in pbs;
    }
    forall pb | pb in pbs
      ensures pb.binding.packageId in r.sourceEventIds
      ensures r.sourceEventIds[pb.binding.packageId] == PinsOf(events, r.brief)[pb.binding.packageId]
    {
      PinRemembered(env, opt, events, st, r.sourceEventIds, pb.binding.packageId);
    }
  }

  lemma SourcesOfBound(opt: Options, st: CaseState, r: BriefRecord, bs: seq<SourceBinding>)
    requires ValidOptions(opt) && Unique(st.departments) && DerivedFrom(opt, st, r, bs)
    ensures forall id :: id in r.sourceEventIds ==>
                           exists k :: 0 <= k < |Unbound(r.brief.body.packageBindings)|
                                       && Unbound(r.brief.body.packageBindings)[k].packageId == id
  {
    hide ValidateAndDerive;
    DerivedBinds(opt, st, r, bs);
    SourcesCounted(Unbound(r.brief.body.packageBindings), st.departments);
  }

  lemma PinRemembered(env: Env, opt: Options, events: seq<Event>, st: CaseState, sources: map<string, SourceEvents>,
                      id: string)
    requires Remembered(env, opt, events, st) && Pinned(st.departments, sources, id)
    ensures id in sources
    ensures sources[id] == SourceEvents(LatestId(events, DraftWork(id)), LatestId(events, AnyWork(id)))
  {
    hide Remembered, LatestId, DraftOf, ReviewOf, CorrectionOf;
    DepartmentRemembered(env, opt, events, st, FindPackage(st.departments, id));
    RecordIds(env, opt, events, id);
  }

  lemma RecordIds(env: Env, opt: Options, events: seq<Event>, id: string)
    ensures DraftOf(env, events, id).Some? ==> DraftOf(env, events, id).value.eventId == LatestId(events, DraftWork(id))
    ensures ReviewOf(env, opt, events, id).Some? ==>
              ReviewOf(env, opt, events, id).value.eventId == LatestId(events, AnyWork(id))
  {
    hide NormalizeDraft, NormalizeReview;
  }

  /** One step of a replay keeps what is built up equal to what the journal says. */
  lemma StepRemembers(env: Env, opt: Options, events: seq<Event>, st: CaseState)
    requires ValidOptions(opt) && events != [] && Remembered(env, opt, events[..|events| - 1], st)
    requires Inv(opt, st, |events| - 1)
    requires var e := events[|events| - 1]; StepPayload(env, opt, st, |events| - 1, e.header, e.payload).Ok?
    ensures var e := events[|events| - 1];
            Remembered(env, opt, events,
                       StepPayload(env, opt, st, |events| - 1, e.header, e.payload).value.(prior := e.eventChecksum))
  {
    hide Remembered, StepCreated, StepDiscussion, StepSigned, StepTopic, StepAdoption, StepAssign, StepDraft,
      StepReview, StepCorrect, StepRetract, StepBrief, StepParticipation, StepParticipationRetracted, StepOutcome,
      BriefOk, ParticipationOk, OutcomeOk, DepartmentOk;
    match events[|events| - 1].payload
    case PackageAssigned(_, _) => AssignmentRemembered(env, opt, events, st);
    case DraftRecorded(_, _, _, _) => DraftRemembered(env, opt, events, st);
    case ReviewAttested(_, _, _) => ReviewRemembered(env, opt, events, st);
    case DraftCorrected(_, _, _, _, _) => CorrectionRemembered(env, opt, events, st);
    case ResponseRetracted(_) => RetractionRemembered(env, opt, events, st);
    case BriefDerived(_, _, _, _) => BriefRemembered(env, opt, events, st);
    case ParticipationRecorded(_, _, _, _, _) => ParticipationRemembered(env, opt, events, st);
    case ParticipationRetracted(_) => WithdrawalRemembered(env, opt, events, st);
    case OutcomeRecorded(_, _) => OutcomeRemembered(env, opt, events, st);
    case _ => IntakeRemembered(env, opt, events, st);
  }

  /** The parts of the state that an event before the department work leaves alone. */
  lemma IntakeFrame(env: Env, opt: Options, events: seq<Event>, st: CaseState, next: CaseState)
    requires events != [] && Remembered(env, opt, events[..|events| - 1], st)
    requires next == st.(discussion := next.discussion, suggestion := next.suggestion, admission := next.admission)
    requires var p := events[|events| - 1].payload;
             p.CaseCreated? || p.DiscussionRecorded? || p.SignedAdmitted? || p.TopicAdmitted? || p.AdoptionAdmitted?
    requires next.discussion == DiscussionOf(env, events) && next.suggestion == SuggestionOf(env, opt, events)
    requires var a := AdmissionOf(env, opt, events); next.admission == if a.None? then None else Some(a.value.0)
    requires Latest(events, Admissions).Some? ==> next.admission.Some?
    ensures Remembered(env, opt, events, next.(prior := events[|events| - 1].eventChecksum))
  {
    hide DiscussionOf, SuggestionOf, AdmissionOf, DepartmentsOf, BriefOf, ParticipationOf, OutcomeIn, WorkIsAssigned;
    RestKept(env, opt, events);
    BriefKept(events);
    LatestKept(events, Withdrawals);
    DepartmentsUntouched(env, opt, events, st, next);
  }

  lemma CreationRemembered(env: Env, opt: Options, events: seq<Event>, st: CaseState)
    requires events != [] && Remembered(env, opt, events[..|events| - 1], st)
    requires var e := events[|events| - 1];
             e.payload.CaseCreated? && StepCreated(opt, st, |events| - 1, e.header, e.payload).Ok?
    ensures var e := events[|events| - 1];
            Remembered(env, opt, events,
                       StepCreated(opt, st, |events| - 1, e.header, e.payload).value.(prior := e.eventChecksum))
  {
    hide Remembered, DiscussionOf, SuggestionOf, AdmissionOf;
    StateRemembered(env, opt, events[..|events| - 1], st);
    RestKept(env, opt, events);
    LatestKept(events, Admissions);
    IntakeFrame(env, opt, events, st, st);
  }

  lemma StateRemembered(env: Env, opt: Options, events: seq<Event>, st: CaseState)
    requires Remembered(env, opt, events, st)
    ensures st.discussion == DiscussionOf(env, events) && st.suggestion == SuggestionOf(env, opt, events)
    ensures var a := AdmissionOf(env, opt, events); st.admission == if a.None? then None else Some(a.value.0)
    ensures Latest(events, Admissions).Some? ==> st.admission.Some?
  {
    hide DiscussionOf, SuggestionOf, AdmissionOf, DepartmentsOf, BriefOf, ParticipationOf, OutcomeIn, WorkIsAssigned;
  }

  lemma DiscussionRemembered(env: Env, opt: Options, events: seq<Event>, st: CaseState)
    requires events != [] && Remembered(env, opt, events[..|events| - 1], st) && OriginOk(st, |events| - 1)
    requires var e := events[|events| - 1];
             e.payload.DiscussionRecorded? && StepDiscussion(env, st, |events| - 1, e.header, e.payload).Ok?
    ensures var e := events[|events| - 1];
            Remembered(env, opt, events,
                       StepDiscussion(env, st, |events| - 1, e.header, e.payload).value.(prior := e.eventChecksum))
  {
    hide Remembered, NormalizeArtifact, AdmissionIn;
    var e := events[|events| - 1];
    StateRemembered(env, opt, events[..|events| - 1], st);
    LatestKept(events, Admissions);
    IntakeFrame(env, opt, events, st, StepDiscussion(env, st, |events| - 1, e.header, e.payload).value);
  }

  lemma AdmissionRemembered(env: Env, opt: Options, events: seq<Event>, st: CaseState, next: CaseState)
    requires events != [] && Remembered(env, opt, events[..|events| - 1], st)
    requires Meets(events[|events| - 1], Admissions) && st.discussion.Some? && st.suggestion.Some? && st.admission.None?
    requires AdmissionIn(env, opt, st.discussion.value, events[|events| - 1]).Some?
    requires var (a, title) := AdmissionIn(env, opt, st.discussion.value, events[|events| - 1]).value;
             next == st.(admission := Some(a), suggestion := Some(st.suggestion.value.(title := title)))
    ensures Remembered(env, opt, events, next.(prior := events[|events| - 1].eventChecksum))
  {
    hide Remembered, NormalizeArtifact, AdmissionIn;
    StateRemembered(env, opt, events[..|events| - 1], st);
    LatestKept(events, Discussions);
    RestKept(env, opt, events);
    IntakeFrame(env, opt, events, st, next);
  }

  /** The events before the department work. */
  lemma IntakeRemembered(env: Env, opt: Options, events: seq<Event>, st: CaseState)
    requires events != [] && Remembered(env, opt, events[..|events| - 1], st) && OriginOk(st, |events| - 1)
    requires var e := events[|events| - 1]; StepPayload(env, opt, st, |events| - 1, e.header, e.payload).Ok?
    requires var p := events[|events| - 1].payload;
             p.CaseCreated? || p.DiscussionRecorded? || p.SignedAdmitted? || p.TopicAdmitted? || p.AdoptionAdmitted?
    ensures var e := events[|events| - 1];
            Remembered(env, opt, events,
                       StepPayload(env, opt, st, |events| - 1, e.header, e.payload).value.(prior := e.eventChecksum))
  {
    hide Remembered, NormalizeArtifact, NormalizeSignedSuggestion;
    var e := events[|events| - 1];
    if e.payload.CaseCreated? {
      CreationRemembered(env, opt, events, st);
    } else if e.payload.DiscussionRecorded? {
      DiscussionRemembered(env, opt, events, st);
    } else {
      AdmissionRemembered(env, opt, events, st, StepPayload(env, opt, st, |events| - 1, e.header, e.payload).value);
    }
  }

  /** The state that a replay builds up step by step is what the journal says, looked up latest entry first. */
  lemma {:induction false} ReplayRemembers(env: Env, opt: Options, events: seq<Event>)
    requires ValidOptions(opt) && Fold(env, opt, events).Ok?
    ensures Fold(env, opt, events).value == StateOf(env, opt, events)
    ensures Remembered(env, opt, events, Fold(env, opt, events).value)
  {
    hide Remembered, StepPayload, CheckHeader, Inv;
    if events == [] {
      NothingRemembered(env, opt);
    } else {
      var st, mid := LastStep(env, opt, events);
      ReplayedOk(env, opt, events[..|events| - 1]);
      ReplayRemembers(env, opt, events[..|events| - 1]);
      StepRemembers(env, opt, events, st);
    }
    assert Fold(env, opt, events).value == StateOf(env, opt, events) by {
      RememberedState(env, opt, events, Fold(env, opt, events).value);
    }
  }

  lemma RememberedState(env: Env, opt: Options, events: seq<Event>, st: CaseState)
    requires Remembered(env, opt, events, st)
    ensures st == StateOf(env, opt, events)
  {
  }

  lemma NothingRemembered(env: Env, opt: Options)
    ensures Remembered(env, opt, [], InitialState(opt))
  {
  }

  // What stands.

  /** Event number `k` of a journal that replays has version `k + 1`. */
  lemma EventNumbered(env: Env, opt: Options, events: seq<Event>, k: nat)
    requires Fold(env, opt, events).Ok? && k < |events|
    ensures events[k].header.eventId == EventId(opt.caseId, k + 1)
  {
    hide StepPayload, CheckHeader, Fold;
    PrefixReplays(env, opt, events, k + 1);
    var st, mid := LastStep(env, opt, events[..k + 1]);
  }

  /** The records of the state are of the last events that made them, which stand exactly while they are current. */
  lemma RecordsStand(env: Env, opt: Options, events: seq<Event>, st: CaseState)
    requires ValidOptions(opt) && Fold(env, opt, events) == Ok(st)
    ensures st.brief.Some? <==> Latest(events, Briefs).Some?
    ensures st.brief.Some? ==> (BriefIsCurrent(opt, st) <==> BriefStands(events, Latest(events, Briefs).value))
    ensures st.participation.Some? ==>
              && Latest(events, Participations).Some?
              && (ParticipationIsCurrent(opt, st)
                  <==> ParticipationStands(events, Latest(events, Participations).value))
    ensures st.outcome.Some? <==> Latest(events, Outcomes).Some?
    ensures st.outcome.Some? ==> (OutcomeIsCurrent(opt, st) <==> OutcomeStands(events, Latest(events, Outcomes).value))
  {
    hide BriefIsCurrent, ParticipationIsCurrent, OutcomeIsCurrent, Fold, PinsOf, Stands, Remembered, DiscussionOf,
      SuggestionOf, AdmissionOf, DepartmentsOf, NormalizeParticipation;
    ReplayedCurrency(env, opt, events);
    ReplayRemembers(env, opt, events);
    forall q | Latest(events, q).Some?
      ensures events[Latest(events, q).value].header.eventId.version == Latest(events, q).value + 1
    {
      EventNumbered(env, opt, events, Latest(events, q).value);
    }
  }

  /** Every participation that was recorded is remembered. */
  lemma ParticipationRemains(env: Env, opt: Options, events: seq<Event>)
    requires Fold(env, opt, events).Ok? && Latest(events, Participations).Some?
    ensures ParticipationOf(env, events).Some?
  {
    hide StepPayload, CheckHeader, Fold, NormalizeParticipation;
    var k := Latest(events, Participations).value;
    PrefixReplays(env, opt, events, k + 1);
    var st, mid := LastStep(env, opt, events[..k + 1]);
    ParticipationNormalizes(env, opt, st, k, events[k]);
  }

  lemma ParticipationNormalizes(env: Env, opt: Options, st: CaseState, n: nat, e: Event)
    requires e.payload.ParticipationRecorded? && StepPayload(env, opt, st, n, e.header, e.payload).Ok?
    ensures NormalizeParticipation(env, e.payload.participation).Ok?
  {
    hide NormalizeParticipation, BriefIsCurrent, StepCreated, StepDiscussion, StepSigned, StepTopic, StepAdoption,
      StepAssign, StepDraft, StepReview, StepCorrect, StepRetract, StepBrief, StepParticipationRetracted, StepOutcome;
  }
}
