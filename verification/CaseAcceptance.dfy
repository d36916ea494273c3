/**
 Which commands are accepted: a command that is good and admitted, with a new key and the version of the
 journal, exactly if the replay believes an event that records it, and for a few commands if they meet a
 further demand that the replay does not make.
 */
module CaseAcceptance {
  import opened Results
  import opened CaseTypes
  import opened CaseNormalize
  import opened CaseNormalForms
  import opened CaseBriefs
  import opened CaseReplay
  import opened CaseInvariants
  import opened CaseBriefFacts
  import opened CaseReachable
  import opened CaseCurrency
  import opened CaseHandle
  import opened CaseAgreement
  import opened CaseRuns
  import opened CaseRecords
  import opened CaseBriefText
  import opened CaseRecording
  import opened CaseHeard
  import opened CaseLedger
  import O = CaseOrderFree
  import S = Sorting
  import opened Pigeonholes

  // Tags.

  predicate IsNamed(tag: seq<string>, name: string) {
    tag != [] && tag[0] == name
  }

  predicate NeverNamed(tags: seq<seq<string>>, name: string) {
    forall i :: 0 <= i < |tags| ==> !IsNamed(tags[i], name)
  }

  /** One tag has the name, and it is the pair of the name and the value. */
  ghost predicate StandsOnce(tags: seq<seq<string>>, name: string, value: string) {
    exists i :: 0 <= i < |tags| && tags[i] == [name, value] && forall j :: 0 <= j < |tags| && j != i
                                                                           ==> !IsNamed(tags[j], name)
  }

  lemma {:induction false} NoneNamed(tags: seq<seq<string>>, name: string)
    ensures Named(tags, name) == [] <==> NeverNamed(tags, name)
  {
    if tags != [] {
      NoneNamed(tags[1..], name);
      assert tags == [tags[0]] + tags[1..];
    }
  }

  lemma {:induction false} OneNamed(tags: seq<seq<string>>, name: string, value: string)
    ensures SoleTag(tags, name, value) <==> StandsOnce(tags, name, value)
  {
    if tags != [] {
      var rest := tags[1..];
      OneNamed(rest, name, value);
      if IsNamed(tags[0], name) {
        NoneNamed(rest, name);
        assert Named(tags, name) == [tags[0]] + Named(rest, name);
        if SoleTag(tags, name, value) {
          assert |Named(rest, name)| == 0 && Named(tags, name)[0] == tags[0];
        }
        OnceFirst(tags, name, value);
      } else {
        assert Named(tags, name) == Named(rest, name);
        OnceLater(tags, name, value);
      }
    }
  }

  lemma OnceFirst(tags: seq<seq<string>>, name: string, value: string)
    requires tags != [] && IsNamed(tags[0], name)
    ensures StandsOnce(tags, name, value) <==> tags[0] == [name, value] && NeverNamed(tags[1..], name)
  {
    assert forall j :: 0 <= j < |tags[1..]| ==> tags[1..][j] == tags[j + 1];
    if tags[0] == [name, value] && NeverNamed(tags[1..], name) {
      assert forall j :: 0 < j < |tags| ==> tags[j] == tags[1..][j - 1];
    }
  }

  lemma OnceLater(tags: seq<seq<string>>, name: string, value: string)
    requires tags != [] && !IsNamed(tags[0], name)
    ensures StandsOnce(tags, name, value) <==> StandsOnce(tags[1..], name, value)
  {
    var rest := tags[1..];
    assert forall j :: 0 <= j < |rest| ==> rest[j] == tags[j + 1];
    assert forall j :: 0 < j < |tags| ==> tags[j] == rest[j - 1];
    if StandsOnce(rest, name, value) {
      var i :| 0 <= i < |rest| && rest[i] == [name, value]
               && forall j :: 0 <= j < |rest| && j != i ==> !IsNamed(rest[j], name);
      assert tags[i + 1] == [name, value];
    }
    if StandsOnce(tags, name, value) {
      var i :| 0 <= i < |tags| && tags[i] == [name, value]
               && forall j :: 0 <= j < |tags| && j != i ==> !IsNamed(tags[j], name);
      assert rest[i - 1] == [name, value];
    }
  }

  /** Every tag of the scope has a value, each stands once and in one spelling, and so does the fixture marker. */
  ghost predicate GoodTags(d: Discussion) {
    var tags := d.event.tags;
    && StandsOnce(tags, "municipality", d.municipalityId) && StandsOnce(tags, "case", d.caseId)
    && NeverNamed(tags, "municipality_id") && NeverNamed(tags, "municipalityId")
    && NeverNamed(tags, "case_id") && NeverNamed(tags, "caseId")
    && StandsOnce(tags, "t", "stadtstack-e2e-fixture")
  }

  lemma TagsChecked(d: Discussion)
    ensures CheckTags(d) == Pass <==> GoodTags(d)
  {
    hide Named, StandsOnce, NeverNamed;
    var tags := d.event.tags;
    OneNamed(tags, "municipality", d.municipalityId);
    OneNamed(tags, "case", d.caseId);
    OneNamed(tags, "t", "stadtstack-e2e-fixture");
    NoneNamed(tags, "municipality_id");
    NoneNamed(tags, "municipalityId");
    NoneNamed(tags, "case_id");
    NoneNamed(tags, "caseId");
  }

  // Admission.

  /** A discussion of the scope by an allowed signer, which is what the adapter makes of its own signed event. */
  ghost predicate GoodIntake(env: Env, opt: Options, d: Discussion) {
    && GoodTags(d)
    && (opt.scope.Some? ==> opt.scope.value.municipalityId == d.municipalityId && opt.scope.value.caseId == d.caseId)
    && opt.allowedSignerPubkeys.Some? && d.event.pubkey in opt.allowedSignerPubkeys.value
    && env.adaptDiscussion(NostrEvent(d.event.id, d.event.pubkey, d.event.createdAt, d.event.kind, d.event.tags,
                                      d.event.content, d.signature))
       == Ok(d)
  }

  /**
   The lanes of adoptions close the public admissions, and a synthetic Case goes on with synthetic reviews at
   most.
   */
  predicate OpenLane(opt: Options, b: CommandBody) {
    && (opt.citizenAdoption ==>
          !b.IntakeDiscussion? && !b.AdmitSignedSuggestion? && !b.AdmitSignedTopicSuggestion?)
    && (opt.syntheticAdoption ==>
          || b.AdmitSyntheticAdoption?
          || (opt.syntheticDepartmentReview
              && (b.AssignDepartmentPackage? || b.RecordDepartmentDraft? || b.AttestDepartmentReview?
                  || b.DeriveCitizenBrief? || b.CorrectDepartmentDraft? || b.RetractDepartmentResponse?)))
  }

  predicate RegisteredActor(opt: Options, actor: ActorBinding) {
    actor.actorId in opt.actors && opt.actors[actor.actorId].actorClass == actor.actorClass
  }

  /**
   A heard command of this Case under its policy, by a registered actor, in an open lane, with what it brings
   verified.
   */
  ghost predicate Admitted(env: Env, opt: Options, c: Command) {
    && c.caseId == opt.caseId && c.policyVersion == opt.policyVersion && RegisteredActor(opt, c.actor)
    && OpenLane(opt, c.body)
    && match c.body
       case IntakeDiscussion(d) => GoodIntake(env, opt, d)
       case AdmitSignedTopicSuggestion(root, answer, topic) => env.verifyTopic(root, answer, topic).Ok?
       case AdmitCitizenAdoption(e) =>
         opt.citizenAdoption && c.actor.actorClass == CaseSteward && env.verifyAdoption(false, e).Ok?
       case AdmitSyntheticAdoption(e) =>
         opt.syntheticAdoption && c.actor.actorClass == CaseSteward && env.verifyAdoption(true, e).Ok?
       case _ => true
  }

  lemma IntakeVerified(env: Env, opt: Options, d: Discussion)
    requires NormalizeArtifact(env, d) == Ok(d)
    ensures VerifyDiscussion(env, opt, d).Ok? <==> GoodIntake(env, opt, d)
    ensures VerifyDiscussion(env, opt, d).Ok? ==> VerifyDiscussion(env, opt, d).value == d
  {
    hide NormalizeArtifact, CheckTags, GoodTags;
    TagsChecked(d);
  }

  /** A command is prepared exactly if all of it is good and it is admitted; it is then what was heard. */
  lemma PreparedExactly(env: Env, opt: Options, raw: Command)
    requires MarkersTrimmed(env)
    ensures Prepare(env, opt, raw).Ok? <==> GoodCommand(env, opt, raw) && Admitted(env, opt, Heard(raw))
    ensures Prepare(env, opt, raw).Ok? ==>
              && Prepare(env, opt, raw).value.cmd == Heard(raw)
              && VerifiedFor(env, Prepare(env, opt, raw).value)
  {
    hide NormalizeCommand, GoodCommand, Heard, VerifyDiscussion, GoodIntake;
    CommandHeard(env, opt, raw);
    if NormalizeCommand(env, opt, raw).Ok? {
      HeardIsFixed(env, opt, raw);
      if Heard(raw).body.IntakeDiscussion? {
        IntakeVerified(env, opt, Heard(raw).body.discussion);
      }
    }
  }

  lemma HeardIsFixed(env: Env, opt: Options, raw: Command)
    requires MarkersTrimmed(env) && NormalizeCommand(env, opt, raw).Ok?
    ensures BodyFixed(env, opt, Heard(raw).body)
  {
    hide NormalizeBody, BodyFixed, HeardBody;
    CommandHeard(env, opt, raw);
    NormalizedBodyFixed(env, opt, raw.body);
  }

  // Further demands.

  /** Actors who are registered as agent and as reviewer of the department. */
  predicate RegisteredFor(opt: Options, pkg: DepartmentPackage) {
    && pkg.assignedAgentActorId in opt.actors && pkg.assignedReviewerActorId in opt.actors
    && opt.actors[pkg.assignedAgentActorId] == ActorRegistration(DepartmentAgent, Some(pkg.departmentId))
    && opt.actors[pkg.assignedReviewerActorId] == ActorRegistration(DepartmentReviewer, Some(pkg.departmentId))
  }

  /**
   What `handle` demands and the replay does not: registered agents and reviewers, one department where
   none is required, no second brief while one is current.
   */
  ghost predicate Further(env: Env, opt: Options, before: seq<Event>, b: CommandBody) {
    match b
    case AssignDepartmentPackage(pkg) =>
      RegisteredFor(opt, pkg) && (opt.requiredDepartmentIds.None? ==> PackagesOf(env, before) == [])
    case DeriveCitizenBrief(_) => forall k :: !BriefStands(before, k)
    case _ => true
  }

  lemma CurrentStands(env: Env, opt: Options, before: seq<Event>)
    requires ValidOptions(opt) && Fold(env, opt, before).Ok?
    ensures BriefIsCurrent(opt, Fold(env, opt, before).value) <==> exists k :: BriefStands(before, k)
  {
    hide Fold, BriefIsCurrent, Stands;
    var st := Fold(env, opt, before).value;
    ReplayedOk(env, opt, before);
    ReplayedCurrency(env, opt, before);
    if BriefIsCurrent(opt, st) {
      CurrentPinned(opt, st);
      assert BriefStands(before, st.brief.value.eventId.version - 1);
    }
    if k: nat :| BriefStands(before, k) {
      assert k < |before| by { StandsWithin(before, k); }
    }
  }

  lemma StandsWithin(events: seq<Event>, k: nat)
    requires BriefStands(events, k)
    ensures k < |events|
  {
  }

  // What the replay believes, `handle` decides.

  /** A prepared command, the replayed state that it meets, and an event that records it. */
  ghost predicate Believable(env: Env, opt: Options, before: seq<Event>, p: Prepared, st: CaseState, h: Header,
                             pay: Payload) {
    && ValidOptions(opt) && Entitled(opt, p) && Inv(opt, st, |before|) && Remembered(env, opt, before, st)
    && h.actorBinding == p.cmd.actor && Says(env, opt, before, p.cmd, pay)
  }

  lemma CaseExists(env: Env, opt: Options, before: seq<Event>, p: Prepared, st: CaseState, h: Header, pay: Payload)
    requires Believable(env, opt, before, p, st, h, pay) && (st.departments != [] || st.discussion.Some?)
    ensures Existing(st) == Some(st)
  {
    hide BriefOk, ParticipationOk, OutcomeOk, DepartmentOk, Remembered, Says;
  }

  lemma SignedDecided(env: Env, opt: Options, before: seq<Event>, p: Prepared, st: CaseState, h: Header, pay: Payload)
    requires Believable(env, opt, before, p, st, h, pay)
    requires p.cmd.body.AdmitSignedSuggestion? && pay.SignedAdmitted? && StepSigned(env, opt, st, h, pay).Ok?
    ensures DecideSigned(opt, p, Existing(st)).Ok?
  {
    hide NormalizeSignedSuggestion, Inv, Remembered, Says, Existing;
    CaseExists(env, opt, before, p, st, h, pay);
    NoDepartmentsNoBrief(opt, st, |before|);
  }

  lemma DraftDecided(env: Env, opt: Options, before: seq<Event>, p: Prepared, st: CaseState, h: Header, pay: Payload)
    requires Believable(env, opt, before, p, st, h, pay)
    requires p.cmd.body.RecordDepartmentDraft? && pay.DraftRecorded? && StepDraft(env, opt, st, h, pay).Ok?
    ensures DecideDraft(opt, p, Existing(st)).Ok?
  {
    hide NormalizeDraft, Inv, Remembered, Existing, StateOf, BriefSays, LatestId;
    CaseExists(env, opt, before, p, st, h, pay);
  }

  lemma ReviewDecided(env: Env, opt: Options, before: seq<Event>, p: Prepared, st: CaseState, h: Header, pay: Payload)
    requires Believable(env, opt, before, p, st, h, pay)
    requires p.cmd.body.AttestDepartmentReview? && pay.ReviewAttested? && StepReview(env, opt, st, h, pay).Ok?
    requires NormalizeReview(env, p.cmd.body.review, opt.syntheticDepartmentReview) == Ok(p.cmd.body.review)
    ensures DecideReview(opt, p, Existing(st)).Ok?
  {
    hide NormalizeReview, Inv, Remembered, Existing, StateOf, BriefSays, LatestId;
    CaseExists(env, opt, before, p, st, h, pay);
  }

  lemma CorrectionDecided(env: Env, opt: Options, before: seq<Event>, p: Prepared, st: CaseState, h: Header,
                          pay: Payload)
    requires Believable(env, opt, before, p, st, h, pay)
    requires p.cmd.body.CorrectDepartmentDraft? && pay.DraftCorrected? && StepCorrect(env, opt, st, h, pay).Ok?
    ensures DecideCorrect(opt, p, Existing(st)).Ok?
  {
    hide NormalizeDraft, Inv, Remembered, Existing, StateOf, BriefSays, LatestId;
    CaseExists(env, opt, before, p, st, h, pay);
  }

  lemma RetractionDecided(env: Env, opt: Options, before: seq<Event>, p: Prepared, st: CaseState, h: Header,
                          pay: Payload)
    requires Believable(env, opt, before, p, st, h, pay)
    requires p.cmd.body.RetractDepartmentResponse? && pay.ResponseRetracted? && StepRetract(env, opt, st, h, pay).Ok?
    requires NormalizeRetraction(env, p.cmd.body.retraction) == Ok(p.cmd.body.retraction)
    ensures DecideRetract(opt, p, Existing(st)).Ok?
  {
    hide NormalizeRetraction, Inv, Remembered, Existing, StateOf, BriefSays, LatestId;
    CaseExists(env, opt, before, p, st, h, pay);
  }

  lemma ParticipationDecided(env: Env, opt: Options, before: seq<Event>, p: Prepared, st: CaseState, h: Header,
                             pay: Payload)
    requires Believable(env, opt, before, p, st, h, pay)
    requires p.cmd.body.RecordAdvisoryParticipation? && pay.ParticipationRecorded?
             && StepParticipation(env, opt, st, h, pay).Ok?
    requires NormalizeParticipation(env, p.cmd.body.participation) == Ok(p.cmd.body.participation)
    ensures DecideParticipation(opt, p, Existing(st)).Ok?
  {
    hide NormalizeParticipation, BriefIsCurrent, Inv, Remembered, Existing, StateOf, BriefSays, LatestId;
    CaseExists(env, opt, before, p, st, h, pay);
  }

  lemma WithdrawalDecided(env: Env, opt: Options, before: seq<Event>, p: Prepared, st: CaseState, h: Header,
                          pay: Payload)
    requires Believable(env, opt, before, p, st, h, pay)
    requires p.cmd.body.RetractAdvisoryParticipation? && pay.ParticipationRetracted?
             && StepParticipationRetracted(env, opt, st, h, pay).Ok?
    requires NormalizeParticipationReference(env, p.cmd.body.target, ParticipationRetractionInvalid)
          == Ok(p.cmd.body.target)
    ensures DecideRetractParticipation(opt, p, Existing(st)).Ok?
  {
    hide NormalizeParticipationReference, Inv, Remembered, Existing, StateOf, BriefSays, LatestId;
    ParticipationHasCase(env, opt, before, p, st, h, pay);
    CaseExists(env, opt, before, p, st, h, pay);
  }

  lemma OutcomeDecided(env: Env, opt: Options, before: seq<Event>, p: Prepared, st: CaseState, h: Header, pay: Payload)
    requires Believable(env, opt, before, p, st, h, pay)
    requires p.cmd.body.RecordReviewedOutcome? && pay.OutcomeRecorded? && StepOutcome(env, opt, st, h, pay).Ok?
    requires NormalizeOutcome(env, p.cmd.body.outcome) == Ok(p.cmd.body.outcome)
    ensures DecideOutcome(opt, p, Existing(st)).Ok?
  {
    hide NormalizeOutcome, BriefIsCurrent, Inv, Remembered, Existing, StateOf, BriefSays, LatestId;
    CaseExists(env, opt, before, p, st, h, pay);
  }

  lemma ParticipationHasCase(env: Env, opt: Options, before: seq<Event>, p: Prepared, st: CaseState, h: Header,
                             pay: Payload)
    requires Believable(env, opt, before, p, st, h, pay) && st.participation.Some?
    ensures st.discussion.Some?
  {
    hide Remembered, Says, Entitled, DepartmentOk, BriefIsCurrent, AllPinned;
  }

  lemma AssignmentDecided(env: Env, opt: Options, before: seq<Event>, p: Prepared, st: CaseState, h: Header,
                          pay: Payload)
    requires Believable(env, opt, before, p, st, h, pay)
    requires p.cmd.body.AssignDepartmentPackage? && pay.PackageAssigned?
             && StepAssign(env, opt, st, |before|, h, pay).Ok?
    requires NormalizePackage(env, p.cmd.body.departmentPackage) == Ok(p.cmd.body.departmentPackage)
    requires RegisteredFor(opt, p.cmd.body.departmentPackage)
    requires opt.requiredDepartmentIds.None? ==> st.departments == []
    ensures DecideAssign(opt, p, Existing(st)).Ok?
  {
    hide NormalizePackage, Inv, Remembered, Existing, HasPackage;
    CaseExists(env, opt, before, p, st, h, pay);
    if opt.requiredDepartmentIds.Some? {
      RoomForOne(opt, st, |before|, p.cmd.body.departmentPackage);
    }
  }

  /** While a required department has no package there are fewer packages than required departments. */
  lemma RoomForOne(opt: Options, st: CaseState, n: nat, pkg: DepartmentPackage)
    requires Inv(opt, st, n) && opt.requiredDepartmentIds.Some? && pkg.departmentId in opt.requiredDepartmentIds.value
    requires !HasDepartment(st.departments, pkg.departmentId)
    ensures |st.departments| < |opt.requiredDepartmentIds.value|
  {
    hide BriefOk, ParticipationOk, OutcomeOk, DepartmentOk;
    var ids := DepartmentIds(st.departments);
    Pigeonhole(ids + [pkg.departmentId], opt.requiredDepartmentIds.value);
  }

  lemma BriefDecided(env: Env, opt: Options, before: seq<Event>, p: Prepared, st: CaseState, h: Header, pay: Payload)
    requires Believable(env, opt, before, p, st, h, pay)
    requires p.cmd.body.DeriveCitizenBrief? && pay.BriefDerived? && StepBrief(opt, st, h, pay).Ok?
    requires !BriefIsCurrent(opt, st)
    requires DistinctBindings(p.cmd.body.brief.sourceBindings)
    ensures DecideBrief(opt, p, Existing(st)).Ok?
  {
    hide BriefIsCurrent, Inv, Remembered, Existing, ValidateAndDerive, SourceEventIds, BindsAllReady, BriefSays,
      StateOf;
    CaseExists(env, opt, before, p, st, h, pay);
    var d, s, ds, b := st.discussion.value, st.suggestion.value, st.departments, p.cmd.body.brief;
    DerivesExactly(opt, d, s, ds, pay.brief.body.id, pay.sourceBindings);
    BindingsInAnyOrder(opt, ds, pay.sourceBindings, b.sourceBindings);
    DerivesExactly(opt, d, s, ds, b.id, b.sourceBindings);
  }

  lemma BindingsInAnyOrder(opt: Options, ds: seq<Department>, bs: seq<SourceBinding>, cs: seq<SourceBinding>)
    requires opt.requiredDepartmentIds.Some? && BindsAllReady(opt.requiredDepartmentIds.value, bs, ds)
    requires multiset(bs) == multiset(cs) && DistinctBindings(cs)
    ensures BindsAllReady(opt.requiredDepartmentIds.value, cs, ds)
  {
    assert |multiset(bs)| == |multiset(cs)|;
    var required := opt.requiredDepartmentIds.value;
    forall k | 0 <= k < |required|
      ensures ReadyFor(ds, required[k]) && BindingOf(DepartmentFor(ds, required[k])) in cs
    {
      assert BindingOf(DepartmentFor(ds, required[k])) in multiset(bs);
    }
  }

  /** `handle` decides a command that does not create the Case if an event that records it is believed. */
  lemma BelievedDecided(env: Env, opt: Options, before: seq<Event>, p: Prepared, st: CaseState, e: Event)
    requires ValidOptions(opt) && Settled(env, opt, p) && !CreatesCase(p.cmd.body) && Fold(env, opt, before) == Ok(st)
    requires Records(env, opt, before, p.cmd, e) && Fold(env, opt, before + [e]).Ok?
    requires Further(env, opt, before, p.cmd.body)
    requires p.cmd.body.DeriveCitizenBrief? ==> DistinctBindings(p.cmd.body.brief.sourceBindings)
    ensures Decide(opt, p, Existing(st), |before|).Ok?
  {
    hide Settled, Entitled, Inv, Remembered, Fold, Step, CheckHeader, StateOf, BriefSays, LatestId, Existing, Chained,
      CorrectedEvent, StepAssign, StepBrief, StepDraft, StepCorrect, StepReview, StepOutcome, StepParticipation,
      StepParticipationRetracted, StepRetract, StepSigned, StepCreated, StepDiscussion, StepTopic, StepAdoption,
      DecideIntake, DecideTopic, DecideAdoption, DecideSigned, DecideAssign, DecideDraft, DecideReview,
      DecideParticipation, DecideOutcome, DecideBrief, DecideCorrect, DecideRetractParticipation, DecideRetract,
      NormalizePackage, NormalizeDraft, NormalizeReview, NormalizeRetraction, NormalizeParticipation,
      NormalizeParticipationReference, NormalizeOutcome, BriefStands, Stands, PackagesOf, Believable, Says,
      DistinctBindings, Further, RegisteredFor, BriefIsCurrent;
    SettledLane(env, opt, p);
    ReplayRemembers(env, opt, before);
    ReplayedOk(env, opt, before);
    StepOfEvent(env, opt, before, st, e);
    SaysPayload(env, opt, before, p.cmd, e.payload);
    BelievableOf(env, opt, before, p, st, e);
    var h, pay := e.header, e.payload;
    match p.cmd.body
    case AdmitSignedSuggestion(_) => SignedDecided(env, opt, before, p, st, h, pay);
    case AssignDepartmentPackage(_) => AssignedFurther(env, opt, before, p, st); AssignmentDecided(env, opt, before, p,
                                                                                                   st, h, pay);
    case RecordDepartmentDraft(_, _, _) => DraftDecided(env, opt, before, p, st, h, pay);
    case AttestDepartmentReview(_) => ReviewDecided(env, opt, before, p, st, h, pay);
    case DeriveCitizenBrief(_) => BriefFurther(env, opt, before, p, st); BriefDecided(env, opt, before, p, st, h, pay);
    case CorrectDepartmentDraft(_, _, _, _) => CorrectionDecided(env, opt, before, p, st, h, pay);
    case RetractDepartmentResponse(_) => RetractionDecided(env, opt, before, p, st, h, pay);
    case RecordAdvisoryParticipation(_, _) => ParticipationDecided(env, opt, before, p, st, h, pay);
    case RetractAdvisoryParticipation(_) => WithdrawalDecided(env, opt, before, p, st, h, pay);
    case RecordReviewedOutcome(_) => OutcomeDecided(env, opt, before, p, st, h, pay);
  }

  lemma BelievableOf(env: Env, opt: Options, before: seq<Event>, p: Prepared, st: CaseState, e: Event)
    requires ValidOptions(opt) && Entitled(opt, p) && Inv(opt, st, |before|) && Remembered(env, opt, before, st)
    requires Records(env, opt, before, p.cmd, e)
    ensures Believable(env, opt, before, p, st, e.header, e.payload)
  {
    hide Entitled, Inv, Remembered, Says;
  }

  lemma StepOfEvent(env: Env, opt: Options, before: seq<Event>, st: CaseState, e: Event)
    requires Fold(env, opt, before) == Ok(st) && Fold(env, opt, before + [e]).Ok?
    ensures StepPayload(env, opt, st, |before|, e.header, e.payload).Ok?
  {
    hide StepPayload, CheckHeader, Fold;
    FoldAppend(env, opt, before, e);
  }

  lemma SaysPayload(env: Env, opt: Options, before: seq<Event>, cmd: Command, p: Payload)
    requires Says(env, opt, before, cmd, p) && !CreatesCase(cmd.body)
    ensures Fits(EventTypeFor(opt, cmd.body), p)
  {
    hide BriefSays, StateOf, LatestId;
  }

  lemma AssignedFurther(env: Env, opt: Options, before: seq<Event>, p: Prepared, st: CaseState)
    requires p.cmd.body.AssignDepartmentPackage? && Further(env, opt, before, p.cmd.body)
             && Remembered(env, opt, before, st)
    ensures RegisteredFor(opt, p.cmd.body.departmentPackage)
    ensures opt.requiredDepartmentIds.None? ==> st.departments == []
  {
    hide DiscussionOf, AdmissionOf, SuggestionOf, BriefOf, ParticipationOf, OutcomeIn, PackagesOf, WorkIsAssigned;
  }

  lemma BriefFurther(env: Env, opt: Options, before: seq<Event>, p: Prepared, st: CaseState)
    requires ValidOptions(opt) && Fold(env, opt, before) == Ok(st)
    requires p.cmd.body.DeriveCitizenBrief? && Further(env, opt, before, p.cmd.body)
    ensures !BriefIsCurrent(opt, st)
  {
    hide Fold, BriefIsCurrent, BriefStands;
    CurrentStands(env, opt, before);
  }

  // Whole calls.

  /** The command that is heard; a signed suggestion is heard as well. */
  function HeardIn(raw: Command): Command {
    var c := Heard(raw);
    if c.body.AdmitSignedSuggestion? then c.(body := AdmitSignedSuggestion(HeardSigned(c.body.signedSuggestion))) else c
  }

  /** A good and admitted command; a signed suggestion needs a discussion that it is about. */
  ghost predicate Considerable(env: Env, opt: Options, before: seq<Event>, raw: Command) {
    && GoodCommand(env, opt, raw) && Admitted(env, opt, Heard(raw))
    && (raw.body.AdmitSignedSuggestion? ==>
          && DiscussionOf(env, before).Some? && SuggestionOf(env, opt, before).Some?
          && GoodSigned(env, opt, DiscussionOf(env, before).value, raw.body.signedSuggestion))
  }

  lemma ConsideredExactly(env: Env, opt: Options, j: Journal, raw: Command)
    requires MarkersTrimmed(env) && ValidOptions(opt) && Replays(env, opt, j)
    ensures Considered(env, opt, j, raw).Ok? <==> Considerable(env, opt, j.events, raw)
    ensures Considered(env, opt, j, raw).Ok? ==> Considered(env, opt, j, raw).value.0.cmd == HeardIn(raw)
  {
    hide Prepare, Replay, Fold, NormalizeSignedSuggestion, GoodCommand, Admitted, GoodSigned, HeardSigned, Remembered,
      DiscussionOf, SuggestionOf, HeardBody;
    PreparedExactly(env, opt, raw);
    ReplayedHead(env, opt, j);
    ReplayRemembers(env, opt, j.events);
    var st := Fold(env, opt, j.events).value;
    StateRemembered(env, opt, j.events, st);
    SignedStaysRaw(raw);
    if raw.body.AdmitSignedSuggestion? && st.discussion.Some? {
      SignedHeard(env, opt, st.discussion.value, raw.body.signedSuggestion);
    }
  }

  lemma SignedStaysRaw(raw: Command)
    ensures Heard(raw).body.AdmitSignedSuggestion? <==> raw.body.AdmitSignedSuggestion?
    ensures raw.body.AdmitSignedSuggestion? ==> Heard(raw).body == raw.body
  {
  }

  /** What is demanded of the creation of a Case. */
  ghost predicate Creates(env: Env, opt: Options, c: Command) {
    match c.body
    case IntakeDiscussion(_) => c.actor.actorClass == Citizen
    case AdmitSignedTopicSuggestion(root, answer, topic) =>
      var v := env.verifyTopic(root, answer, topic);
      && c.actor.actorClass == CaseSteward && v.Ok?
      && v.value.caseId == opt.caseId && v.value.municipalityId == opt.jurisdiction && opt.scope.None?
      && opt.allowedSignerPubkeys.Some? && v.value.signedSuggestion.signerPubkey in opt.allowedSignerPubkeys.value
    case AdmitCitizenAdoption(e) => AdoptionCreates(opt, c, env.verifyAdoption(false, e))
    case AdmitSyntheticAdoption(e) => AdoptionCreates(opt, c, env.verifyAdoption(true, e))
    case _ => false
  }

  ghost predicate AdoptionCreates(opt: Options, c: Command, v: Result<AdoptionAdmission>) {
    && v.Ok? && v.value.caseId == opt.caseId && v.value.municipalityId == opt.jurisdiction
    && c.idempotencyKey == v.value.idempotencyKey
  }

  /** The command can be recorded after these events. */
  ghost predicate Acceptable(env: Env, opt: Options, before: seq<Event>, c: Command) {
    if CreatesCase(c.body) then before == [] && Creates(env, opt, c)
    else Further(env, opt, before, c.body) && exists e :: Records(env, opt, before, c, e)
                                                          && Fold(env, opt, before + [e]).Ok?
  }

  lemma CreationDecided(env: Env, opt: Options, p: Prepared, existing: Option<CaseState>, count: nat)
    requires Settled(env, opt, p) && VerifiedFor(env, p) && CreatesCase(p.cmd.body) && (count == 0 ==> existing.None?)
    ensures Decide(opt, p, existing, count).Ok? <==> count == 0 && Creates(env, opt, p.cmd)
  {
    hide BodyFixed;
  }

  lemma SortedDistinct(bs: seq<SourceBinding>)
    requires DistinctBindings(bs)
    ensures DistinctBindings(S.Sort(BindingKey, bs))
  {
    O.DistinctBindingsKeys(bs);
    S.SortPermutes(BindingKey, bs);
    O.KeysPermuted(BindingKey, bs, S.Sort(BindingKey, bs));
    O.DistinctBindingsKeys(S.Sort(BindingKey, bs));
  }

  lemma HeardBriefDistinct(env: Env, opt: Options, raw: Command)
    requires GoodCommand(env, opt, raw) && raw.body.DeriveCitizenBrief?
    ensures HeardIn(raw).body.DeriveCitizenBrief? && DistinctBindings(HeardIn(raw).body.brief.sourceBindings)
  {
    hide GoodText, GoodDepartmentText, DistinctBindings, S.Sort;
    SortedDistinct(HeardBindings(raw.body.brief.sourceBindings));
  }

  lemma SoundMarkers(env: Env)
    requires Sound(env)
    ensures MarkersTrimmed(env)
  {
  }

  lemma DecidedExactly(env: Env, opt: Options, j: Journal, raw: Command, p: Prepared, st: CaseState)
    requires Sound(env) && ValidOptions(opt) && Replays(env, opt, j) && Fold(env, opt, j.events) == Ok(st)
    requires Considered(env, opt, j, raw) == Ok((p, Existing(st))) && Settled(env, opt, p) && Admits(env, opt, p, st)
    ensures Decide(opt, p, Existing(st), |j.events|).Ok? <==> Acceptable(env, opt, j.events, p.cmd)
  {
    hide Considered, Decide, Settled, Admits, Existing, Fold, Records, Further, Creates, Replay, Inv, Sound;
    ConsideredVerified(env, opt, j, raw);
    SoundMarkers(env);
    ConsideredExactly(env, opt, j, raw);
    ReplayedOk(env, opt, j.events);
    if CreatesCase(p.cmd.body) {
      NothingExists(env, opt, j.events);
      CreationDecided(env, opt, p, Existing(st), |j.events|);
    } else {
      if p.cmd.body.DeriveCitizenBrief? {
        assert raw.body.DeriveCitizenBrief?;
        HeardBriefDistinct(env, opt, raw);
      }
      if e :| Acceptable(env, opt, j.events, p.cmd) && Records(env, opt, j.events, p.cmd, e)
              && Fold(env, opt, j.events + [e]).Ok? {
        BelievedDecided(env, opt, j.events, p, st, e);
      }
      if Decide(opt, p, Existing(st), |j.events|).Ok? {
        DecidedAcceptable(env, opt, j.events, p, st);
      }
    }
  }

  lemma NothingExists(env: Env, opt: Options, events: seq<Event>)
    requires Fold(env, opt, events).Ok?
    ensures events == [] ==> Existing(Fold(env, opt, events).value).None?
  {
  }

  /** A decided command that does not create the Case is acceptable. */
  lemma DecidedAcceptable(env: Env, opt: Options, before: seq<Event>, p: Prepared, st: CaseState)
    requires ValidOptions(opt) && Settled(env, opt, p) && Admits(env, opt, p, st) && VerifiedFor(env, p)
    requires Fold(env, opt, before) == Ok(st) && !CreatesCase(p.cmd.body)
    requires Decide(opt, p, Existing(st), |before|).Ok?
    ensures Acceptable(env, opt, before, p.cmd)
  {
    hide Decide, Settled, Admits, Existing, Fold, Records, Further, Appended, VerifiedFor, Remembered, HeadOf;
    var parts := Decide(opt, p, Existing(st), |before|).value;
    ReplayRemembers(env, opt, before);
    RememberedState(env, opt, before, st);
    DecidedAppends(env, opt, before, p, st, parts);
    SingleExtends(env, opt, p, before, st, parts);
    DecidedFurther(env, opt, before, p, st);
    var added := Appended(opt, |before|, st.prior, p.cmd.actor, parts);
    assert added == [added[0]];
    assert Records(env, opt, before, p.cmd, added[0]);
  }

  lemma DecidedFurther(env: Env, opt: Options, before: seq<Event>, p: Prepared, st: CaseState)
    requires ValidOptions(opt) && Fold(env, opt, before) == Ok(st) && Remembered(env, opt, before, st)
    requires Decide(opt, p, Existing(st), |before|).Ok? && !CreatesCase(p.cmd.body)
    ensures Further(env, opt, before, p.cmd.body)
  {
    hide Fold, BriefIsCurrent, BriefStands, Remembered, HasPackage, HasDepartment, DecideSigned, DecideDraft,
      DecideReview, DecideParticipation, DecideOutcome, DecideCorrect, DecideRetractParticipation, DecideRetract,
      PackagesOf, ValidateAndDerive;
    if p.cmd.body.DeriveCitizenBrief? {
      CurrentStands(env, opt, before);
    }
    if p.cmd.body.AssignDepartmentPackage? {
      NoPackages(env, opt, before, st);
    }
  }

  lemma NoPackages(env: Env, opt: Options, before: seq<Event>, st: CaseState)
    requires Remembered(env, opt, before, st)
    ensures st.departments == [] <==> PackagesOf(env, before) == []
  {
    hide DiscussionOf, AdmissionOf, SuggestionOf, BriefOf, ParticipationOf, OutcomeIn, PackagesOf, WorkIsAssigned;
  }

  /**
   A call from a journal that replays changes something exactly if the command is good and admitted, its key
   is new, it expects the version of the journal, and it can be recorded. Otherwise nothing changes: a key
   that is known gets its receipt or a conflict, and a wrong version is named as such.
   */
  lemma AcceptedExactly(env: Env, opt: Options, j: Journal, raw: Command)
    requires Sound(env) && ValidOptions(opt) && Replays(env, opt, j)
    ensures Handle(env, opt, j, raw).0 != j <==>
            && Considerable(env, opt, j.events, raw)
            && var c := HeardIn(raw);
            c.idempotencyKey !in j.idempotency && c.expectedCaseVersion == |j.events|
            && Acceptable(env, opt, j.events, c)
    ensures Considerable(env, opt, j.events, raw) ==>
              && var c := HeardIn(raw);
              && (c.idempotencyKey in j.idempotency ==>
                    var r := Handle(env, opt, j, raw).1;
                    r == Ok(j.idempotency[c.idempotencyKey].receipt) || r == Err(IdempotencyConflict))
              && (c.idempotencyKey !in j.idempotency && c.expectedCaseVersion != |j.events| ==>
                    Handle(env, opt, j, raw).1 == Err(CaseVersionConflict))
    ensures Handle(env, opt, j, raw).1.Err? ==> Handle(env, opt, j, raw).0 == j
  {
    hide Considered, Decide, Settled, Admits, Existing, Fold, Acceptable, Replay, Sound, Considerable, Appended,
      Fingerprint;
    SoundMarkers(env);
    ConsideredExactly(env, opt, j, raw);
    ReplayedHead(env, opt, j);
    if Considered(env, opt, j, raw).Ok? {
      var p, st := ConsideredSettled(env, opt, j, raw);
      DecidedExactly(env, opt, j, raw, p, st);
      if Decide(opt, p, Existing(st), |j.events|).Ok? {
        DecidedParts(opt, p, Existing(st), |j.events|);
      }
    }
  }
}
