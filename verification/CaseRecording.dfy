/**
 What the coordinator records. An event says what its command said, and nothing else; `handle` refuses
 a command exactly if the replay would believe no such event, or for one of a few further reasons.
 */
module CaseRecording {
  import opened Results
  import opened CaseTypes
  import opened CaseNormalize
  import opened CaseBriefs
  import opened CaseReplay
  import opened CaseInvariants
  import opened CaseBriefFacts
  import opened CaseReachable
  import opened CaseCurrency
  import opened CaseHandle
  import opened CaseAgreement
  import opened CaseRuns
  import opened CaseBriefText
  import opened CaseRecords

  /** The payload holds what the command of the actor said; `before` is the journal that the command met. */
  ghost predicate Says(env: Env, opt: Options, before: seq<Event>, cmd: Command, p: Payload) {
    var actor, policy := cmd.actor, cmd.policyVersion;
    match cmd.body
    case AdmitSignedSuggestion(s) => p == SignedAdmitted(s, OfSignedAdmission(s, policy, actor), policy)
    case AssignDepartmentPackage(pkg) => p == PackageAssigned(pkg, OfPackage(pkg))
    case RecordDepartmentDraft(id, sum, draft) => p == DraftRecorded(id, sum, draft, OfDraft(draft))
    case AttestDepartmentReview(r) => p == ReviewAttested(r, policy, OfAttestation(r, policy, actor))
    case CorrectDepartmentDraft(id, sum, prior, draft) => p == DraftCorrected(id, sum, prior, draft, OfDraft(draft))
    case RetractDepartmentResponse(r) => p == ResponseRetracted(r)
    case RetractAdvisoryParticipation(target) => p == ParticipationRetracted(target)
    case RecordReviewedOutcome(o) => p == OutcomeRecorded(ReviewedOutcome(o, OfOutcome(o)), policy)
    case RecordAdvisoryParticipation(participation, brief) =>
      var source := ParticipationSource(brief, LatestId(before, Briefs));
      p == ParticipationRecorded(participation, source, policy, actor,
                                 OfParticipationAttestation(participation.checksum, source, policy, actor,
                                                            participation.body.reviewedAt))
    case DeriveCitizenBrief(b) =>
      && p.BriefDerived? && p.policyVersion == policy && p.briefChecksum == p.brief.briefChecksum
      && p.sourceBindings == Unbound(p.brief.body.packageBindings)
      && multiset(p.sourceBindings) == multiset(b.sourceBindings)
      && var st := StateOf(env, opt, before);
      && st.discussion.Some? && st.suggestion.Some?
      && BriefSays(opt, st.discussion.value, st.suggestion.value, st.departments, b.id, p.brief)
    case AdmitSignedTopicSuggestion(root, answer, topic) =>
      var v := env.verifyTopic(root, answer, topic);
      v.Ok? && p == TopicAdmitted(v.value.signedSuggestion, v.value.sourceAnswer,
                                  OfTopicAdmission(v.value.signedSuggestion, v.value.sourceAnswer, opt.caseId,
                                                   policy, actor),
                                  policy)
    case AdmitCitizenAdoption(e) =>
      var v := env.verifyAdoption(false, e);
      v.Ok? && p == AdoptionAdmitted(v.value.evidence, OfAdoptionAdmission(v.value.evidence, opt.caseId, policy, actor),
                                     policy)
    case AdmitSyntheticAdoption(e) =>
      var v := env.verifyAdoption(true, e);
      v.Ok? && p == AdoptionAdmitted(v.value.evidence, OfAdoptionAdmission(v.value.evidence, opt.caseId, policy, actor),
                                     policy)
    case IntakeDiscussion(d) => p == DiscussionRecorded(d, SuggestionIn(d))
  }

  /** The suggestion that every discussion brings with it. */
  function SuggestionIn(d: Discussion): Suggestion {
    Suggestion("urn:stadtstack:suggestion:" + d.event.id, d.id, d.event.content)
  }

  /** The event that a command replaces or withdraws. */
  function CorrectedEvent(before: seq<Event>, b: CommandBody): Option<EventId> {
    match b
    case CorrectDepartmentDraft(id, _, _, _) => Some(LatestId(before, DraftWork(id)))
    case RetractDepartmentResponse(r) => Some(LatestId(before, AnyWork(r.packageId)))
    case RetractAdvisoryParticipation(_) => Some(LatestId(before, Participations))
    case _ => None
  }

  /** Event number `|before| + 1` of the chain, by this actor. */
  predicate Chained(opt: Options, before: seq<Event>, actor: ActorBinding, e: Event) {
    var n := |before| + 1;
    && e.eventChecksum == OfEvent(e.header)
    && e.header == Header(EventId(opt.caseId, n), opt.caseId, n, e.header.eventType, HeadOf(opt, before), actor,
                          OfPayload(e.payload), e.header.correctionOf)
  }

  /** The event records the command. */
  ghost predicate Records(env: Env, opt: Options, before: seq<Event>, cmd: Command, e: Event) {
    && Chained(opt, before, cmd.actor, e) && Fits(e.header.eventType, e.payload)
    && Says(env, opt, before, cmd, e.payload) && e.header.correctionOf == CorrectedEvent(before, cmd.body)
    && (cmd.body.AdmitCitizenAdoption? ==> e.header.eventType == CitizenAdoptionAdmittedV1)
    && (cmd.body.AdmitSyntheticAdoption? ==> e.header.eventType == SyntheticAdoptionAdmittedV1)
  }

  /** The discussion that a creating command brings. */
  function Founding(env: Env, b: CommandBody): Option<Discussion> {
    match b
    case IntakeDiscussion(d) => Some(d)
    case AdmitSignedTopicSuggestion(root, answer, topic) =>
      var v := env.verifyTopic(root, answer, topic); if v.Ok? then Some(v.value.discussion) else None
    case AdmitCitizenAdoption(e) =>
      var v := env.verifyAdoption(false, e); if v.Ok? then Some(v.value.discussion) else None
    case AdmitSyntheticAdoption(e) =>
      var v := env.verifyAdoption(true, e); if v.Ok? then Some(v.value.discussion) else None
    case _ => None
  }

  /** The first two events of a Case: its creation, and the discussion with its suggestion. */
  ghost predicate Founds(env: Env, opt: Options, cmd: Command, es: seq<Event>) {
    && |es| >= 2 && Founding(env, cmd.body).Some?
    && Chained(opt, [], cmd.actor, es[0]) && es[0].header.eventType == CaseCreatedV1
    && es[0].payload == CaseCreated(opt.caseId, opt.jurisdiction) && es[0].header.correctionOf.None?
    && Chained(opt, es[..1], cmd.actor, es[1]) && es[1].header.eventType == DiscussionRecordedV1
    && es[1].header.correctionOf.None?
    && var d := Founding(env, cmd.body).value; es[1].payload == DiscussionRecorded(d, SuggestionIn(d))
  }

  /** What is appended to `before` by an accepted command. */
  ghost predicate Appends(env: Env, opt: Options, before: seq<Event>, cmd: Command, added: seq<Event>) {
    if CreatesCase(cmd.body) then
      && before == [] && Founds(env, opt, cmd, added)
      && |added| == (if cmd.body.IntakeDiscussion? then 2 else 3)
      && Records(env, opt, added[..|added| - 1], cmd, added[|added| - 1])
    else |added| == 1 && Records(env, opt, before, cmd, added[0])
  }

  // The events of accepted commands.

  /** The event ids that a command corrects are those that are remembered. */
  lemma RememberedIds(env: Env, opt: Options, before: seq<Event>, st: CaseState, packageId: string)
    requires Remembered(env, opt, before, st)
    ensures var d := Lookup(Some(st), packageId);
            && (d.Some? && d.value.draft.Some?
                ==> d.value.draft.value.eventId == LatestId(before, DraftWork(packageId)))
            && (d.Some? && d.value.review.Some?
                ==> d.value.review.value.eventId == LatestId(before, AnyWork(packageId)))
    ensures st.brief.Some? ==> st.brief.value.eventId == LatestId(before, Briefs)
    ensures st.participation.Some? ==> st.participation.value.eventId == LatestId(before, Participations)
  {
    hide DiscussionOf, AdmissionOf, SuggestionOf, DepartmentsOf, PinsOf, DraftOf, ReviewOf, CorrectionOf,
      WorkIsAssigned, NormalizeParticipation;
    var i := FindPackage(st.departments, packageId);
    if i < |st.departments| {
      DepartmentRemembered(env, opt, before, st, i);
      RecordIds(env, opt, before, packageId);
    }
  }

  lemma DecidedBriefSays(env: Env, opt: Options, before: seq<Event>, p: Prepared, st: CaseState, part: Part)
    requires ValidOptions(opt) && Entitled(opt, p) && Unique(st.departments) && st == StateOf(env, opt, before)
    requires p.cmd.body.DeriveCitizenBrief? && DecideBrief(opt, p, Existing(st)) == Ok([part])
    ensures Says(env, opt, before, p.cmd, part.payload) && part.correctionOf == CorrectedEvent(before, p.cmd.body)
  {
    hide BriefIsCurrent, ValidateAndDerive, BriefSays, StateOf;
    DerivedSays(opt, st.discussion.value, st.suggestion.value, st.departments, p.cmd.body.brief.id,
                p.cmd.body.brief.sourceBindings);
    assert part.payload.briefChecksum == part.payload.brief.briefChecksum;
  }

  lemma SignedSays(env: Env, opt: Options, before: seq<Event>, p: Prepared, st: CaseState, part: Part)
    requires Entitled(opt, p) && Remembered(env, opt, before, st)
    requires p.cmd.body.AdmitSignedSuggestion? && DecideSigned(opt, p, Existing(st)) == Ok([part])
    ensures Says(env, opt, before, p.cmd, part.payload) && part.correctionOf == CorrectedEvent(before, p.cmd.body)
  {
    hide Remembered, StateOf, LatestId;
  }

  lemma AssignmentSays(env: Env, opt: Options, before: seq<Event>, p: Prepared, st: CaseState, part: Part)
    requires Entitled(opt, p) && Remembered(env, opt, before, st)
    requires p.cmd.body.AssignDepartmentPackage? && DecideAssign(opt, p, Existing(st)) == Ok([part])
    ensures Says(env, opt, before, p.cmd, part.payload) && part.correctionOf == CorrectedEvent(before, p.cmd.body)
  {
    hide Remembered, StateOf, LatestId, HasPackage, HasDepartment;
  }

  lemma DraftSays(env: Env, opt: Options, before: seq<Event>, p: Prepared, st: CaseState, part: Part)
    requires Entitled(opt, p) && Remembered(env, opt, before, st)
    requires p.cmd.body.RecordDepartmentDraft? && DecideDraft(opt, p, Existing(st)) == Ok([part])
    ensures Says(env, opt, before, p.cmd, part.payload) && part.correctionOf == CorrectedEvent(before, p.cmd.body)
  {
    hide Remembered, StateOf, LatestId, Lookup;
  }

  lemma ReviewSays(env: Env, opt: Options, before: seq<Event>, p: Prepared, st: CaseState, part: Part)
    requires Entitled(opt, p) && Remembered(env, opt, before, st)
    requires p.cmd.body.AttestDepartmentReview? && DecideReview(opt, p, Existing(st)) == Ok([part])
    ensures Says(env, opt, before, p.cmd, part.payload) && part.correctionOf == CorrectedEvent(before, p.cmd.body)
  {
    hide Remembered, StateOf, LatestId, Lookup;
  }

  lemma CorrectionSays(env: Env, opt: Options, before: seq<Event>, p: Prepared, st: CaseState, part: Part)
    requires Entitled(opt, p) && Remembered(env, opt, before, st)
    requires p.cmd.body.CorrectDepartmentDraft? && DecideCorrect(opt, p, Existing(st)) == Ok([part])
    ensures Says(env, opt, before, p.cmd, part.payload) && part.correctionOf == CorrectedEvent(before, p.cmd.body)
  {
    hide Remembered, StateOf, LatestId, Lookup;
    RememberedIds(env, opt, before, st, p.cmd.body.packageId);
  }

  lemma RetractionSays(env: Env, opt: Options, before: seq<Event>, p: Prepared, st: CaseState, part: Part)
    requires Entitled(opt, p) && Remembered(env, opt, before, st)
    requires p.cmd.body.RetractDepartmentResponse? && DecideRetract(opt, p, Existing(st)) == Ok([part])
    ensures Says(env, opt, before, p.cmd, part.payload) && part.correctionOf == CorrectedEvent(before, p.cmd.body)
  {
    hide Remembered, StateOf, LatestId, Lookup;
    RememberedIds(env, opt, before, st, p.cmd.body.retraction.packageId);
  }

  lemma ParticipationSays(env: Env, opt: Options, before: seq<Event>, p: Prepared, st: CaseState, part: Part)
    requires Entitled(opt, p) && Remembered(env, opt, before, st)
    requires p.cmd.body.RecordAdvisoryParticipation? && DecideParticipation(opt, p, Existing(st)) == Ok([part])
    ensures Says(env, opt, before, p.cmd, part.payload) && part.correctionOf == CorrectedEvent(before, p.cmd.body)
  {
    hide Remembered, StateOf, LatestId, BriefIsCurrent;
    RememberedIds(env, opt, before, st, "");
  }

  lemma WithdrawalSays(env: Env, opt: Options, before: seq<Event>, p: Prepared, st: CaseState, part: Part)
    requires Entitled(opt, p) && Remembered(env, opt, before, st)
    requires p.cmd.body.RetractAdvisoryParticipation? && DecideRetractParticipation(opt, p, Existing(st)) == Ok([part])
    ensures Says(env, opt, before, p.cmd, part.payload) && part.correctionOf == CorrectedEvent(before, p.cmd.body)
  {
    hide Remembered, StateOf, LatestId;
    RememberedIds(env, opt, before, st, "");
  }

  lemma OutcomeSays(env: Env, opt: Options, before: seq<Event>, p: Prepared, st: CaseState, part: Part)
    requires Entitled(opt, p) && Remembered(env, opt, before, st)
    requires p.cmd.body.RecordReviewedOutcome? && DecideOutcome(opt, p, Existing(st)) == Ok([part])
    ensures Says(env, opt, before, p.cmd, part.payload) && part.correctionOf == CorrectedEvent(before, p.cmd.body)
  {
    hide Remembered, StateOf, LatestId, BriefIsCurrent, ParticipationIsCurrent, OutcomeSourcesMatch;
  }

  /** One event, which says what the command said. */
  lemma DecidedSays(env: Env, opt: Options, before: seq<Event>, p: Prepared, st: CaseState, parts: seq<Part>)
    requires ValidOptions(opt) && Settled(env, opt, p) && Remembered(env, opt, before, st) && Unique(st.departments)
    requires Decide(opt, p, Existing(st), |before|) == Ok(parts) && !CreatesCase(p.cmd.body)
    ensures |parts| == 1 && Fits(parts[0].eventType, parts[0].payload)
    ensures Says(env, opt, before, p.cmd, parts[0].payload)
            && parts[0].correctionOf == CorrectedEvent(before, p.cmd.body)
  {
    hide Settled, Entitled, Remembered, StateOf, LatestId, Existing, Says, CorrectedEvent, DecideIntake, DecideTopic,
      DecideAdoption, DecideSigned, DecideAssign, DecideDraft, DecideReview, DecideParticipation, DecideOutcome,
      DecideBrief, DecideCorrect, DecideRetractParticipation, DecideRetract;
    SettledLane(env, opt, p);
    SingleShape(env, opt, p, Existing(st), |before|);
    var part := parts[0];
    assert parts == [part];
    match p.cmd.body
    case AdmitSignedSuggestion(_) => SignedSays(env, opt, before, p, st, part);
    case AssignDepartmentPackage(_) => AssignmentSays(env, opt, before, p, st, part);
    case RecordDepartmentDraft(_, _, _) => DraftSays(env, opt, before, p, st, part);
    case AttestDepartmentReview(_) => ReviewSays(env, opt, before, p, st, part);
    case DeriveCitizenBrief(_) => RememberedState(env, opt, before, st); DecidedBriefSays(env, opt, before, p,
                                                                                          st, part);
    case CorrectDepartmentDraft(_, _, _, _) => CorrectionSays(env, opt, before, p, st, part);
    case RetractDepartmentResponse(_) => RetractionSays(env, opt, before, p, st, part);
    case RecordAdvisoryParticipation(_, _) => ParticipationSays(env, opt, before, p, st, part);
    case RetractAdvisoryParticipation(_) => WithdrawalSays(env, opt, before, p, st, part);
    case RecordReviewedOutcome(_) => OutcomeSays(env, opt, before, p, st, part);
  }

  /** Every appended event continues the chain and holds its part. */
  ghost predicate Carries(opt: Options, before: seq<Event>, actor: ActorBinding, e: Event, part: Part) {
    && Chained(opt, before, actor, e) && e.header.eventType == part.eventType
    && e.payload == part.payload && e.header.correctionOf == part.correctionOf
  }

  /** The first appended event carries its part, and the others are appended to the journal with it. */
  lemma FirstCarries(opt: Options, before: seq<Event>, actor: ActorBinding, parts: seq<Part>)
    requires parts != []
    ensures var e := MakeEvent(opt, |before|, HeadOf(opt, before), actor, parts[0]);
            && Carries(opt, before, actor, e, parts[0])
            && Appended(opt, |before|, HeadOf(opt, before), actor, parts)
               == [e] + Appended(opt, |before + [e]|, HeadOf(opt, before + [e]), actor, parts[1..])
  {
  }

  lemma {:induction false} AppendedCarry(opt: Options, before: seq<Event>, actor: ActorBinding, parts: seq<Part>)
    ensures var es := Appended(opt, |before|, HeadOf(opt, before), actor, parts);
            |es| == |parts| && forall i :: 0 <= i < |es| ==> Carries(opt, before + es[..i], actor, es[i], parts[i])
    decreases |parts|
  {
    hide Carries, Appended, MakeEvent, HeadOf;
    if parts != [] {
      var e := MakeEvent(opt, |before|, HeadOf(opt, before), actor, parts[0]);
      var es := Appended(opt, |before|, HeadOf(opt, before), actor, parts);
      var rest := Appended(opt, |before + [e]|, HeadOf(opt, before + [e]), actor, parts[1..]);
      FirstCarries(opt, before, actor, parts);
      AppendedCarry(opt, before + [e], actor, parts[1..]);
      forall i | 0 <= i < |es| ensures Carries(opt, before + es[..i], actor, es[i], parts[i]) {
        if i == 0 {
          assert before + es[..0] == before;
        } else {
          assert before + [e] + rest[..i - 1] == before + es[..i];
        }
      }
    }
  }

  /** What was verified is what the command names. */
  ghost predicate VerifiedFor(env: Env, p: Prepared) {
    match p.cmd.body
    case AdmitSignedTopicSuggestion(x, a, s) => p.topic.Some? && env.verifyTopic(x, a, s) == Ok(p.topic.value)
                                                && p.adoption.None?
    case AdmitCitizenAdoption(e) => p.adoption.Some? && env.verifyAdoption(false, e) == Ok(p.adoption.value)
                                    && p.topic.None?
    case AdmitSyntheticAdoption(e) => p.adoption.Some? && env.verifyAdoption(true, e) == Ok(p.adoption.value)
                                      && p.topic.None?
    case _ => p.topic.None? && p.adoption.None?
  }

  lemma PreparedVerified(env: Env, opt: Options, raw: Command)
    requires Prepare(env, opt, raw).Ok?
    ensures VerifiedFor(env, Prepare(env, opt, raw).value)
  {
    hide NormalizeCommand, VerifyDiscussion;
  }

  lemma CreationAppends(env: Env, opt: Options, p: Prepared, parts: seq<Part>)
    requires Settled(env, opt, p) && ValidOptions(opt) && VerifiedFor(env, p) && CreatesCase(p.cmd.body)
    requires Decide(opt, p, None, 0) == Ok(parts)
    ensures Appends(env, opt, [], p.cmd, Appended(opt, 0, Genesis(opt), p.cmd.actor, parts))
  {
    hide Settled, Appended, HeadOf, Says, Decide, Chained, VerifiedFor, Fits, Genesis, Founding, SuggestionIn;
    var es := Appended(opt, 0, Genesis(opt), p.cmd.actor, parts);
    assert HeadOf(opt, []) == Genesis(opt) by { NoHead(opt); }
    AppendedCarry(opt, [], p.cmd.actor, parts);
    FoundingParts(env, opt, p, parts);
    assert [] + es[..0] == [] && [] + es[..1] == es[..1] && [] + es[..|es| - 1] == es[..|es| - 1];
    assert Carries(opt, [], p.cmd.actor, es[0], parts[0]);
    assert Carries(opt, es[..1], p.cmd.actor, es[1], parts[1]);
    assert Carries(opt, es[..|es| - 1], p.cmd.actor, es[|es| - 1], parts[|es| - 1]);
  }

  lemma NoHead(opt: Options)
    ensures HeadOf(opt, []) == Genesis(opt)
  {
  }

  lemma FoundingParts(env: Env, opt: Options, p: Prepared, parts: seq<Part>)
    requires Settled(env, opt, p) && VerifiedFor(env, p) && CreatesCase(p.cmd.body)
             && Decide(opt, p, None, 0) == Ok(parts)
    ensures |parts| == if p.cmd.body.IntakeDiscussion? then 2 else 3
    ensures parts[0] == Part(CaseCreatedV1, CaseCreated(opt.caseId, opt.jurisdiction), None)
    ensures Founding(env, p.cmd.body).Some?
    ensures var d := Founding(env, p.cmd.body).value;
            parts[1] == Part(DiscussionRecordedV1, DiscussionRecorded(d, SuggestionIn(d)), None)
    ensures var last := parts[|parts| - 1];
            && last.correctionOf.None? && Fits(last.eventType, last.payload)
            && (p.cmd.body.AdmitCitizenAdoption? ==> last.eventType == CitizenAdoptionAdmittedV1)
            && (p.cmd.body.AdmitSyntheticAdoption? ==> last.eventType == SyntheticAdoptionAdmittedV1)
            && forall before :: Says(env, opt, before, p.cmd, last.payload)
  {
    hide BodyFixed;
  }

  lemma ConsideredVerified(env: Env, opt: Options, j: Journal, raw: Command)
    requires Considered(env, opt, j, raw).Ok?
    ensures VerifiedFor(env, Considered(env, opt, j, raw).value.0)
  {
    hide Prepare, Replay, NormalizeSignedSuggestion;
    PreparedVerified(env, opt, raw);
  }

  /** The events that are appended for a decided command. */
  lemma DecidedAppends(env: Env, opt: Options, before: seq<Event>, p: Prepared, st: CaseState, parts: seq<Part>)
    requires ValidOptions(opt) && Settled(env, opt, p) && VerifiedFor(env, p) && Fold(env, opt, before) == Ok(st)
    requires Decide(opt, p, Existing(st), |before|) == Ok(parts)
    ensures Appends(env, opt, before, p.cmd, Appended(opt, |before|, HeadOf(opt, before), p.cmd.actor, parts))
    ensures parts != []
  {
    hide Decide, Settled, Appended, Existing, Remembered, Fold, VerifiedFor, BriefOk, ParticipationOk, OutcomeOk,
      DepartmentOk, Chained, HeadOf, Says, CorrectedEvent, Founds, Fits;
    if CreatesCase(p.cmd.body) {
      CreationShape(env, opt, p, Existing(st), |before|);
      assert before == [];
      NoHead(opt);
      CreationAppends(env, opt, p, parts);
      FoundingParts(env, opt, p, parts);
    } else {
      ReplayRemembers(env, opt, before);
      ReplayedOk(env, opt, before);
      DecidedSays(env, opt, before, p, st, parts);
      AppendedCarry(opt, before, p.cmd.actor, parts);
      NotAnAdoption(p.cmd.body);
      var es := Appended(opt, |before|, HeadOf(opt, before), p.cmd.actor, parts);
      assert before + es[..0] == before;
      assert Carries(opt, before, p.cmd.actor, es[0], parts[0]);
    }
  }

  lemma NotAnAdoption(b: CommandBody)
    requires !CreatesCase(b)
    ensures !b.AdmitCitizenAdoption? && !b.AdmitSyntheticAdoption?
  {
  }

  lemma ReplayedHead(env: Env, opt: Options, j: Journal)
    requires ValidOptions(opt) && Replays(env, opt, j)
    ensures Fold(env, opt, j.events) == Replay(env, opt, j.events, j.head) && j.head == HeadOf(opt, j.events)
  {
    hide Fold, Remembered;
    ReplayIffFold(env, opt, j.events, j.head);
    ReplayRemembers(env, opt, j.events);
  }

  /**
   Every accepted command that is not a repetition appends exactly the events that record it: they say what
   the normalised command said, by its actor, and name the event that is corrected.
   */
  lemma HandleRecords(env: Env, opt: Options, j: Journal, raw: Command)
    requires Sound(env) && ValidOptions(opt) && Handle(env, opt, j, raw).0 != j
    ensures var next := Handle(env, opt, j, raw).0;
            && Considered(env, opt, j, raw).Ok? && j.events <= next.events
            && Appends(env, opt, j.events, Considered(env, opt, j, raw).value.0.cmd, next.events[|j.events|..])
            && next.head == HeadOf(opt, next.events)
  {
    hide Considered, Decide, Replay, Settled, Appends, Appended, Existing, Admits, HeadOf, Fold, Fingerprint;
    var p, st := ConsideredSettled(env, opt, j, raw);
    ConsideredVerified(env, opt, j, raw);
    ReplayedHead(env, opt, j);
    var parts := Decide(opt, p, Existing(st), |j.events|).value;
    DecidedAppends(env, opt, j.events, p, st, parts);
    var added := Appended(opt, |j.events|, j.head, p.cmd.actor, parts);
    assert (j.events + added)[|j.events|..] == added;
    LastIsHead(opt, j.events, added);
  }

  lemma LastIsHead(opt: Options, before: seq<Event>, added: seq<Event>)
    requires added != []
    ensures HeadOf(opt, before + added) == added[|added| - 1].eventChecksum
  {
  }
}
