/**
 Whole runs of the coordinator: from the empty journal, after any sequence of accepted and rejected
 commands, the journal that `handle` has built is one that `replayJournal` accepts, exactly when the
 recorded discussion is in normal form.
 */
module CaseRuns {
  import opened Results
  import opened Pigeonholes
  import opened CaseTypes
  import opened CaseNormalize
  import opened CaseNormalForms
  import opened CaseReplay
  import opened CaseBriefFacts
  import opened CaseReachable
  import opened CaseCurrency
  import opened CaseHandle
  import opened CaseAgreement

  predicate Replays(env: Env, opt: Options, j: Journal) {
    Replay(env, opt, j.events, j.head).Ok?
  }

  /** The recorded discussion, if any, is its own normal form. */
  predicate DiscussionNormal(env: Env, events: seq<Event>) {
    |events| >= 2 ==>
      && events[1].payload.DiscussionRecorded?
      && NormalizeArtifact(env, events[1].payload.discussion) == Ok(events[1].payload.discussion)
  }

  /** One more event is one more step. */
  lemma FoldAppend(env: Env, opt: Options, events: seq<Event>, e: Event)
    ensures Fold(env, opt, events + [e]) == if Fold(env, opt, events).Err? then Fold(env, opt, events)
                                            else Step(env, opt, Fold(env, opt, events).value, |events|, e)
  {
    hide Step;
    var all := events + [e];
    assert all[..|all| - 1] == events;
  }

  function DepartmentIds(ds: seq<Department>): seq<string> {
    seq(|ds|, i requires 0 <= i < |ds| => ds[i].pkg.departmentId)
  }

  /** A replayed journal passes the last two checks of the replay if its head is the last checksum. */
  lemma ReplayIffFold(env: Env, opt: Options, events: seq<Event>, head: Checksum)
    requires ValidOptions(opt)
    ensures Replay(env, opt, events, head).Ok? <==>
            Fold(env, opt, events).Ok? && head == Fold(env, opt, events).value.prior
    ensures Replay(env, opt, events, head).Ok? ==> Replay(env, opt, events, head) == Fold(env, opt, events)
  {
    hide Step, Fold, BriefOk, ParticipationOk, OutcomeOk;
    if Fold(env, opt, events).Ok? {
      ReplayedOk(env, opt, events);
      var st := Fold(env, opt, events).value;
      if opt.requiredDepartmentIds.Some? {
        Pigeonhole(DepartmentIds(st.departments), opt.requiredDepartmentIds.value);
      }
    }
  }

  // The header of an appended event.

  /** The part of the header check that depends on the configured lane. */
  predicate TypeAllowed(opt: Options, index: nat, t: EventType) {
    && !((opt.citizenAdoption || opt.syntheticAdoption)
         && (t == SignedSuggestionAdmittedV1 || t == SignedTopicSuggestionAdmittedV1))
    && (opt.syntheticAdoption && index > 2 ==> opt.syntheticDepartmentReview && SyntheticReviewEvent(t))
  }

  lemma HeaderPasses(opt: Options, prior: Checksum, count: nat, actor: ActorBinding, part: Part)
    requires count == 0 ==> prior == Genesis(opt)
    requires TypeAllowed(opt, count, part.eventType)
    ensures CheckHeader(opt, prior, count, MakeEvent(opt, count, prior, actor, part)) == Pass
  {
  }

  lemma LaneTypes(opt: Options, b: CommandBody, index: nat)
    requires LaneAllows(opt, b) && !CreatesCase(b)
    ensures TypeAllowed(opt, index, EventTypeFor(opt, b))
  {
  }

  /** A command that does not create the Case appends an event that the replay accepts. */
  lemma SingleExtends(env: Env, opt: Options, p: Prepared, events: seq<Event>, st: CaseState, parts: seq<Part>)
    requires Settled(env, opt, p) && ValidOptions(opt) && Fold(env, opt, events) == Ok(st) && Admits(env, opt, p, st)
    requires Decide(opt, p, Existing(st), |events|) == Ok(parts) && !CreatesCase(p.cmd.body)
    ensures |parts| == 1
    ensures var added := Appended(opt, |events|, st.prior, p.cmd.actor, parts);
            && |added| == 1 && Fold(env, opt, events + added).Ok?
            && Fold(env, opt, events + added).value.prior == added[0].eventChecksum
  {
    hide StepPayload, Decide, Settled, Admits, CheckHeader, Fold, SyntheticReviewEvent;
    ReplayedOk(env, opt, events);
    SingleShape(env, opt, p, Existing(st), |events|);
    var part := parts[0];
    assert parts == [part];
    var e := MakeEvent(opt, |events|, st.prior, p.cmd.actor, part);
    assert Appended(opt, |events|, st.prior, p.cmd.actor, parts) == [e] by {
      assert Appended(opt, |events| + 1, e.eventChecksum, p.cmd.actor, parts[1..]) == [];
    }
    SettledLane(env, opt, p);
    LaneTypes(opt, p.cmd.body, |events|);
    assert |events| > 0 by { assert OriginOk(st, |events|); }
    HeaderPasses(opt, st.prior, |events|, p.cmd.actor, part);
    SingleAgrees(env, opt, p, st, |events|, e.header, part);
    FoldAppend(env, opt, events, e);
  }

  // The events that create a Case.

  /** The state after the first two events, with the discussion as the replay normalises it. */
  function CreatedState(opt: Options, prior: Checksum, d: Discussion, s: Suggestion): CaseState {
    InitialState(opt).(prior := prior, discussion := Some(d), suggestion := Some(s))
  }

  lemma FoldEmpty(env: Env, opt: Options)
    ensures Fold(env, opt, []) == Ok(InitialState(opt))
  {
    hide Step;
  }

  lemma FirstStep(env: Env, opt: Options, actor: ActorBinding)
    ensures var e := MakeEvent(opt, 0, Genesis(opt), actor,
                               Part(CaseCreatedV1, CaseCreated(opt.caseId, opt.jurisdiction), None));
            Fold(env, opt, [e]) == Ok(InitialState(opt).(prior := e.eventChecksum))
  {
    hide Fold, CheckHeader;
    var part := Part(CaseCreatedV1, CaseCreated(opt.caseId, opt.jurisdiction), None);
    var e := MakeEvent(opt, 0, Genesis(opt), actor, part);
    FoldEmpty(env, opt);
    FoldAppend(env, opt, [], e);
    assert [] + [e] == [e];
    HeaderPasses(opt, Genesis(opt), 0, actor, part);
  }

  lemma DiscussionStep(env: Env, st: CaseState, h: Header, d: Discussion)
    requires h.correctionOf.None?
    ensures var next := StepDiscussion(env, st, 1, h, DiscussionRecorded(d, SuggestionFor(d)));
            && (NormalizeArtifact(env, d) == Ok(d)
                ==> next == Ok(st.(discussion := Some(d), suggestion := Some(SuggestionFor(d)))))
            && (next.Ok? ==> && NormalizeArtifact(env, d).Ok? && NormalizeArtifact(env, d).value.id == d.id
                             && next.value.discussion == Some(NormalizeArtifact(env, d).value))
  {
    hide NonEmpty, StartsWith, SecretFree;
  }

  /** The first two events of a Case; `after` follows them, if anything does. */
  lemma CreationFolds(env: Env, opt: Options, actor: ActorBinding, d: Discussion, after: seq<Part>)
    returns (first: Event, second: Event)
    ensures Appended(opt, 0, Genesis(opt), actor, CreationParts(opt, d) + after)
         == [first, second] + Appended(opt, 2, second.eventChecksum, actor, after)
    ensures second.payload == DiscussionRecorded(d, SuggestionFor(d))
    ensures NormalizeArtifact(env, d) == Ok(d) ==>
              Fold(env, opt, [first, second]) == Ok(CreatedState(opt, second.eventChecksum, d, SuggestionFor(d)))
    ensures Fold(env, opt, [first, second]).Ok? ==>
              && NormalizeArtifact(env, d).Ok? && NormalizeArtifact(env, d).value.id == d.id
              && Fold(env, opt, [first, second]).value.discussion == Some(NormalizeArtifact(env, d).value)
  {
    hide Fold, NormalizeArtifact, CheckHeader, StepDiscussion, SuggestionFor;
    var parts := CreationParts(opt, d) + after;
    first := MakeEvent(opt, 0, Genesis(opt), actor, parts[0]);
    second := MakeEvent(opt, 1, first.eventChecksum, actor, parts[1]);
    assert parts[1..][1..] == after;
    FirstStep(env, opt, actor);
    FoldAppend(env, opt, [first], second);
    assert [first] + [second] == [first, second];
    HeaderPasses(opt, first.eventChecksum, 1, actor, parts[1]);
    DiscussionStep(env, InitialState(opt).(prior := first.eventChecksum), second.header, d);
  }

  lemma TopicAgrees(env: Env, opt: Options, p: Prepared, prior: Checksum, h: Header, part: Part)
    requires Sound(env) && Entitled(opt, p) && Verified(env, opt, p) && p.topic.Some?
    requires DecideTopic(opt, p, None, 0) == Ok(CreationParts(opt, p.topic.value.discussion) + [part])
    requires h.actorBinding == p.cmd.actor && h.correctionOf.None?
    ensures part.eventType == SignedTopicSuggestionAdmittedV1 && part.payload.TopicAdmitted? && part.correctionOf.None?
    ensures StepTopic(env, opt,
                      CreatedState(opt, prior, p.topic.value.discussion, SuggestionFor(p.topic.value.discussion)),
                      h, part.payload).Ok?
  {
    hide Trimmed, SuggestionFor;
    var v := p.topic.value;
    var x, a, s :| env.verifyTopic(x, a, s) == Ok(v);
    assert SoundTopic(env, x, v);
    assert ToNostr(v.discussion) == x;
    var parts := DecideTopic(opt, p, None, 0).value;
    assert parts[2] == part;
  }

  /** A trimmed text is its own checked form. */
  lemma TrimmedKept(env: Env, s: string, code: ErrorCode)
    requires Trimmed(s) && NonEmpty(env, s, code).Ok?
    ensures NonEmpty(env, s, code).value == s
  {
  }

  /** Only the content of the artifact built from a topic's root event can change in normalisation. */
  lemma TopicArtifactKept(env: Env, x: NostrEvent, v: TopicAdmission)
    requires SoundTopic(env, x, v) && NormalizeArtifact(env, v.discussion).Ok?
    ensures var n := NormalizeArtifact(env, v.discussion).value;
            v.discussion == n.(event := n.event.(content := x.content)) && ToNostr(n).id == x.id
  {
    hide NonEmpty, StartsWith, SecretFree;
    TrimmedKept(env, x.id, DiscussionProofInvalid);
    TrimmedKept(env, NOSTR_PREFIX + x.id, DiscussionProofInvalid);
    TrimmedKept(env, v.municipalityId, DiscussionScopeMissing);
    TrimmedKept(env, v.caseId, DiscussionScopeMissing);
    TrimmedKept(env, x.sig, DiscussionSignatureRequired);
    TrimmedKept(env, x.id, DiscussionEventInvalid);
    TrimmedKept(env, x.pubkey, DiscussionEventInvalid);
  }

  lemma TopicNeedsNormal(env: Env, opt: Options, p: Prepared, st: CaseState, h: Header, part: Part)
    requires Sound(env) && Verified(env, opt, p) && p.topic.Some? && part.payload.TopicAdmitted?
    requires NormalizeArtifact(env, p.topic.value.discussion).Ok?
    requires st.discussion == Some(NormalizeArtifact(env, p.topic.value.discussion).value)
    requires StepTopic(env, opt, st, h, part.payload).Ok?
    ensures NormalizeArtifact(env, p.topic.value.discussion) == Ok(p.topic.value.discussion)
  {
    hide NormalizeArtifact, Trimmed;
    var v := p.topic.value;
    var x, a, s :| env.verifyTopic(x, a, s) == Ok(v);
    assert SoundTopic(env, x, v);
    TopicArtifactKept(env, x, v);
    var n := st.discussion.value;
    assert env.verifyTopic(ToNostr(n), part.payload.sourceAnswer, part.payload.topicSuggestion).Ok?;
    assert ToNostr(n).content == x.content;
  }

  lemma AdoptionAgrees(env: Env, opt: Options, p: Prepared, prior: Checksum, h: Header, part: Part)
    requires Sound(env) && Entitled(opt, p) && Verified(env, opt, p) && p.adoption.Some? && ValidOptions(opt)
    requires DecideAdoption(opt, p, None, 0) == Ok(CreationParts(opt, p.adoption.value.discussion) + [part])
    requires h.actorBinding == p.cmd.actor && h.correctionOf.None?
    ensures part.eventType == (if opt.syntheticAdoption then SyntheticAdoptionAdmittedV1 else CitizenAdoptionAdmittedV1)
    ensures part.payload.AdoptionAdmitted? && part.correctionOf.None?
    ensures StepAdoption(env, opt,
                         CreatedState(opt, prior, p.adoption.value.discussion,
                                      SuggestionFor(p.adoption.value.discussion)),
                         2, h, part.payload, opt.syntheticAdoption).Ok?
  {
    hide SuggestionFor, SoundTopic;
    var parts := DecideAdoption(opt, p, None, 0).value;
    assert parts[2] == part;
    assert p.cmd.body.AdmitSyntheticAdoption? == opt.syntheticAdoption;
  }

  lemma AdoptionNeedsNormal(env: Env, opt: Options, p: Prepared, st: CaseState, h: Header, part: Part)
    requires Sound(env) && Verified(env, opt, p) && p.adoption.Some? && ValidOptions(opt)
    requires DecideAdoption(opt, p, None, 0) == Ok(CreationParts(opt, p.adoption.value.discussion) + [part])
    requires part.payload.AdoptionAdmitted?
    requires NormalizeArtifact(env, p.adoption.value.discussion).Ok?
    requires st.discussion == Some(NormalizeArtifact(env, p.adoption.value.discussion).value)
    requires StepAdoption(env, opt, st, 2, h, part.payload, opt.syntheticAdoption).Ok?
    ensures NormalizeArtifact(env, p.adoption.value.discussion) == Ok(p.adoption.value.discussion)
  {
    hide NormalizeArtifact, SuggestionFor, SoundTopic;
    var parts := DecideAdoption(opt, p, None, 0).value;
    assert parts[2] == part;
    assert p.cmd.body.AdmitSyntheticAdoption? == opt.syntheticAdoption;
  }

  /** The discussion that a command brings into a new Case. */
  function Brought(p: Prepared): Option<Discussion> {
    if p.topic.Some? then Some(p.topic.value.discussion)
    else if p.adoption.Some? then Some(p.adoption.value.discussion)
    else if p.cmd.body.IntakeDiscussion? then Some(p.cmd.body.discussion)
    else None
  }

  /** What a caller can check before the call: the discussion a command brings is its own normal form. */
  predicate BringsNormal(env: Env, p: Prepared) {
    Brought(p).Some? ==> NormalizeArtifact(env, Brought(p).value) == Ok(Brought(p).value)
  }

  /** Creating commands find no Case and no events, and append the creation and at most one admission. */
  lemma CreationShape(env: Env, opt: Options, p: Prepared, existing: Option<CaseState>, count: nat)
    requires Settled(env, opt, p) && CreatesCase(p.cmd.body) && Decide(opt, p, existing, count).Ok?
    ensures existing.None? && count == 0 && Brought(p).Some?
    ensures var parts := Decide(opt, p, existing, count).value;
            && (p.cmd.body.IntakeDiscussion? ==> parts == CreationParts(opt, Brought(p).value) + [])
            && (!p.cmd.body.IntakeDiscussion? ==>
                  && |parts| == 3 && parts == CreationParts(opt, Brought(p).value) + [parts[2]]
                  && (p.topic.Some? ==> DecideTopic(opt, p, None, 0) == Ok(parts))
                  && (p.adoption.Some? ==> DecideAdoption(opt, p, None, 0) == Ok(parts)))
  {
    hide SuggestionFor, BodyFixed, LaneAllows, Entitled;
  }

  /** A new Case replays exactly if its discussion is in normal form. */
  lemma CreationExtends(env: Env, opt: Options, p: Prepared, parts: seq<Part>)
    requires Sound(env) && ValidOptions(opt) && Settled(env, opt, p) && CreatesCase(p.cmd.body)
    requires Decide(opt, p, None, 0) == Ok(parts)
    ensures Brought(p).Some?
    ensures var added := Appended(opt, 0, Genesis(opt), p.cmd.actor, parts);
            && 2 <= |added| <= 3
            && added[1].payload == DiscussionRecorded(Brought(p).value, SuggestionFor(Brought(p).value))
            && (Fold(env, opt, added).Ok? <==> BringsNormal(env, p))
            && (Fold(env, opt, added).Ok? ==> Fold(env, opt, added).value.prior == added[|added| - 1].eventChecksum)
  {
    hide Fold, Step, Decide, CreationParts, SuggestionFor, Appended, Settled, Sound, NormalizeArtifact;
    CreationShape(env, opt, p, None, 0);
    var d := Brought(p).value;
    if p.cmd.body.IntakeDiscussion? {
      IntakeNormal(env, opt, p);
      var first, second := CreationFolds(env, opt, p.cmd.actor, d, []);
      NothingAppended(opt, 2, second.eventChecksum, p.cmd.actor);
      assert [first, second] + [] == [first, second];
    } else {
      var first, second := CreationFolds(env, opt, p.cmd.actor, d, [parts[2]]);
      AdmissionExtends(env, opt, p, parts, first, second);
    }
  }

  lemma IntakeNormal(env: Env, opt: Options, p: Prepared)
    requires Settled(env, opt, p) && p.cmd.body.IntakeDiscussion?
    ensures BringsNormal(env, p)
  {
    hide NormalizeArtifact, Entitled;
  }

  lemma NothingAppended(opt: Options, count: nat, head: Checksum, actor: ActorBinding)
    ensures Appended(opt, count, head, actor, []) == []
  {
  }

  lemma OneAppended(opt: Options, count: nat, head: Checksum, actor: ActorBinding, part: Part)
    ensures Appended(opt, count, head, actor, [part]) == [MakeEvent(opt, count, head, actor, part)]
  {
    hide MakeEvent;
    NothingAppended(opt, count + 1, MakeEvent(opt, count, head, actor, part).eventChecksum, actor);
  }

  /** What a replay does with the event of an admission, given the discussion before it. */
  lemma AdmissionStep(env: Env, opt: Options, p: Prepared, part: Part, st: CaseState, h: Header)
    requires Sound(env) && ValidOptions(opt) && Settled(env, opt, p) && (p.topic.Some? || p.adoption.Some?)
    requires p.topic.Some? ==> DecideTopic(opt, p, None, 0) == Ok(CreationParts(opt, Brought(p).value) + [part])
    requires p.adoption.Some? ==> DecideAdoption(opt, p, None, 0) == Ok(CreationParts(opt, Brought(p).value) + [part])
    requires h.actorBinding == p.cmd.actor && h.correctionOf == part.correctionOf && h.eventType == part.eventType
    requires NormalizeArtifact(env, Brought(p).value).Ok?
    requires st.discussion == Some(NormalizeArtifact(env, Brought(p).value).value)
    requires BringsNormal(env, p)
             ==> st == CreatedState(opt, st.prior, Brought(p).value, SuggestionFor(Brought(p).value))
    ensures TypeAllowed(opt, 2, part.eventType)
    ensures StepPayload(env, opt, st, 2, h, part.payload).Ok? <==> BringsNormal(env, p)
  {
    hide CreationParts, SuggestionFor, NormalizeArtifact, StepTopic, StepAdoption, Sound, DecideTopic, DecideAdoption,
      BodyFixed;
    if p.topic.Some? {
      PartCorrects(opt, p, part);
      TopicAgrees(env, opt, p, st.prior, h, part);
      if StepTopic(env, opt, st, h, part.payload).Ok? {
        TopicNeedsNormal(env, opt, p, st, h, part);
      }
    } else {
      PartCorrects(opt, p, part);
      AdoptionAgrees(env, opt, p, st.prior, h, part);
      if StepAdoption(env, opt, st, 2, h, part.payload, opt.syntheticAdoption).Ok? {
        AdoptionNeedsNormal(env, opt, p, st, h, part);
      }
    }
  }

  lemma PartCorrects(opt: Options, p: Prepared, part: Part)
    requires p.topic.Some? || p.adoption.Some?
    requires p.topic.Some? ==> DecideTopic(opt, p, None, 0) == Ok(CreationParts(opt, Brought(p).value) + [part])
    requires p.topic.None? ==> DecideAdoption(opt, p, None, 0) == Ok(CreationParts(opt, Brought(p).value) + [part])
    ensures part.correctionOf.None?
  {
    hide SuggestionFor;
    var parts := CreationParts(opt, Brought(p).value) + [part];
    assert parts[2] == part;
  }

  lemma AdmissionExtends(env: Env, opt: Options, p: Prepared, parts: seq<Part>, first: Event, second: Event)
    requires Sound(env) && ValidOptions(opt) && Settled(env, opt, p) && (p.topic.Some? || p.adoption.Some?)
    requires |parts| == 3
    requires p.topic.Some? ==> DecideTopic(opt, p, None, 0) == Ok(parts)
    requires p.adoption.Some? ==> DecideAdoption(opt, p, None, 0) == Ok(parts)
    requires parts == CreationParts(opt, Brought(p).value) + [parts[2]]
    requires NormalizeArtifact(env, Brought(p).value) == Ok(Brought(p).value) ==>
               Fold(env, opt, [first, second])
               == Ok(CreatedState(opt, second.eventChecksum, Brought(p).value, SuggestionFor(Brought(p).value)))
    requires Fold(env, opt, [first, second]).Ok? ==>
               && NormalizeArtifact(env, Brought(p).value).Ok?
               && Fold(env, opt, [first, second]).value.discussion
                  == Some(NormalizeArtifact(env, Brought(p).value).value)
    ensures var third := MakeEvent(opt, 2, second.eventChecksum, p.cmd.actor, parts[2]);
            && [first, second] + Appended(opt, 2, second.eventChecksum, p.cmd.actor, [parts[2]])
               == [first, second, third]
            && (Fold(env, opt, [first, second, third]).Ok? <==> BringsNormal(env, p))
            && (Fold(env, opt, [first, second, third]).Ok? ==>
                  Fold(env, opt, [first, second, third]).value.prior == third.eventChecksum)
  {
    hide Fold, CreationParts, SuggestionFor, Appended, NormalizeArtifact, StepPayload, CheckHeader, Sound,
      DecideTopic, DecideAdoption, Settled, TypeAllowed;
    var third := MakeEvent(opt, 2, second.eventChecksum, p.cmd.actor, parts[2]);
    OneAppended(opt, 2, second.eventChecksum, p.cmd.actor, parts[2]);
    assert [first, second] + [third] == [first, second, third];
    FoldAppend(env, opt, [first, second], third);
    if Fold(env, opt, [first, second]).Ok? {
      var st := Fold(env, opt, [first, second]).value;
      AdmissionStep(env, opt, p, parts[2], st, third.header);
      HeaderPasses(opt, second.eventChecksum, 2, p.cmd.actor, parts[2]);
    }
  }

  // One call of `handle`, and whole runs.

  lemma ResolvedSettled(env: Env, opt: Options, p: Prepared, st: CaseState)
    requires MarkersTrimmed(env) && Settled(env, opt, p) && Resolve(env, opt, p, Existing(st)).Ok?
    ensures var q := Resolve(env, opt, p, Existing(st)).value;
            Settled(env, opt, q) && Admits(env, opt, q, st)
  {
    hide NormalizeSignedSuggestion;
    if p.cmd.body.AdmitSignedSuggestion? {
      SignedSuggestionFixed(env, opt, st.discussion.value, p.cmd.body.signedSuggestion);
    }
  }

  /** What `handle` knows when it decides. */
  lemma ConsideredSettled(env: Env, opt: Options, j: Journal, raw: Command) returns (p: Prepared, st: CaseState)
    requires Sound(env) && Considered(env, opt, j, raw).Ok?
    ensures Considered(env, opt, j, raw) == Ok((p, Existing(st)))
    ensures Replay(env, opt, j.events, j.head) == Ok(st)
    ensures Settled(env, opt, p) && Admits(env, opt, p, st)
  {
    hide Prepare, Replay, Resolve, Settled, Admits, Existing;
    PreparedSettled(env, opt, raw);
    st := Replay(env, opt, j.events, j.head).value;
    ResolvedSettled(env, opt, Prepare(env, opt, raw).value, st);
    p := Considered(env, opt, j, raw).value.0;
  }

  /** The accepted append of a decided command replays exactly if what it brings is in normal form. */
  lemma CommitReplays(env: Env, opt: Options, j: Journal, p: Prepared, st: CaseState, parts: seq<Part>)
    requires Sound(env) && ValidOptions(opt) && Settled(env, opt, p) && Admits(env, opt, p, st)
    requires Replay(env, opt, j.events, j.head) == Ok(st) && DiscussionNormal(env, j.events)
    requires Decide(opt, p, Existing(st), |j.events|) == Ok(parts)
    ensures var next := Commit(opt, j, p, parts).0;
            && |j.events| < |next.events| <= |j.events| + 3 && |next.events| >= 2 && j.events <= next.events
            && (Replays(env, opt, next) <==> BringsNormal(env, p))
            && (Replays(env, opt, next) <==> DiscussionNormal(env, next.events))
  {
    hide Fold, Step, Decide, SuggestionFor, Appended, Settled, Sound, NormalizeArtifact, Admits, Replay, Genesis, Inv;
    ReplayIffFold(env, opt, j.events, j.head);
    var next := Commit(opt, j, p, parts).0;
    ReplayIffFold(env, opt, next.events, next.head);
    ReplayedOk(env, opt, j.events);
    if CreatesCase(p.cmd.body) {
      CreationShape(env, opt, p, Existing(st), |j.events|);
      FoldEmpty(env, opt);
      assert j.events == [];
      CreationExtends(env, opt, p, parts);
      assert next.events == Appended(opt, 0, Genesis(opt), p.cmd.actor, parts);
    } else {
      SingleExtends(env, opt, p, j.events, st, parts);
      SingleShape(env, opt, p, Existing(st), |j.events|);
      NothingBrought(env, opt, p);
      assert |j.events| >= 2 by { assert Inv(opt, st, |j.events|); CasePresent(opt, st, |j.events|); }
    }
  }

  lemma NothingBrought(env: Env, opt: Options, p: Prepared)
    requires Settled(env, opt, p) && !CreatesCase(p.cmd.body)
    ensures Brought(p).None?
  {
    hide BodyFixed, Entitled, LaneAllows;
  }

  lemma CasePresent(opt: Options, st: CaseState, n: nat)
    requires Inv(opt, st, n)
    ensures n >= 2 <==> Existing(st).Some?
  {
    hide DepartmentsOk, BriefOk, ParticipationOk, OutcomeOk;
  }

  /**
   One call from a journal that replays. A rejected or repeated command changes nothing; an accepted
   one extends the journal by one to three events, and the new journal replays exactly if the
   discussion that the command brings, if any, is its own normal form.
   */
  lemma HandleAgrees(env: Env, opt: Options, j: Journal, raw: Command)
    requires Sound(env) && ValidOptions(opt) && Replays(env, opt, j) && DiscussionNormal(env, j.events)
    ensures var (next, r) := Handle(env, opt, j, raw);
            && (r.Err? ==> next == j)
            && (r.Ok? && next == j ==>
                  && Considered(env, opt, j, raw).Ok?
                  && var key := Considered(env, opt, j, raw).value.0.cmd.idempotencyKey;
                  key in j.idempotency && r == Ok(j.idempotency[key].receipt))
            && (next != j ==>
                  && r.Ok? && Considered(env, opt, j, raw).Ok?
                  && |j.events| < |next.events| <= |j.events| + 3 && |next.events| >= 2 && j.events <= next.events
                  && (Replays(env, opt, next) <==> BringsNormal(env, Considered(env, opt, j, raw).value.0))
                  && (Replays(env, opt, next) <==> DiscussionNormal(env, next.events)))
  {
    hide Considered, Decide, Sound, Replay, Commit, DiscussionNormal, BringsNormal, Settled, Admits, Existing;
    if Considered(env, opt, j, raw).Ok? {
      var p, st := ConsideredSettled(env, opt, j, raw);
      var parts := Decide(opt, p, Existing(st), |j.events|);
      if parts.Ok? {
        CommitReplays(env, opt, j, p, st, parts.value);
      }
    }
  }

  /** A journal that does not replay makes every command fail and stays as it is. */
  lemma StuckStays(env: Env, opt: Options, j: Journal, raw: Command)
    requires !Replays(env, opt, j)
    ensures Handle(env, opt, j, raw).0 == j && Handle(env, opt, j, raw).1.Err?
  {
    hide Prepare, Replay, Decide, Commit, Resolve, Existing;
  }

  /** After any sequence of commands the journal replays exactly if the recorded discussion is in normal form. */
  lemma {:induction false} RunReplays(env: Env, opt: Options, cmds: seq<Command>)
    requires Sound(env) && ValidOptions(opt)
    ensures Replays(env, opt, Run(env, opt, cmds)) <==> DiscussionNormal(env, Run(env, opt, cmds).events)
  {
    hide Handle, Sound, Replay, DiscussionNormal;
    if cmds == [] {
      EmptyReplays(env, opt);
    } else {
      var j := Run(env, opt, cmds[..|cmds| - 1]);
      RunReplays(env, opt, cmds[..|cmds| - 1]);
      if Replays(env, opt, j) {
        HandleAgrees(env, opt, j, cmds[|cmds| - 1]);
      } else {
        StuckStays(env, opt, j, cmds[|cmds| - 1]);
      }
    }
  }

  lemma EmptyReplays(env: Env, opt: Options)
    ensures Replays(env, opt, EmptyJournal(opt)) && DiscussionNormal(env, EmptyJournal(opt).events)
  {
    hide Step;
    FoldEmpty(env, opt);
  }

  predicate SuppliesEvidence(b: CommandBody) {
    b.AdmitSignedTopicSuggestion? || IsAdoption(b)
  }

  /** Without topic and adoption admissions every run replays: the intake normalises what it records. */
  lemma {:induction false} IntakeRunsReplay(env: Env, opt: Options, cmds: seq<Command>)
    requires Sound(env) && ValidOptions(opt)
    requires forall i :: 0 <= i < |cmds| ==> !SuppliesEvidence(cmds[i].body)
    ensures Replays(env, opt, Run(env, opt, cmds))
  {
    hide Handle, Sound, Replay, DiscussionNormal, Considered, BringsNormal, Settled, SuppliesEvidence;
    if cmds == [] {
      EmptyReplays(env, opt);
    } else {
      var j, raw := Run(env, opt, cmds[..|cmds| - 1]), cmds[|cmds| - 1];
      IntakeRunsReplay(env, opt, cmds[..|cmds| - 1]);
      RunReplays(env, opt, cmds[..|cmds| - 1]);
      HandleAgrees(env, opt, j, raw);
      if Considered(env, opt, j, raw).Ok? {
        KindKept(env, opt, j, raw);
        var p, st := ConsideredSettled(env, opt, j, raw);
        OwnDiscussionNormal(env, opt, p);
      }
    }
  }

  lemma KindKept(env: Env, opt: Options, j: Journal, raw: Command)
    requires Considered(env, opt, j, raw).Ok?
    ensures SuppliesEvidence(Considered(env, opt, j, raw).value.0.cmd.body) <==> SuppliesEvidence(raw.body)
  {
    hide Replay, NonEmpty, NormalizeActor, VerifyDiscussion, NormalizeArtifact, NormalizePackage, NormalizeDraft,
      NormalizeReview, NormalizeBrief, NormalizeRetraction, NormalizeParticipation, NormalizeBriefReference,
      NormalizeParticipationReference, NormalizeOutcome, NormalizeSignedSuggestion;
  }

  lemma OwnDiscussionNormal(env: Env, opt: Options, p: Prepared)
    requires Settled(env, opt, p) && !SuppliesEvidence(p.cmd.body)
    ensures BringsNormal(env, p)
  {
    hide NormalizeArtifact, Entitled, LaneAllows;
  }
}
