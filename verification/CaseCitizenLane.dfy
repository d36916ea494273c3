/**
 The citizen lane of a Case from verified evidence to the journal: which adoptions are accepted, and which
 of them leave a journal that can be continued.
 */
module CaseCitizenLane {
  import opened Results
  import opened Texts
  import opened CaseTypes
  import opened CaseNormalize
  import opened CaseReplay
  import opened CaseBriefFacts
  import opened CaseHandle
  import opened CaseAgreement
  import opened CaseRuns
  import opened CaseLedger
  import opened CaseAdoption
  import A = AdoptionEvidence

  /** A text that its normaliser leaves alone. */
  predicate Clean(env: Env, s: string) {
    s != "" && Trim(s) == s && !env.secret(s)
  }

  lemma CleanIsNormal(env: Env, s: string, code: ErrorCode)
    ensures NonEmpty(env, s, code) == Ok(s) <==> Clean(env, s)
  {
  }

  /** What the citizen wrote is trimmed and free of secrets, and so are the tags. */
  predicate CleanContent(env: Env, root: NostrEvent) {
    && Clean(env, root.content) && !env.secretValue(root.content)
    && forall tag, part | tag in root.tags && part in tag :: !env.secretValue(part)
  }

  /** What signing fixes of the root event, and the ids of the Case. */
  predicate CleanIds(env: Env, root: NostrEvent, municipalityId: string, caseId: string) {
    && Clean(env, root.id) && Clean(env, NOSTR_PREFIX + root.id) && Clean(env, root.pubkey) && Clean(env, root.sig)
    && Clean(env, municipalityId) && Clean(env, caseId) && SafeInteger(root.createdAt)
  }

  /** The discussion of an admission is its own normal form exactly if the citizen's text and tags are clean. */
  lemma ContentDecides(env: Env, root: NostrEvent, municipalityId: string, caseId: string)
    requires CleanIds(env, root, municipalityId, caseId)
    ensures var d := CaseDiscussion(root, municipalityId, caseId);
            NormalizeArtifact(env, d) == Ok(d) <==> CleanContent(env, root)
  {
    hide Trim;
  }

  /** The configuration of the citizen lane, with the program's own verifier of recorded adoptions. */
  ghost predicate Lane(env: Env, opt: Options, c: A.Crypto, p: A.Policy, r: Reader) {
    && VerifiedPolicy(p) && ValidOptions(opt) && opt.citizenAdoption
    && opt.jurisdiction == p.municipalityId && Clean(env, opt.policyVersion)
    && forall x :: env.verifyAdoption(false, x) == VerifyCitizenAdmission(c, p, r, x)
  }

  /** The command that admits an adoption, as its verified evidence demands it. */
  function AdmitCommand(opt: Options, v: AdoptionAdmission, actorId: string): Command {
    Command(opt.caseId, ActorBinding(actorId, CaseSteward), 0, v.idempotencyKey, opt.policyVersion,
            AdmitCitizenAdoption(v.evidence))
  }

  /** Evidence that founds the Case of the lane, sent by a registered steward. */
  predicate Admissible(env: Env, opt: Options, v: AdoptionAdmission, actorId: string) {
    && v.caseId == opt.caseId && Clean(env, v.caseId) && Clean(env, v.idempotencyKey) && |v.idempotencyKey| <= 256
    && Clean(env, actorId) && actorId in opt.actors && opt.actors[actorId].actorClass == CaseSteward
  }

  lemma AdmissionNormal(env: Env, opt: Options, v: AdoptionAdmission, actorId: string)
    requires Admissible(env, opt, v, actorId) && Clean(env, opt.policyVersion) && v.evidence.CitizenEvidence?
    ensures NormalizeCommand(env, opt, AdmitCommand(opt, v, actorId)) == Ok(AdmitCommand(opt, v, actorId))
  {
    hide Clean, NonEmpty;
    CleanIsNormal(env, v.caseId, CaseIdRequired);
    CleanIsNormal(env, actorId, ActorBindingRequired);
    CleanIsNormal(env, v.idempotencyKey, IdempotencyKeyRequired);
    CleanIsNormal(env, opt.policyVersion, PolicyVersionInvalid);
  }

  lemma AdmissionPrepared(env: Env, opt: Options, c: A.Crypto, p: A.Policy, r: Reader, e: A.Evidence, actorId: string)
    requires Sound(env) && Lane(env, opt, c, p, r)
    requires VerifyCitizenAdmission(c, p, r, CitizenEvidence(e)).Ok?
    requires Admissible(env, opt, VerifyCitizenAdmission(c, p, r, CitizenEvidence(e)).value, actorId)
    ensures var v := VerifyCitizenAdmission(c, p, r, CitizenEvidence(e)).value;
            && v.evidence == CitizenEvidence(e) && v.municipalityId == p.municipalityId
            && v.discussion == CaseDiscussion(r.root(e.bundle.events), p.municipalityId, v.caseId)
            && Prepare(env, opt, AdmitCommand(opt, v, actorId)) == Ok(PreparedAdmission(opt, v, actorId))
  {
    hide Clean, A.VerifyRecorded, A.CouldBeLive, A.ValidPolicy, NormalizeCommand, Sound;
    AdmittedIffLive(c, p, r, e);
    AdmissionNormal(env, opt, VerifyCitizenAdmission(c, p, r, CitizenEvidence(e)).value, actorId);
  }

  /** Evidence that does not verify is refused whatever the command and the journal, and nothing changes. */
  lemma UnverifiedRefused(env: Env, opt: Options, c: A.Crypto, p: A.Policy, r: Reader, j: Journal, raw: Command)
    requires Lane(env, opt, c, p, r) && raw.body.AdmitCitizenAdoption?
    requires VerifyCitizenAdmission(c, p, r, raw.body.evidence).Err?
    ensures Handle(env, opt, j, raw).0 == j && Handle(env, opt, j, raw).1.Err?
  {
    hide NonEmpty, VerifyCitizenAdmission, Replay, Resolve, Decide, Commit;
    assert env.verifyAdoption(false, raw.body.evidence).Err?;
  }

  function PreparedAdmission(opt: Options, v: AdoptionAdmission, actorId: string): Prepared
    requires actorId in opt.actors
  {
    Prepared(AdmitCommand(opt, v, actorId), opt.actors[actorId], None, Some(v))
  }

  /** A prepared adoption of the configured Case finds the empty journal and appends three events. */
  lemma AdmissionHandled(env: Env, opt: Options, v: AdoptionAdmission, actorId: string)
    requires actorId in opt.actors && v.caseId == opt.caseId && v.municipalityId == opt.jurisdiction
    requires v.evidence.CitizenEvidence?
    requires Prepare(env, opt, AdmitCommand(opt, v, actorId)) == Ok(PreparedAdmission(opt, v, actorId))
    ensures var j, raw := EmptyJournal(opt), AdmitCommand(opt, v, actorId);
            && Considered(env, opt, j, raw) == Ok((PreparedAdmission(opt, v, actorId), None))
            && Handle(env, opt, j, raw).1.Ok? && |Handle(env, opt, j, raw).0.events| == 3
  {
    hide Prepare, Step;
    FoldEmpty(env, opt);
  }

  /** No sequence of commands changes the journal, and every one of them fails. */
  ghost predicate Stuck(env: Env, opt: Options, j: Journal) {
    && (forall cmds :: RunFrom(env, opt, j, cmds) == j)
    && forall raw :: Handle(env, opt, j, raw).1.Err?
  }

  lemma {:induction false} NothingRuns(env: Env, opt: Options, j: Journal, cmds: seq<Command>)
    requires !Replays(env, opt, j)
    ensures RunFrom(env, opt, j, cmds) == j
  {
    hide Replay, Handle;
    if cmds != [] {
      NothingRuns(env, opt, j, cmds[..|cmds| - 1]);
      StuckStays(env, opt, j, cmds[|cmds| - 1]);
    }
  }

  lemma StuckForever(env: Env, opt: Options, j: Journal)
    requires !Replays(env, opt, j)
    ensures Stuck(env, opt, j)
  {
    hide Replays, Handle, RunFrom;
    forall cmds ensures RunFrom(env, opt, j, cmds) == j {
      NothingRuns(env, opt, j, cmds);
    }
    forall raw ensures Handle(env, opt, j, raw).1.Err? {
      StuckStays(env, opt, j, raw);
    }
  }

  /**
   Every admissible adoption is accepted with three events. Its journal replays exactly if the citizen's
   text and tags are clean; if they are not, every later command fails and nothing changes any more.
   */
  lemma AdoptionRuns(env: Env, opt: Options, c: A.Crypto, p: A.Policy, r: Reader, e: A.Evidence, actorId: string)
    requires Sound(env) && Lane(env, opt, c, p, r)
    requires VerifyCitizenAdmission(c, p, r, CitizenEvidence(e)).Ok?
    requires Admissible(env, opt, VerifyCitizenAdmission(c, p, r, CitizenEvidence(e)).value, actorId)
    requires CleanIds(env, r.root(e.bundle.events), p.municipalityId, opt.caseId)
    ensures var v := VerifyCitizenAdmission(c, p, r, CitizenEvidence(e)).value;
            var (next, receipt) := Handle(env, opt, EmptyJournal(opt), AdmitCommand(opt, v, actorId));
            && receipt.Ok? && |next.events| == 3
            && (Replays(env, opt, next) <==> CleanContent(env, r.root(e.bundle.events)))
            && (!CleanContent(env, r.root(e.bundle.events)) <==> Stuck(env, opt, next))
  {
    hide Trim, Sound, Replay, VerifyCitizenAdmission, CleanIds, CleanContent, NormalizeArtifact, Prepare, Handle,
      CaseDiscussion, AdmitCommand, DiscussionNormal, A.ValidPolicy, Clean;
    AdmissionPrepared(env, opt, c, p, r, e, actorId);
    var v := VerifyCitizenAdmission(c, p, r, CitizenEvidence(e)).value;
    var raw, j := AdmitCommand(opt, v, actorId), EmptyJournal(opt);
    var next := Handle(env, opt, j, raw).0;
    AdmissionHandled(env, opt, v, actorId);
    ContentDecides(env, r.root(e.bundle.events), p.municipalityId, opt.caseId);
    EmptyReplays(env, opt);
    HandleAgrees(env, opt, j, raw);
    if Replays(env, opt, next) {
      Resent(env, opt, j, raw, [], raw);
    } else {
      StuckForever(env, opt, next);
    }
  }
}
