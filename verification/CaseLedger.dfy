/** The journal as a ledger: tamper evidence, and receipts that mean the same for ever. */
module CaseLedger {
  import opened Results
  import opened CaseTypes
  import opened CaseNormalize
  import opened CaseBriefs
  import opened CaseReplay
  import opened CaseInvariants
  import opened CaseBriefFacts
  import opened CaseReachable
  import opened CaseCurrency
  import opened CaseHandle
  import opened CaseAgreement
  import opened CaseRuns

  /** The head of a journal fixes every event of it, payloads included; the empty journal has a head of its own. */
  lemma {:induction false} HeadFixesJournal(env: Env, opt: Options, a: seq<Event>, b: seq<Event>)
    requires Fold(env, opt, a).Ok? && Fold(env, opt, b).Ok?
    requires Fold(env, opt, a).value.prior == Fold(env, opt, b).value.prior
    ensures a == b
  {
    hide StepPayload;
    if a != [] && b != [] {
      var st, mid := LastStep(env, opt, a);
      var su, nid := LastStep(env, opt, b);
      var e, f := a[|a| - 1], b[|b| - 1];
      assert OfEvent(e.header) == OfEvent(f.header);
      assert OfPayload(e.payload) == OfPayload(f.payload);
      HeadFixesJournal(env, opt, a[..|a| - 1], b[..|b| - 1]);
      assert a == a[..|a| - 1] + [e] && b == b[..|b| - 1] + [f];
    } else if a != [] {
      var st, mid := LastStep(env, opt, a);
    } else if b != [] {
      var su, nid := LastStep(env, opt, b);
    }
  }

  /** Two recorded journals with one head that both replay are the same journal. */
  lemma TamperEvident(env: Env, opt: Options, a: seq<Event>, b: seq<Event>, head: Checksum)
    requires Replay(env, opt, a, head).Ok? && Replay(env, opt, b, head).Ok?
    ensures a == b
    ensures head == Genesis(opt) <==> a == []
  {
    hide Fold;
    HeadFixesJournal(env, opt, a, b);
    FoldEmpty(env, opt);
    if head == Genesis(opt) {
      HeadFixesJournal(env, opt, a, []);
    }
  }

  // Receipts.

  /**
   The receipt names consecutive events of the journal, the last of them number `caseVersion`, and the head
   after it.
   */
  ghost predicate ReceiptOk(opt: Options, events: seq<Event>, r: Receipt) {
    && 1 <= |r.eventIds| <= r.caseVersion <= |events|
    && (forall i :: 0 <= i < |r.eventIds| ==> r.eventIds[i] == events[r.caseVersion - |r.eventIds| + i].header.eventId)
    && r.journalHeadChecksum == events[r.caseVersion - 1].eventChecksum
  }

  ghost predicate TableOk(opt: Options, j: Journal) {
    forall key :: key in j.idempotency ==> ReceiptOk(opt, j.events, j.idempotency[key].receipt)
  }

  /** The table and the journal only grow. */
  ghost predicate Grows(j: Journal, next: Journal) {
    && j.events <= next.events
    && forall key :: key in j.idempotency ==> key in next.idempotency && next.idempotency[key] == j.idempotency[key]
  }

  lemma CommitKeeps(opt: Options, j: Journal, p: Prepared, parts: seq<Part>)
    requires TableOk(opt, j) && parts != [] && p.cmd.idempotencyKey !in j.idempotency
    ensures TableOk(opt, Commit(opt, j, p, parts).0) && Grows(j, Commit(opt, j, p, parts).0)
    ensures var (next, r) := Commit(opt, j, p, parts);
            next.idempotency == j.idempotency[p.cmd.idempotencyKey := IdempotencyEntry(Fingerprint(p), r)]
  {
    hide Genesis, Fingerprint;
      var (next, r) := Commit(opt, j, p, parts);
    forall key | key in next.idempotency ensures ReceiptOk(opt, next.events, next.idempotency[key].receipt) {
      if key != p.cmd.idempotencyKey {
        assert ReceiptOk(opt, j.events, j.idempotency[key].receipt);
      }
    }
  }

  /** Accepted commands append at least one event. */
  lemma DecidedParts(opt: Options, p: Prepared, existing: Option<CaseState>, count: nat)
    requires Decide(opt, p, existing, count).Ok?
    ensures Decide(opt, p, existing, count).value != []
  {
    hide DecideSigned, DecideAssign, DecideDraft, DecideReview, DecideParticipation, DecideOutcome, DecideBrief,
      DecideCorrect, DecideRetractParticipation, DecideRetract, SuggestionFor;
  }

  lemma HandleKeepsTable(env: Env, opt: Options, j: Journal, raw: Command)
    requires TableOk(opt, j)
    ensures TableOk(opt, Handle(env, opt, j, raw).0) && Grows(j, Handle(env, opt, j, raw).0)
  {
    hide Considered, Decide, Commit, TableOk, Fingerprint;
    var c := Considered(env, opt, j, raw);
    if c.Ok? {
      var (p, existing) := c.value;
      var parts := Decide(opt, p, existing, |j.events|);
      if parts.Ok? && p.cmd.idempotencyKey !in j.idempotency {
        DecidedParts(opt, p, existing, |j.events|);
        CommitKeeps(opt, j, p, parts.value);
      }
    }
  }

  /** Every stored receipt of every run names real, consecutive events and the head at its version. */
  lemma {:induction false} RunKeepsTable(env: Env, opt: Options, j: Journal, cmds: seq<Command>)
    requires TableOk(opt, j)
    ensures TableOk(opt, RunFrom(env, opt, j, cmds)) && Grows(j, RunFrom(env, opt, j, cmds))
  {
    hide Handle, TableOk;
    if cmds != [] {
      RunKeepsTable(env, opt, j, cmds[..|cmds| - 1]);
      HandleKeepsTable(env, opt, RunFrom(env, opt, j, cmds[..|cmds| - 1]), cmds[|cmds| - 1]);
    }
  }

  lemma ReceiptsOfRuns(env: Env, opt: Options, cmds: seq<Command>)
    ensures TableOk(opt, Run(env, opt, cmds))
  {
    hide RunFrom;
    RunKeepsTable(env, opt, EmptyJournal(opt), cmds);
  }

  // Repeated commands.

  /** A step after the first two events keeps the discussion. */
  lemma StepKeepsDiscussion(env: Env, opt: Options, st: CaseState, n: nat, h: Header, p: Payload)
    requires n >= 2 && StepPayload(env, opt, st, n, h, p).Ok?
    requires HasEffect(opt, st, n, h, StepPayload(env, opt, st, n, h, p).value)
    ensures StepPayload(env, opt, st, n, h, p).value.discussion == st.discussion
  {
    hide NormalizeSignedSuggestion, StepDraft, StepReview, StepCorrect, StepRetract, StepAssign, StepBrief,
      StepParticipation, StepParticipationRetracted, StepOutcome, BriefIsCurrent, ParticipationIsCurrent, DerivedFrom,
      RewrittenAt;
  }

  /** The recorded discussion never changes. */
  lemma {:induction false} DiscussionPersists(env: Env, opt: Options, events: seq<Event>, m: nat)
    requires ValidOptions(opt) && Fold(env, opt, events).Ok? && 2 <= m <= |events|
    ensures Fold(env, opt, events[..m]).Ok?
    ensures Fold(env, opt, events[..m]).value.discussion == Fold(env, opt, events).value.discussion
  {
    hide StepPayload, CheckHeader, Inv, HasEffect;
    PrefixReplays(env, opt, events, m);
    if m < |events| {
      var st, mid := LastStep(env, opt, events);
      var init, e := events[..|events| - 1], events[|events| - 1];
      ReplayedOk(env, opt, init);
      StepKeeps(env, opt, st, |init|, e.header, e.payload);
      StepKeepsDiscussion(env, opt, st, |init|, e.header, e.payload);
      DiscussionPersists(env, opt, init, m);
      assert init[..m] == events[..m];
    } else {
      assert events[..m] == events;
    }
  }

  /** A command resolves to the same fingerprint in every later journal that replays. */
  lemma ConsideredLater(env: Env, opt: Options, j: Journal, later: Journal, raw: Command)
    requires ValidOptions(opt) && Considered(env, opt, j, raw).Ok? && Replays(env, opt, later)
             && j.events <= later.events
    ensures Considered(env, opt, later, raw).Ok?
    ensures Considered(env, opt, later, raw).value.0 == Considered(env, opt, j, raw).value.0
  {
    hide Prepare, Fold, NormalizeSignedSuggestion, Inv;
    ReplayIffFold(env, opt, j.events, j.head);
    ReplayIffFold(env, opt, later.events, later.head);
    var st, su := Replay(env, opt, j.events, j.head).value, Replay(env, opt, later.events, later.head).value;
    var p := Prepare(env, opt, raw).value;
    if p.cmd.body.AdmitSignedSuggestion? {
      ReplayedOk(env, opt, j.events);
      ReplayedOk(env, opt, later.events);
      CasePresentBoth(opt, st, |j.events|, su, |later.events|);
      assert later.events[..|j.events|] == j.events;
      DiscussionPersists(env, opt, later.events, |j.events|);
    }
  }

  lemma CasePresentBoth(opt: Options, st: CaseState, m: nat, su: CaseState, n: nat)
    requires Inv(opt, st, m) && Inv(opt, su, n) && m <= n
    ensures Existing(st).Some? ==> m >= 2 && Existing(su).Some?
  {
    hide DepartmentsOk, BriefOk, ParticipationOk, OutcomeOk;
  }

  /** The entry an accepted command leaves in the table. */
  lemma AcceptedEntry(env: Env, opt: Options, j: Journal, raw: Command) returns (p: Prepared)
    requires TableOk(opt, j) && Handle(env, opt, j, raw).1.Ok?
    ensures Considered(env, opt, j, raw).Ok? && Considered(env, opt, j, raw).value.0 == p
    ensures var (next, r) := Handle(env, opt, j, raw);
            && p.cmd.idempotencyKey in next.idempotency
            && next.idempotency[p.cmd.idempotencyKey] == IdempotencyEntry(Fingerprint(p), r.value)
  {
    hide Considered, Decide, Commit, TableOk, Fingerprint;
    var c := Considered(env, opt, j, raw);
    p := c.value.0;
    if p.cmd.idempotencyKey !in j.idempotency {
      DecidedParts(opt, p, c.value.1, |j.events|);
      CommitKeeps(opt, j, p, Decide(opt, p, c.value.1, |j.events|).value);
    }
  }

  /**
   Sending an accepted command again, after any other commands, gives the same receipt and changes
   nothing, exactly as long as the journal replays; another command with its key is refused.
   */
  lemma Resent(env: Env, opt: Options, j: Journal, raw: Command, cmds: seq<Command>, other: Command)
    requires ValidOptions(opt) && TableOk(opt, j) && Handle(env, opt, j, raw).1.Ok?
    ensures var (next, r) := Handle(env, opt, j, raw);
            var later := RunFrom(env, opt, next, cmds);
            && Handle(env, opt, later, raw).0 == later
            && (Handle(env, opt, later, raw).1 == r <==> Replays(env, opt, later))
            && (Considered(env, opt, later, other).Ok? && Considered(env, opt, j, raw).Ok? ==>
                  var p, q := Considered(env, opt, j, raw).value.0, Considered(env, opt, later, other).value.0;
                  q.cmd.idempotencyKey == p.cmd.idempotencyKey ==>
                    Handle(env, opt, later, other)
                    == (later, if Fingerprint(q) == Fingerprint(p) then r else Err(IdempotencyConflict)))
  {
    hide Considered, Decide, Commit, TableOk, Fingerprint, RunFrom, Replays;
    var p := AcceptedEntry(env, opt, j, raw);
    var (next, r) := Handle(env, opt, j, raw);
    HandleKeepsTable(env, opt, j, raw);
    RunKeepsTable(env, opt, next, cmds);
    var later := RunFrom(env, opt, next, cmds);
    if Replays(env, opt, later) {
      ConsideredLater(env, opt, j, later, raw);
    } else {
      StuckStays(env, opt, later, raw);
    }
  }

  /**
   Equal fingerprints: the same actor, version, policy and effect; the same whole body for everything but an
   admission.
   */
  lemma FingerprintBinds(env: Env, opt: Options, p: Prepared, q: Prepared)
    requires Fingerprint(p) == Fingerprint(q) && p.cmd.idempotencyKey == q.cmd.idempotencyKey
    ensures EffectOf(p) == EffectOf(q)
    ensures p.topic.None? && p.adoption.None? ==> p.cmd == q.cmd && q.topic.None? && q.adoption.None?
  {
  }

  // Reopening a durable journal.

  function LastHead(opt: Options, events: seq<Event>): Checksum {
    if events == [] then Genesis(opt) else events[|events| - 1].eventChecksum
  }

  /** `loadDurableState`: the head of the recovered events, unless a replay refuses them. */
  function Reopen(env: Env, opt: Options, events: seq<Event>): Result<Checksum> {
    var head := LastHead(opt, events);
    if events == [] then Ok(head)
    else
      var st :- Replay(env, opt, events, head);
      :- Need(Existing(st).Some?, JournalChainInvalid);
      Ok(head)
  }

  /** Every call leaves the checksum of the last event as the head. */
  lemma {:induction false} RunKeepsHead(env: Env, opt: Options, j: Journal, cmds: seq<Command>)
    requires j.head == LastHead(opt, j.events)
    ensures RunFrom(env, opt, j, cmds).head == LastHead(opt, RunFrom(env, opt, j, cmds).events)
  {
    hide Considered, Decide, Fingerprint, Appended, Genesis;
    if cmds != [] {
      RunKeepsHead(env, opt, j, cmds[..|cmds| - 1]);
    }
  }

  /** The journal of a run reopens with the head it had, exactly if its discussion is in normal form. */
  lemma RunsReopen(env: Env, opt: Options, cmds: seq<Command>)
    requires Sound(env) && ValidOptions(opt)
    ensures var j := Run(env, opt, cmds);
            && (Reopen(env, opt, j.events).Ok? <==> DiscussionNormal(env, j.events))
            && (Reopen(env, opt, j.events).Ok? ==> Reopen(env, opt, j.events).value == j.head)
  {
    hide Fold, RunFrom, Sound, NormalizeArtifact, BriefOk, ParticipationOk, OutcomeOk, DepartmentsOk;
    var j := Run(env, opt, cmds);
    RunReplays(env, opt, cmds);
    RunKeepsHead(env, opt, EmptyJournal(opt), cmds);
    NoSingleEvents(env, opt, cmds);
    if j.events != [] && Replay(env, opt, j.events, j.head).Ok? {
      ReplayIffFold(env, opt, j.events, j.head);
      ReplayedOk(env, opt, j.events);
    }
  }

  /** A journal has no event or at least the two that create the Case. */
  lemma {:induction false} NoSingleEvents(env: Env, opt: Options, cmds: seq<Command>)
    requires Sound(env) && ValidOptions(opt)
    ensures |Run(env, opt, cmds).events| != 1
  {
    hide Handle, Sound, DiscussionNormal, Replay, Considered, BringsNormal;
    if cmds != [] {
      var j, raw := Run(env, opt, cmds[..|cmds| - 1]), cmds[|cmds| - 1];
      NoSingleEvents(env, opt, cmds[..|cmds| - 1]);
      RunReplays(env, opt, cmds[..|cmds| - 1]);
      if Replays(env, opt, j) {
        HandleAgrees(env, opt, j, raw);
      } else {
        StuckStays(env, opt, j, raw);
      }
    }
  }
}
