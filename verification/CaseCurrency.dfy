/**
 When a recorded brief, participation or outcome is current. The program recomputes this from event
 ids and checksums; here it is characterised by the events that follow in the journal, from which it
 is clear that nothing stale comes back.
 */
module CaseCurrency {
  import opened Results
  import opened CaseTypes
  import opened CaseBriefs
  import opened CaseReplay
  import opened CaseInvariants
  import opened CaseBriefFacts
  import opened CaseReachable

  const DEPARTMENT_EVENTS: set<EventType> := {DraftRecordedV1, ReviewAttestedV1, DraftCorrectedV1, ResponseRetractedV1}

  /** Event number `k` has type `t` and no later event is a breaker. */
  predicate Stands(events: seq<Event>, k: nat, t: EventType, breakers: set<EventType>) {
    && k < |events| && events[k].header.eventType == t
    && forall j :: k < j < |events| ==> events[j].header.eventType !in breakers
  }

  /** A brief stands until a department event or another brief. */
  predicate BriefStands(events: seq<Event>, k: nat) {
    Stands(events, k, BriefDerivedV1, DEPARTMENT_EVENTS + {BriefDerivedV1})
  }

  /** A participation, or an outcome, stands until its brief does not or the participation is retracted. */
  predicate ParticipationStands(events: seq<Event>, k: nat) {
    Stands(events, k, ParticipationRecordedV1, DEPARTMENT_EVENTS + {BriefDerivedV1, ParticipationRetractedV1})
  }

  predicate OutcomeStands(events: seq<Event>, k: nat) {
    Stands(events, k, OutcomeRecordedV1, DEPARTMENT_EVENTS + {BriefDerivedV1, ParticipationRetractedV1})
  }

  /** The brief of the state is current, and it is the one of event number `k`. */
  predicate BriefCurrentAt(opt: Options, st: CaseState, k: nat) {
    BriefIsCurrent(opt, st) && st.brief.value.eventId.version == k + 1
  }

  predicate ParticipationCurrentAt(opt: Options, st: CaseState, k: nat) {
    ParticipationIsCurrent(opt, st) && st.participation.value.eventId.version == k + 1
  }

  predicate OutcomeCurrentAt(opt: Options, st: CaseState, k: nat) {
    OutcomeIsCurrent(opt, st) && st.outcome.value.eventId.version == k + 1
  }

  // The states along a journal.

  /** The last step of a replay. */
  lemma LastStep(env: Env, opt: Options, events: seq<Event>) returns (st: CaseState, mid: CaseState)
    requires events != [] && Fold(env, opt, events).Ok?
    ensures Fold(env, opt, events[..|events| - 1]) == Ok(st)
    ensures CheckHeader(opt, st.prior, |events| - 1, events[|events| - 1]).Pass?
    ensures events[|events| - 1].header.eventId == EventId(opt.caseId, |events|)
    ensures StepPayload(env, opt, st, |events| - 1, events[|events| - 1].header, events[|events| - 1].payload)
         == Ok(mid)
    ensures Fold(env, opt, events) == Ok(mid.(prior := events[|events| - 1].eventChecksum))
  {
    hide StepPayload;
    st := Fold(env, opt, events[..|events| - 1]).value;
    mid := StepPayload(env, opt, st, |events| - 1, events[|events| - 1].header, events[|events| - 1].payload).value;
  }

  lemma PriorFramed(opt: Options, st: CaseState, n: nat, sum: Checksum)
    ensures Inv(opt, st.(prior := sum), n) == Inv(opt, st, n)
    ensures BriefIsCurrent(opt, st.(prior := sum)) == BriefIsCurrent(opt, st)
    ensures ParticipationIsCurrent(opt, st.(prior := sum)) == ParticipationIsCurrent(opt, st)
    ensures OutcomeIsCurrent(opt, st.(prior := sum)) == OutcomeIsCurrent(opt, st)
  {
    hide BriefIsCurrent, AllPinned;
    CurrencyFramed(opt, st, st.(prior := sum));
  }

  /** Every state that a replay reaches satisfies the invariant. */
  lemma {:induction false} ReplayedOk(env: Env, opt: Options, events: seq<Event>)
    requires ValidOptions(opt) && Fold(env, opt, events).Ok?
    ensures Inv(opt, Fold(env, opt, events).value, |events|)
  {
    hide StepPayload, CheckHeader, BriefIsCurrent, AllPinned;
    if events != [] {
      var st, mid := LastStep(env, opt, events);
      ReplayedOk(env, opt, events[..|events| - 1]);
      var e := events[|events| - 1];
      StepKeeps(env, opt, st, |events| - 1, e.header, e.payload);
      PriorFramed(opt, mid, |events|, e.eventChecksum);
    }
  }

  /** A prefix of a journal that replays also replays. */
  lemma {:induction false} PrefixReplays(env: Env, opt: Options, events: seq<Event>, m: nat)
    requires m <= |events| && Fold(env, opt, events).Ok?
    ensures Fold(env, opt, events[..m]).Ok?
  {
    hide StepPayload, CheckHeader;
    if m < |events| {
      var init := events[..|events| - 1];
      PrefixReplays(env, opt, init, m);
      assert init[..m] == events[..m];
    } else {
      assert events[..m] == events;
    }
  }

  // What one step does to currency.

  lemma StandsStep(events: seq<Event>, k: nat, t: EventType, breakers: set<EventType>)
    requires events != []
    ensures var n := |events| - 1;
            Stands(events, k, t, breakers) <==>
            if k == n then events[n].header.eventType == t
            else Stands(events[..n], k, t, breakers) && events[n].header.eventType !in breakers
  {
    var n := |events| - 1;
    if k < n && Stands(events, k, t, breakers) {
      assert events[..n][k] == events[k];
    }
    if k < n && Stands(events[..n], k, t, breakers) && events[n].header.eventType !in breakers {
      forall j | k < j < |events| ensures events[j].header.eventType !in breakers {
        if j < n {
          assert events[..n][j] == events[j];
        }
      }
    }
  }

  /** A brief is current when it is derived; department events and new briefs end that; no other event touches it. */
  lemma BriefStep(opt: Options, st: CaseState, n: nat, h: Header, next: CaseState, k: nat)
    requires ValidOptions(opt) && Inv(opt, st, n) && k <= n
    requires h.eventId.version == n + 1 && HasEffect(opt, st, n, h, next)
    ensures BriefCurrentAt(opt, next, k) <==>
            if k == n then h.eventType == BriefDerivedV1
            else BriefCurrentAt(opt, st, k) && h.eventType !in DEPARTMENT_EVENTS + {BriefDerivedV1}
  {
    hide BriefIsCurrent, AllPinned, DerivedFrom, Covers;
    match h.eventType
    case PackageAssignedV1 => AssignKeeps(opt, st, n, next); CurrentPinned(opt, st); CurrentPinned(opt, next);
    case DraftRecordedV1 => DepartmentKeeps(opt, st, n, next); CurrentPinned(opt, next);
    case ReviewAttestedV1 => DepartmentKeeps(opt, st, n, next); CurrentPinned(opt, next);
    case DraftCorrectedV1 => DepartmentKeeps(opt, st, n, next); CurrentPinned(opt, next);
    case ResponseRetractedV1 => DepartmentKeeps(opt, st, n, next); CurrentPinned(opt, next);
    case BriefDerivedV1 => BriefKeeps(opt, st, n, h, next);
    case ParticipationRecordedV1 => CurrencyFramed(opt, st, next); CurrentPinned(opt, next);
    case ParticipationRetractedV1 => CurrencyFramed(opt, st, next); CurrentPinned(opt, next);
    case OutcomeRecordedV1 => CurrencyFramed(opt, st, next); CurrentPinned(opt, next);
    case _ => NoDepartmentsNoBrief(opt, st, n); CurrentPinned(opt, st); CurrentPinned(opt, next);
  }

  /** A current brief is there and has all its pins. */
  lemma CurrentPinned(opt: Options, st: CaseState)
    ensures BriefIsCurrent(opt, st) ==> st.brief.Some? && AllPinned(st)
  {
  }

  /** A current participation has a current brief with its event id, and has not been retracted. */
  lemma ParticipationIsCurrentMeans(opt: Options, st: CaseState, n: nat)
    requires Inv(opt, st, n)
    ensures ParticipationIsCurrent(opt, st) <==>
            && st.participation.Some? && BriefIsCurrent(opt, st) && !st.participation.value.retracted
            && st.participation.value.sourceBrief.briefEventId == st.brief.value.eventId
  {
    hide BriefIsCurrent, AllPinned;
    CurrentPinned(opt, st);
  }

  /** A recorded outcome is current exactly while its participation is. */
  lemma OutcomeIsCurrentMeans(opt: Options, st: CaseState, n: nat)
    requires Inv(opt, st, n)
    ensures OutcomeIsCurrent(opt, st) <==> st.outcome.Some? && ParticipationIsCurrent(opt, st)
  {
    hide BriefIsCurrent, AllPinned;
    CurrentPinned(opt, st);
  }

  lemma ParticipationStep(opt: Options, st: CaseState, n: nat, h: Header, next: CaseState, k: nat)
    requires ValidOptions(opt) && Inv(opt, st, n) && Inv(opt, next, n + 1) && k <= n
    requires h.eventId.version == n + 1 && HasEffect(opt, st, n, h, next)
    ensures ParticipationCurrentAt(opt, next, k) <==>
            if k == n then h.eventType == ParticipationRecordedV1
            else
              ParticipationCurrentAt(opt, st, k)
              && h.eventType !in DEPARTMENT_EVENTS + {BriefDerivedV1, ParticipationRetractedV1}
  {
    hide BriefIsCurrent, AllPinned, DerivedFrom, Covers, ParticipationIsCurrent;
    ParticipationIsCurrentMeans(opt, st, n);
    ParticipationIsCurrentMeans(opt, next, n + 1);
    CurrentPinned(opt, st);
    CurrentPinned(opt, next);
    if st.brief.Some? {
      BriefStep(opt, st, n, h, next, st.brief.value.eventId.version - 1);
      assert BriefIsCurrent(opt, st) <==> BriefCurrentAt(opt, st, st.brief.value.eventId.version - 1);
    }
    match h.eventType
    case PackageAssignedV1 => AssignKeeps(opt, st, n, next);
    case ParticipationRecordedV1 => CurrencyFramed(opt, st, next);
    case ParticipationRetractedV1 =>
    case OutcomeRecordedV1 => CurrencyFramed(opt, st, next);
    case BriefDerivedV1 =>
    case DraftRecordedV1 => DepartmentKeeps(opt, st, n, next);
    case ReviewAttestedV1 => DepartmentKeeps(opt, st, n, next);
    case DraftCorrectedV1 => DepartmentKeeps(opt, st, n, next);
    case ResponseRetractedV1 => DepartmentKeeps(opt, st, n, next);
    case _ => NoDepartmentsNoBrief(opt, st, n);
  }

  lemma OutcomeStep(opt: Options, st: CaseState, n: nat, h: Header, next: CaseState, k: nat)
    requires ValidOptions(opt) && Inv(opt, st, n) && Inv(opt, next, n + 1) && k <= n
    requires h.eventId.version == n + 1 && HasEffect(opt, st, n, h, next)
    ensures OutcomeCurrentAt(opt, next, k) <==>
            if k == n then h.eventType == OutcomeRecordedV1
            else
              OutcomeCurrentAt(opt, st, k)
              && h.eventType !in DEPARTMENT_EVENTS + {BriefDerivedV1, ParticipationRetractedV1}
  {
    hide BriefIsCurrent, AllPinned, DerivedFrom, Covers, OutcomeIsCurrent;
    OutcomeIsCurrentMeans(opt, st, n);
    OutcomeIsCurrentMeans(opt, next, n + 1);
    if st.participation.Some? {
      ParticipationStep(opt, st, n, h, next, st.participation.value.eventId.version - 1);
    }
    match h.eventType
    case PackageAssignedV1 => AssignKeeps(opt, st, n, next);
    case OutcomeRecordedV1 => CurrencyFramed(opt, st, next);
    case ParticipationRecordedV1 =>
    case ParticipationRetractedV1 =>
    case BriefDerivedV1 =>
    case DraftRecordedV1 =>
    case ReviewAttestedV1 =>
    case DraftCorrectedV1 =>
    case ResponseRetractedV1 =>
    case _ => NoDepartmentsNoBrief(opt, st, n);
  }

  // Over whole journals.

  /** Currency, recomputed by the program from ids and checksums, is exactly standing in the journal. */
  ghost predicate CurrencyIsStanding(opt: Options, events: seq<Event>, st: CaseState) {
    forall k :: 0 <= k < |events| ==>
                  && (BriefCurrentAt(opt, st, k) <==> BriefStands(events, k))
                  && (ParticipationCurrentAt(opt, st, k) <==> ParticipationStands(events, k))
                  && (OutcomeCurrentAt(opt, st, k) <==> OutcomeStands(events, k))
  }

  lemma StandingStep(opt: Options, events: seq<Event>, st: CaseState, next: CaseState)
    requires events != [] && ValidOptions(opt)
    requires Inv(opt, st, |events| - 1) && CurrencyIsStanding(opt, events[..|events| - 1], st)
    requires Inv(opt, next, |events|) && events[|events| - 1].header.eventId.version == |events|
    requires HasEffect(opt, st, |events| - 1, events[|events| - 1].header, next)
    ensures CurrencyIsStanding(opt, events, next)
  {
    hide BriefCurrentAt, ParticipationCurrentAt, OutcomeCurrentAt, Inv, HasEffect, Stands;
    var n, h := |events| - 1, events[|events| - 1].header;
    forall k | 0 <= k < |events|
      ensures BriefCurrentAt(opt, next, k) <==> BriefStands(events, k)
      ensures ParticipationCurrentAt(opt, next, k) <==> ParticipationStands(events, k)
      ensures OutcomeCurrentAt(opt, next, k) <==> OutcomeStands(events, k)
    {
      BriefStep(opt, st, n, h, next, k);
      ParticipationStep(opt, st, n, h, next, k);
      OutcomeStep(opt, st, n, h, next, k);
      StandsStep(events, k, BriefDerivedV1, DEPARTMENT_EVENTS + {BriefDerivedV1});
      StandsStep(events, k, ParticipationRecordedV1, DEPARTMENT_EVENTS + {BriefDerivedV1, ParticipationRetractedV1});
      StandsStep(events, k, OutcomeRecordedV1, DEPARTMENT_EVENTS + {BriefDerivedV1, ParticipationRetractedV1});
    }
  }

  lemma {:induction false} ReplayedCurrency(env: Env, opt: Options, events: seq<Event>)
    requires ValidOptions(opt) && Fold(env, opt, events).Ok?
    ensures CurrencyIsStanding(opt, events, Fold(env, opt, events).value)
  {
    hide StepPayload, CheckHeader, BriefIsCurrent, Inv, HasEffect, BriefStands, ParticipationStands, OutcomeStands,
      ParticipationIsCurrent, OutcomeIsCurrent, Inv, HasEffect;
    if events != [] {
      var st, mid := LastStep(env, opt, events);
      var n, e := |events| - 1, events[|events| - 1];
      ReplayedOk(env, opt, events[..n]);
      ReplayedCurrency(env, opt, events[..n]);
      StepKeeps(env, opt, st, n, e.header, e.payload);
      StandingStep(opt, events, st, mid);
      PriorFramed(opt, mid, |events|, e.eventChecksum);
    }
  }

  lemma StandsBefore(events: seq<Event>, m: nat, k: nat, t: EventType, breakers: set<EventType>)
    requires k < m <= |events| && Stands(events, k, t, breakers)
    ensures Stands(events[..m], k, t, breakers)
  {
  }

  /**
   No revival: an event that is current after the whole journal was current after every prefix that
   contains it. So what stopped being current is never current again, whatever is recorded later.
   */
  lemma NoRevival(env: Env, opt: Options, events: seq<Event>, m: nat, k: nat)
    requires ValidOptions(opt) && Fold(env, opt, events).Ok? && k < m <= |events|
    ensures Fold(env, opt, events[..m]).Ok?
    ensures var before, after := Fold(env, opt, events[..m]).value, Fold(env, opt, events).value;
            && (!BriefCurrentAt(opt, before, k) ==> !BriefCurrentAt(opt, after, k))
            && (!ParticipationCurrentAt(opt, before, k) ==> !ParticipationCurrentAt(opt, after, k))
            && (!OutcomeCurrentAt(opt, before, k) ==> !OutcomeCurrentAt(opt, after, k))
  {
    hide Step, BriefCurrentAt, ParticipationCurrentAt, OutcomeCurrentAt, Stands;
    PrefixReplays(env, opt, events, m);
    ReplayedCurrency(env, opt, events);
    ReplayedCurrency(env, opt, events[..m]);
    if BriefStands(events, k) {
      StandsBefore(events, m, k, BriefDerivedV1, DEPARTMENT_EVENTS + {BriefDerivedV1});
    }
    if ParticipationStands(events, k) {
      StandsBefore(events, m, k, ParticipationRecordedV1,
                   DEPARTMENT_EVENTS + {BriefDerivedV1, ParticipationRetractedV1});
    }
    if OutcomeStands(events, k) {
      StandsBefore(events, m, k, OutcomeRecordedV1, DEPARTMENT_EVENTS + {BriefDerivedV1, ParticipationRetractedV1});
    }
  }
}
