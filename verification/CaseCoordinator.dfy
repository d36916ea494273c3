/** The coordinator as the object it is: a journal, its head and the idempotency table, updated in place. */
module CaseCoordinator {
  import opened Results
  import opened CaseTypes
  import opened CaseReplay
  import opened CaseHandle

  /** The events and the checksum of the last one. */
  class JournalState {
    var events: seq<Event>
    var headChecksum: Checksum

    constructor (events: seq<Event>, headChecksum: Checksum)
      ensures this.events == events && this.headChecksum == headChecksum
    {
      this.events, this.headChecksum := events, headChecksum;
    }

    /** `appendEvent`. */
    method AppendEvent(opt: Options, actor: ActorBinding, part: Part) returns (event: Event)
      modifies this
      ensures event == MakeEvent(opt, |old(events)|, old(headChecksum), actor, part)
      ensures events == old(events) + [event] && headChecksum == event.eventChecksum
    {
      var caseVersion := |events| + 1;
      var prior := if |events| == 0 then Genesis(opt) else headChecksum;
      var header := Header(EventId(opt.caseId, caseVersion), opt.caseId, caseVersion, part.eventType, prior, actor,
                           OfPayload(part.payload), part.correctionOf);
      event := Event(header, OfEvent(header), part.payload);
      events := events + [event];
      headChecksum := event.eventChecksum;
    }

    /** The `appendEvent` calls of one command. */
    method AppendParts(opt: Options, actor: ActorBinding, parts: seq<Part>) returns (appended: seq<Event>)
      modifies this
      ensures appended == Appended(opt, |old(events)|, old(headChecksum), actor, parts)
      ensures events == old(events) + appended
      ensures headChecksum == if appended == [] then old(headChecksum) else appended[|appended| - 1].eventChecksum
    {
      hide MakeEvent, Appended;
      appended := [];
      var n := 0;
      while n < |parts|
        invariant 0 <= n <= |parts|
        invariant events == old(events) + appended && |appended| == n
        invariant headChecksum == if n == 0 then old(headChecksum) else appended[n - 1].eventChecksum
        invariant Appended(opt, |old(events)|, old(headChecksum), actor, parts)
               == appended + Appended(opt, |events|, headChecksum, actor, parts[n..])
      {
        assert parts[n..][0] == parts[n] && parts[n..][1..] == parts[n + 1..];
        AppendedFirst(opt, |events|, headChecksum, actor, parts[n..]);
        var event := AppendEvent(opt, actor, parts[n]);
        appended := appended + [event];
        n := n + 1;
      }
      AppendedNothing(opt, |events|, headChecksum, actor);
    }

    /** `replayJournal`: one pass over the events, refusing the journal at the first event it does not believe. */
    method ReplayJournal(env: Env, opt: Options) returns (r: Result<CaseState>)
      ensures r == Replay(env, opt, events, headChecksum)
    {
      hide Step;
      var st := InitialState(opt);
      var index := 0;
      assert events[..0] == [];
      while index < |events|
        invariant 0 <= index <= |events|
        invariant Fold(env, opt, events[..index]) == Ok(st)
      {
        assert events[..index + 1][..index] == events[..index];
        var next := Step(env, opt, st, index, events[index]);
        if next.Err? {
          RefusedPrefix(env, opt, events, index + 1);
          return Err(next.code);
        }
        st := next.value;
        index := index + 1;
      }
      assert events[..index] == events;
      if headChecksum != st.prior {
        return Err(CHAIN);
      }
      if opt.requiredDepartmentIds.Some? && |st.departments| > |opt.requiredDepartmentIds.value| {
        return Err(CHAIN);
      }
      return Ok(st);
    }
  }

  lemma AppendedFirst(opt: Options, count: nat, head: Checksum, actor: ActorBinding, parts: seq<Part>)
    requires parts != []
    ensures var e := MakeEvent(opt, count, head, actor, parts[0]);
            Appended(opt, count, head, actor, parts)
            == [e] + Appended(opt, count + 1, e.eventChecksum, actor, parts[1..])
  {
    hide MakeEvent;
  }

  lemma AppendedNothing(opt: Options, count: nat, head: Checksum, actor: ActorBinding)
    ensures Appended(opt, count, head, actor, []) == []
  {
  }

  /** A journal fails like its first prefix that fails. */
  lemma {:induction false} RefusedPrefix(env: Env, opt: Options, events: seq<Event>, m: nat)
    requires m <= |events| && Fold(env, opt, events[..m]).Err?
    ensures Fold(env, opt, events) == Fold(env, opt, events[..m])
  {
    hide Step;
    if m < |events| {
      var init := events[..|events| - 1];
      assert init[..m] == events[..m];
      RefusedPrefix(env, opt, init, m);
    } else {
      assert events[..m] == events;
    }
  }

  class CivicCaseCoordinator {
    const env: Env
    const opt: Options
    const state: JournalState
    var idempotency: map<string, IdempotencyEntry>

    /** The journal as a value. */
    function View(): Journal
      reads this, state
    {
      Journal(state.events, state.headChecksum, idempotency)
    }

    constructor (env: Env, opt: Options)
      ensures View() == EmptyJournal(opt) && this.env == env && this.opt == opt && fresh(state)
    {
      this.env, this.opt := env, opt;
      this.state := new JournalState([], Genesis(opt));
      this.idempotency := map[];
    }

    /** `handle`: the journal and the answer are those of the function `Handle` on the old journal. */
    method HandleCommand(raw: Command) returns (r: Result<Receipt>)
      modifies this, state
      ensures (View(), r) == CaseHandle.Handle(env, opt, old(View()), raw)
    {
      hide Prepare, Replay, Resolve, Decide, Fingerprint, Appended, Genesis, Existing;
      var prepared := Prepare(env, opt, raw);
      if prepared.Err? {
        return Err(prepared.code);
      }
      var replayed := state.ReplayJournal(env, opt);
      if replayed.Err? {
        return Err(replayed.code);
      }
      var resolved := Resolve(env, opt, prepared.value, Existing(replayed.value));
      if resolved.Err? {
        return Err(resolved.code);
      }
      var p := resolved.value;
      var key := p.cmd.idempotencyKey;
      if key in idempotency {
        return if idempotency[key].fingerprint == Fingerprint(p) then Ok(idempotency[key].receipt)
          else Err(IdempotencyConflict);
      }
      if p.cmd.expectedCaseVersion != |state.events| {
        return Err(CaseVersionConflict);
      }
      var decided := Decide(opt, p, Existing(replayed.value), |state.events|);
      if decided.Err? {
        return Err(decided.code);
      }
      var parts := decided.value;
      var nextState := new JournalState(state.events, state.headChecksum);
      var appended := nextState.AppendParts(opt, p.cmd.actor, parts);
      var receipt := Receipt(|nextState.events|,
                             seq(|appended|, i requires 0 <= i < |appended| => appended[i].header.eventId),
                             nextState.headChecksum);
      state.events := nextState.events;
      state.headChecksum := nextState.headChecksum;
      idempotency := idempotency[key := IdempotencyEntry(Fingerprint(p), receipt)];
      assert (View(), receipt) == Commit(opt, old(View()), p, parts);
      return Ok(receipt);
    }
  }
}
