/**
 Against an append-only log the projector shows the log, whatever the page boundaries and however the log
 grows meanwhile.
 */
module OutboxRefinement {
  import opened Results
  import opened Json
  import opened CaseReceipt
  import opened OutboxWire
  import opened OutboxRoundTrip
  import opened OutboxProjector
  import B = BindingProjection

  /** A log that an outbox may hold: verified receipts at increasing sequences, no checksum, Case or root twice. */
  ghost predicate IsLog(digest: Digest, log: seq<Entry>) {
    GoodEntries(digest, 0, log) && |log| <= MAX_RECEIPTS
  }

  /** The log when the `call`-th request is answered. */
  type Logs = nat -> seq<Entry>

  ghost predicate Growing(digest: Digest, logs: Logs) {
    && (forall k: nat :: IsLog(digest, logs(k)))
    && (forall j: nat, k: nat :: j <= k ==> logs(j) <= logs(k))
  }

  /** The entries after a cursor. */
  function Behind(log: seq<Entry>, cursor: nat): seq<Entry> {
    if log == [] || log[0].sequence > cursor then log else Behind(log[1..], cursor)
  }

  /** The first `k` of the given entries: at least one, if there is one, and at most a page. */
  ghost predicate PageOf(page: seq<Value>, rest: seq<Entry>, k: nat) {
    && k <= |rest| && k <= PAGE_SIZE && (k == 0 <==> rest == []) && page == EntryValues(rest[..k])
  }

  ghost predicate TruthfulAnswer(answer: Option<seq<Value>>, rest: seq<Entry>) {
    answer.Some? ==> exists k: nat :: PageOf(answer.value, rest, k)
  }

  /** Every request fails, or is answered with the next entries of the log, as many as the source likes. */
  ghost predicate Truthful(source: Source, logs: Logs) {
    forall call, cursor :: TruthfulAnswer(source(call, cursor), Behind(logs(call), cursor))
  }

  /** No request fails. */
  ghost predicate Answering(source: Source) {
    forall call, cursor :: source(call, cursor).Some?
  }

  ghost predicate Honest(source: Source, logs: Logs) {
    Truthful(source, logs) && Answering(source)
  }

  /** There are honest sources for any logs, whatever the size of their pages. */
  lemma HonestSourceExists(logs: Logs, size: nat) returns (source: Source)
    requires 1 <= size <= PAGE_SIZE
    ensures Honest(source, logs)
  {
    hide EntryValues, Behind;
    source := (call: nat, cursor: nat) => Some(EntryValues(FirstOf(Behind(logs(call), cursor), size)));
    forall call: nat, cursor: nat ensures TruthfulAnswer(source(call, cursor), Behind(logs(call), cursor)) {
      var rest := Behind(logs(call), cursor);
      assert PageOf(source(call, cursor).value, rest, if size < |rest| then size else |rest|);
    }
  }

  function FirstOf(es: seq<Entry>, size: nat): seq<Entry> {
    es[..if size < |es| then size else |es|]
  }

  lemma {:induction false} BehindPrefix(digest: Digest, log: seq<Entry>, t: nat)
    requires GoodEntries(digest, 0, log) && t <= |log|
    ensures Behind(log, Last(0, log[..t])) == log[t..]
  {
    hide GoodEntry, Checksum, CaseOf, RootOf;
    BehindFrom(log, Last(0, log[..t]), t);
  }

  lemma {:induction false} BehindFrom(log: seq<Entry>, cursor: nat, t: nat)
    requires t <= |log|
    requires forall i :: 0 <= i < t ==> log[i].sequence <= cursor
    requires forall i :: t <= i < |log| ==> log[i].sequence > cursor
    ensures Behind(log, cursor) == log[t..]
  {
    if t > 0 {
      BehindFrom(log[1..], cursor, t - 1);
    }
  }

  /** Reading `log[t..]` with `log[..m]` held. */
  function At(log: seq<Entry>, m: nat, t: nat, calls: nat): Reading
    requires m <= t <= |log|
  {
    Reading(log[m..t], Last(0, log[..t]), calls)
  }

  lemma TakesOne(digest: Digest, log: seq<Entry>, m: nat, t: nat, calls: nat)
    requires IsLog(digest, log) && m <= t < |log|
    ensures TakeEntry(digest, ReceiptsOf(log[..m]), At(log, m, t, calls), EntryValue(log[t]))
         == Done(At(log, m, t + 1, calls))
  {
    hide ReadEntry, EntryValue, GoodEntry, CaseOf, RootOf, TextOf;
    var e := log[t];
    EntryReadsBack(digest, e, Last(0, log[..t]));
    assert log[m..t] + [e] == log[m..t + 1];
    forall r | r in ReceiptsOf(log[..m]) ensures TextOf(r, "receiptChecksum") != Checksum(e) {
      var i :| 0 <= i < m && ReceiptsOf(log[..m])[i] == r;
      assert log[i].receipt == r && Checksum(log[i]) != Checksum(e);
    }
    forall d | d in log[m..t] ensures Checksum(d) != Checksum(e) {
      var i :| 0 <= i < t - m && log[m..t][i] == d;
      assert log[m + i] == d;
    }
  }

  lemma {:induction false} TakesHonestPage(digest: Digest, log: seq<Entry>, m: nat, t: nat, k: nat, calls: nat)
    requires IsLog(digest, log) && m <= t && t + k <= |log|
    ensures TakePage(digest, ReceiptsOf(log[..m]), At(log, m, t, calls), EntryValues(log[t..t + k]))
         == Done(At(log, m, t + k, calls))
  {
    hide TakeEntry, EntryValue, IsLog, ReceiptsOf;
    var vs := EntryValues(log[t..t + k]);
    if k > 0 {
      TakesHonestPage(digest, log, m, t, k - 1, calls);
      assert vs[..k - 1] == EntryValues(log[t..t + k - 1]);
      TakesOne(digest, log, m, t + k - 1, calls);
    }
  }

  /**
   Reading a truthful source fails with one of its requests, or ends behind the last entry that the log had
   at the last one.
   */
  lemma {:induction false} ReadsTheLog(digest: Digest, source: Source, logs: Logs, log: seq<Entry>, m: nat, t: nat,
                                       calls: nat)
    requires Growing(digest, logs) && Truthful(source, logs) && log == logs(calls) && m <= t <= |log|
    ensures |ReceiptsOf(log[..m])| + |At(log, m, t, calls).pending| <= MAX_RECEIPTS
    ensures var r := ReadPending(digest, ReceiptsOf(log[..m]), At(log, m, t, calls), source);
            && (r.Failed? ==> r.error == SourceFailed && !Answering(source))
            && (r.Done? ==>
                  && r.reading.calls > calls && log <= logs(r.reading.calls - 1)
                  && r.reading == At(logs(r.reading.calls - 1), m, |logs(r.reading.calls - 1)|, r.reading.calls))
    decreases MAX_RECEIPTS - t
  {
    hide TakePage, IsLog, ReadPending, EntryValues, At, Last, ReceiptsOf, Behind;
    assert IsLog(digest, log);
    LogBounds(digest, log, m, t, calls);
    var held := ReceiptsOf(log[..m]);
    var x := At(log, m, t, calls);
    ReadPendingStep(digest, held, x, source);
    BehindPrefix(digest, log, t);
    assert x.cursor == Last(0, log[..t]) && x.calls == calls;
    assert TruthfulAnswer(source(calls, x.cursor), log[t..]);
    if source(calls, x.cursor).None? {
      return;
    }
    var page := source(calls, x.cursor).value;
    var k: nat :| PageOf(page, log[t..], k);
    PageLength(page, log[t..], k);
    if k > 0 {
      assert log[t..][..k] == log[t..t + k];
      TakesHonestPage(digest, log, m, t, k, calls + 1);
      var next := logs(calls + 1);
      assert log <= next;
      SameInLonger(log, next, m, t + k, calls + 1);
      ReadsTheLog(digest, source, logs, next, m, t + k, calls + 1);
    }
  }

  lemma LogBounds(digest: Digest, log: seq<Entry>, m: nat, t: nat, calls: nat)
    requires IsLog(digest, log) && m <= t <= |log|
    ensures GoodEntries(digest, 0, log)
    ensures |ReceiptsOf(log[..m])| + |At(log, m, t, calls).pending| == t <= |log| <= MAX_RECEIPTS
    ensures At(log, m, t, calls).cursor == Last(0, log[..t]) && At(log, m, t, calls).calls == calls
    ensures At(log, m, t, calls).(calls := calls + 1) == At(log, m, t, calls + 1)
  {
    hide GoodEntries;
  }

  lemma SameInLonger(log: seq<Entry>, next: seq<Entry>, m: nat, t: nat, calls: nat)
    requires log <= next && m <= t <= |log|
    ensures At(log, m, t, calls) == At(next, m, t, calls) && next[..m] == log[..m]
  {
    assert next[m..t] == log[m..t] && next[..t] == log[..t];
  }

  lemma PageLength(page: seq<Value>, rest: seq<Entry>, k: nat)
    requires PageOf(page, rest, k)
    ensures |page| == k
  {
  }

  /** The state shows exactly the log. */
  ghost predicate Tracks(digest: Digest, st: State, log: seq<Entry>) {
    && st.receipts == ReceiptsOf(log) && st.afterSequence == Last(0, log)
    && B.RecordAll(digest, st.receipts) == B.Recorded(st.active)
  }

  /** The receipts of a log can be projected. */
  lemma LogsProject(digest: Digest, log: seq<Entry>)
    requires IsLog(digest, log)
    ensures B.RecordAll(digest, ReceiptsOf(log)).Recorded?
  {
    hide B.RecordAll, VerifyReceipt, Normal, TextOf;
    var rs := ReceiptsOf(log);
    forall i | 0 <= i < |rs| ensures Normal(rs[i]) == rs[i] && VerifyReceipt(digest, rs[i]).Verified? {
      assert GoodEntry(digest, log[i]);
      B.VerifiedIsPlain(digest, rs[i]);
    }
    forall i, j | 0 <= i < |rs| && 0 <= j < |rs| ensures B.Compatible(Normal(rs[i]), Normal(rs[j])) {
      if i < j {
        assert CaseOf(log[i]) != CaseOf(log[j]) && RootOf(log[i]) != RootOf(log[j]);
      } else if j < i {
        assert CaseOf(log[j]) != CaseOf(log[i]) && RootOf(log[j]) != RootOf(log[i]);
      }
    }
    B.AcceptedLists(digest, rs, rs);
  }

  /**
   A reconcile against a truthful source fails only with one of its requests; if it succeeds, the state
   shows the log as it was at the last request.
   */
  lemma ReconcileFollowsTheLog(digest: Digest, source: Source, logs: Logs, st: State, shown: seq<Entry>, calls: nat)
    requires Growing(digest, logs) && Truthful(source, logs) && shown <= logs(calls) && Tracks(digest, st, shown)
    ensures |st.receipts| <= MAX_RECEIPTS
    ensures var r := Reconcile(digest, st, source, calls);
            && (r.Unreconciled? ==> r.error == SourceFailed && !Answering(source))
            && (r.Reconciled? ==>
                  && r.calls > calls && shown <= logs(r.calls - 1) && Tracks(digest, r.state, logs(r.calls - 1))
                  && r.applied == |logs(r.calls - 1)| - |shown|)
  {
    hide ReadPending, IsLog, B.RecordAll, Truthful, Answering, Last, ReceiptsOf;
    var log, m := logs(calls), |shown|;
    assert IsLog(digest, log);
    assert log[..m] == shown && log[m..m] == [];
    ReadsTheLog(digest, source, logs, log, m, m, calls);
    var read := ReadPending(digest, ReceiptsOf(shown), At(log, m, m, calls), source);
    if read.Done? {
      var last := logs(read.reading.calls - 1);
      assert IsLog(digest, last);
      PrefixAndRest(shown, last);
      if read.reading.pending != [] {
        LogsProject(digest, last);
      }
    }
  }

  /** A longer log is the shorter one and what comes after it. */
  lemma PrefixAndRest(shown: seq<Entry>, last: seq<Entry>)
    requires shown <= last
    ensures var rest := last[|shown|..|last|];
            && |rest| == |last| - |shown|
            && (rest == [] ==> last == shown)
            && (rest != [] ==> Last(0, last) == rest[|rest| - 1].sequence)
            && ReceiptsOf(shown) + ReceiptsOf(rest) == ReceiptsOf(last)
            && last[..|last|] == last
  {
  }

  /** A new projector on a log that does not change shows it after one reconcile. */
  lemma FreshTracks(digest: Digest, source: Source, log: seq<Entry>)
    requires IsLog(digest, log) && Honest(source, _ => log)
    ensures Reconcile(digest, INITIAL, source, 0).Reconciled?
            && Tracks(digest, Reconcile(digest, INITIAL, source, 0).state, log)
  {
    hide Reconcile, Truthful, Answering, IsLog, B.RecordAll, Tracks;
    var logs: Logs := _ => log;
    assert Growing(digest, logs);
    InitialTracks(digest);
    ReconcileFollowsTheLog(digest, source, logs, INITIAL, [], 0);
  }

  // Many reconciles.

  /** One reconcile: the source it asks, and the log while it asks. */
  datatype Round = Round(source: Source, logs: Logs)

  /** The state after a sequence of reconciles; one that fails changes nothing. */
  function ReconcileAll(digest: Digest, rounds: seq<Round>): (st: State)
    ensures |st.receipts| <= MAX_RECEIPTS
  {
    if rounds == [] then INITIAL
    else
      var st := ReconcileAll(digest, rounds[..|rounds| - 1]);
      var r := Reconcile(digest, st, rounds[|rounds| - 1].source, 0);
      if r.Unreconciled? then st
      else
        assert |r.state.receipts| <= MAX_RECEIPTS by { ReconcileBounded(digest, st, rounds[|rounds| - 1].source, 0); }
        r.state
  }

  lemma ReconcileBounded(digest: Digest, st: State, source: Source, calls: nat)
    requires |st.receipts| <= MAX_RECEIPTS && Reconcile(digest, st, source, calls).Reconciled?
    ensures |Reconcile(digest, st, source, calls).state.receipts| <= MAX_RECEIPTS
  {
    hide ReadPending, B.RecordAll;
    ReadingBounded(digest, st.receipts, Reading([], st.afterSequence, calls), source);
  }

  /** The log only grows, during every reconcile and from one to the next; any of their requests may fail. */
  ghost predicate OneLog(digest: Digest, rounds: seq<Round>) {
    && (forall i :: 0 <= i < |rounds| ==> Growing(digest, rounds[i].logs) && Truthful(rounds[i].source, rounds[i].logs))
    && (forall i, j, k: nat, l: nat :: 0 <= i < j < |rounds| ==> rounds[i].logs(k) <= rounds[j].logs(l))
  }

  /** What is shown is the log as it was at some request of some round, or nothing yet. */
  ghost predicate WasTheLog(rounds: seq<Round>, shown: seq<Entry>) {
    shown == [] || exists i :: 0 <= i < |rounds| && AtSomeRequest(rounds[i].logs, shown)
  }

  ghost predicate AtSomeRequest(logs: Logs, log: seq<Entry>) {
    exists k: nat :: logs(k) == log
  }

  lemma EarlierRounds(digest: Digest, rounds: seq<Round>, shown: seq<Entry>)
    requires rounds != [] && OneLog(digest, rounds)
    ensures OneLog(digest, rounds[..|rounds| - 1])
    ensures WasTheLog(rounds[..|rounds| - 1], shown) ==>
              WasTheLog(rounds, shown) && shown <= rounds[|rounds| - 1].logs(0)
  {
    hide Growing, Truthful;
    var n := |rounds| - 1;
    var init := rounds[..n];
    assert forall i :: 0 <= i < n ==> init[i] == rounds[i];
    if WasTheLog(init, shown) && shown != [] {
      var i :| 0 <= i < n && AtSomeRequest(init[i].logs, shown);
      var k: nat :| rounds[i].logs(k) == shown;
      assert rounds[i].logs(k) <= rounds[n].logs(0);
    }
  }

  /**
   Many reconciles of one growing log, some of which fail: what is shown is exactly the log as it was at
   some request, and at the last request of the last round if that did not fail.
   */
  lemma {:induction false} ManyReconciles(digest: Digest, rounds: seq<Round>) returns (shown: seq<Entry>)
    requires OneLog(digest, rounds)
    ensures IsLog(digest, shown) && WasTheLog(rounds, shown) && Tracks(digest, ReconcileAll(digest, rounds), shown)
    ensures rounds != [] && Answering(rounds[|rounds| - 1].source) ==> AtSomeRequest(rounds[|rounds| - 1].logs, shown)
  {
    hide Reconcile, Truthful, Answering, IsLog, B.RecordAll, Tracks;
    if rounds == [] {
      shown := [];
      InitialTracks(digest);
    } else {
      var n := |rounds| - 1;
      var round := rounds[n];
      EarlierRounds(digest, rounds, []);
      var before := ManyReconciles(digest, rounds[..n]);
      EarlierRounds(digest, rounds, before);
      var st := ReconcileAll(digest, rounds[..n]);
      ReconcileFollowsTheLog(digest, round.source, round.logs, st, before, 0);
      var r := Reconcile(digest, st, round.source, 0);
      if r.Reconciled? {
        shown := round.logs(r.calls - 1);
        assert IsLog(digest, shown);
        assert AtSomeRequest(rounds[n].logs, shown);
      } else {
        shown := before;
      }
    }
  }

  /** So they leave the state that one reconcile of a new projector leaves on the log that is shown. */
  lemma IncrementalIsFresh(digest: Digest, rounds: seq<Round>) returns (shown: seq<Entry>)
    requires OneLog(digest, rounds)
    ensures IsLog(digest, shown) && WasTheLog(rounds, shown)
    ensures rounds != [] && Answering(rounds[|rounds| - 1].source) ==> AtSomeRequest(rounds[|rounds| - 1].logs, shown)
    ensures forall source: Source :: Honest(source, _ => shown) ==>
                                       && Reconcile(digest, INITIAL, source, 0).Reconciled?
                                       && Reconcile(digest, INITIAL, source, 0).state == ReconcileAll(digest, rounds)
  {
    hide Reconcile, Honest, IsLog, B.RecordAll, ReconcileAll, OneLog, WasTheLog, Answering;
    shown := ManyReconciles(digest, rounds);
    forall source: Source | Honest(source, _ => shown)
      ensures Reconcile(digest, INITIAL, source, 0).Reconciled?
      ensures Reconcile(digest, INITIAL, source, 0).state == ReconcileAll(digest, rounds)
    {
      FreshTracks(digest, source, shown);
    }
  }

  lemma InitialTracks(digest: Digest)
    ensures Tracks(digest, INITIAL, []) && IsLog(digest, [])
  {
  }

  /** Against any source at all: what is shown is the projection of the receipts held, and these only grow. */
  lemma AnySource(digest: Digest, source: Source, st: State, calls: nat)
    requires |st.receipts| <= MAX_RECEIPTS && B.RecordAll(digest, st.receipts) == B.Recorded(st.active)
    ensures var r := Reconcile(digest, st, source, calls);
            r.Reconciled? ==>
              && st.receipts <= r.state.receipts && |r.state.receipts| == |st.receipts| + r.applied <= MAX_RECEIPTS
              && B.RecordAll(digest, r.state.receipts) == B.Recorded(r.state.active)
  {
    hide ReadPending, B.RecordAll;
    if ReadPending(digest, st.receipts, Reading([], st.afterSequence, calls), source).Done? {
      ReadingBounded(digest, st.receipts, Reading([], st.afterSequence, calls), source);
    }
  }
}
