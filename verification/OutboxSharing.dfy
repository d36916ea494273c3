/** Callers of `reconcile` share the operation that is under way, so its turns are those of one reconcile. */
module OutboxSharing {
  import opened Results
  import opened Json
  import opened CaseReceipt
  import opened OutboxWire
  import opened OutboxProjector
  import B = BindingProjection

  /** The state, and the operation under way, suspended at the request for its next page. */
  datatype Projector = Projector(state: State, reconciliation: Option<Reading>)

  datatype Turn = Call | Answer(page: Option<seq<Value>>)

  /** The last turn of an operation: everything that was read replaces what is shown, or nothing does. */
  function Commit(digest: Digest, st: State, x: Reading): State {
    if x.pending == [] then st
    else
      var next := st.receipts + ReceiptsOf(x.pending);
      match B.RecordAll(digest, next)
      case Refused(_) => st
      case Recorded(index) => State(next, x.pending[|x.pending| - 1].sequence, index)
  }

  function Take(digest: Digest, p: Projector, t: Turn): Projector {
    match t
    case Call =>
      if p.reconciliation.Some? then p else p.(reconciliation := Some(Reading([], p.state.afterSequence, 0)))
    case Answer(page) =>
      if p.reconciliation.None? then p
      else
        var x := p.reconciliation.value;
        if page.None? || |page.value| > PAGE_SIZE then p.(reconciliation := None)
        else if page.value == [] then Projector(Commit(digest, p.state, x.(calls := x.calls + 1)), None)
        else
          var taken := TakePage(digest, p.state.receipts, x.(calls := x.calls + 1), page.value);
          p.(reconciliation := if taken.Failed? then None else Some(taken.reading))
  }

  function TakeAll(digest: Digest, p: Projector, ts: seq<Turn>): Projector
    decreases |ts|
  {
    if ts == [] then p else TakeAll(digest, Take(digest, p, ts[0]), ts[1..])
  }

  /** The answers of a source to the requests that are made, whenever other calls come in between. */
  predicate Answers(digest: Digest, source: Source, p: Projector, ts: seq<Turn>)
    decreases |ts|
  {
    ts == [] || (
      && (ts[0].Answer? && p.reconciliation.Some? ==>
            ts[0].page == source(p.reconciliation.value.calls, p.reconciliation.value.cursor))
      && Answers(digest, source, Take(digest, p, ts[0]), ts[1..]))
  }

  /**
   However many callers ask while an operation is under way, what its turns leave behind once it is
   over is what one reconcile gives: its state if it succeeds, the old state if it fails.
   */
  lemma {:induction false} SharedIsOne(digest: Digest, source: Source, p: Projector, ts: seq<Turn>, n: nat)
    requires p.reconciliation.Some? && |p.state.receipts| + |p.reconciliation.value.pending| <= MAX_RECEIPTS
    requires n < |ts| && Answers(digest, source, p, ts)
    requires forall m :: 0 <= m <= n ==> TakeAll(digest, p, ts[..m]).reconciliation.Some?
    requires TakeAll(digest, p, ts[..n + 1]).reconciliation.None?
    ensures var read := ReadPending(digest, p.state.receipts, p.reconciliation.value, source);
            TakeAll(digest, p, ts[..n + 1]).state == if read.Failed? then p.state
            else Commit(digest, p.state, read.reading)
    decreases |ts|
  {
    hide TakePage, Commit, ReadPending;
    ReadPendingStep(digest, p.state.receipts, p.reconciliation.value, source);
    var q := Take(digest, p, ts[0]);
    assert ts[..n + 1][0] == ts[0] && ts[..n + 1][1..] == ts[1..][..n];
    if n > 0 {
      forall m | 0 <= m <= n - 1 ensures TakeAll(digest, q, ts[1..][..m]).reconciliation.Some? {
        assert ts[..m + 1][0] == ts[0] && ts[..m + 1][1..] == ts[1..][..m];
      }
      assert ts[1..][..0] == [];
      SharedIsOne(digest, source, q, ts[1..], n - 1);
    } else {
      assert ts[..1][1..] == [];
      assert TakeAll(digest, p, ts[..1]) == TakeAll(digest, q, []) == q;
    }
  }

  /**
   An operation that a caller begins reads from the state it begins in, so in the end it is one reconcile of
   that state.
   */
  lemma SharedReconcile(digest: Digest, source: Source, st: State, ts: seq<Turn>, n: nat)
    requires |st.receipts| <= MAX_RECEIPTS
    requires var p := Take(digest, Projector(st, None), Call);
             && n < |ts| && Answers(digest, source, p, ts)
             && (forall m :: 0 <= m <= n ==> TakeAll(digest, p, ts[..m]).reconciliation.Some?)
             && TakeAll(digest, p, ts[..n + 1]).reconciliation.None?
    ensures var p := Take(digest, Projector(st, None), Call);
            var r := Reconcile(digest, st, source, 0);
            TakeAll(digest, p, ts[..n + 1]).state == if r.Reconciled? then r.state else st
  {
    hide ReadPending, TakePage, TakeAll, B.RecordAll;
    SharedIsOne(digest, source, Take(digest, Projector(st, None), Call), ts, n);
  }
}
