/** The projector: reads an outbox page by page, checks everything, and only then replaces what it shows. */
module OutboxProjector {
  import opened Results
  import opened Json
  import opened CaseReceipt
  import opened OutboxWire
  import B = BindingProjection

  const PAGE_SIZE: nat := 256
  const MAX_RECEIPTS: nat := 10_000

  /** What the outbox answers to its `call`-th request, for the entries after a cursor; nothing if the request fails. */
  type Source = (nat, nat) -> Option<seq<Value>>

  datatype ProjectorError =
    | SourceFailed | PageOversized | EntryRefused(error: WireError) | DuplicateInLog | LimitExceeded
    | Unprojectable(conflict: B.ProjectionError)

  /** The entries read so far, the cursor behind them, and the number of requests made. */
  datatype Reading = Reading(pending: seq<Entry>, cursor: nat, calls: nat)

  datatype Read = Done(reading: Reading) | Failed(error: ProjectorError)

  function ChecksumsOf(rs: seq<Value>): set<string> {
    set r | r in rs :: TextOf(r, "receiptChecksum")
  }

  /** One value of a page. */
  function TakeEntry(digest: Digest, held: seq<Value>, x: Reading, v: Value): (r: Read)
    ensures r.Done? ==> |r.reading.pending| == |x.pending| + 1 && |held| + |r.reading.pending| <= MAX_RECEIPTS
  {
    match ReadEntry(digest, v, x.cursor)
    case Rejected(e) => Failed(EntryRefused(e))
    case Accepted(e) =>
      if Checksum(e) in ChecksumsOf(held) || Checksum(e) in Checksums(x.pending) then Failed(DuplicateInLog)
      else if |held| + |x.pending| >= MAX_RECEIPTS then Failed(LimitExceeded)
      else Done(x.(pending := x.pending + [e], cursor := e.sequence))
  }

  function TakePage(digest: Digest, held: seq<Value>, x: Reading, vs: seq<Value>): (r: Read)
    ensures r.Done? ==> |r.reading.pending| == |x.pending| + |vs|
    ensures r.Done? && vs != [] ==> |held| + |r.reading.pending| <= MAX_RECEIPTS
  {
    if vs == [] then Done(x)
    else
      var init := TakePage(digest, held, x, vs[..|vs| - 1]);
      if init.Failed? then init else TakeEntry(digest, held, init.reading, vs[|vs| - 1])
  }

  /**
   `readPending`: pages until an empty one. Every page that is not empty uses up some of the receipts that
   may be held.
   */
  function ReadPending(digest: Digest, held: seq<Value>, x: Reading, source: Source): Read
    requires |held| + |x.pending| <= MAX_RECEIPTS
    decreases MAX_RECEIPTS - |held| - |x.pending|
  {
    var page := source(x.calls, x.cursor);
    if page.None? then Failed(SourceFailed)
    else if |page.value| > PAGE_SIZE then Failed(PageOversized)
    else if page.value == [] then Done(x.(calls := x.calls + 1))
    else
      var taken := TakePage(digest, held, x.(calls := x.calls + 1), page.value);
      if taken.Failed? then taken else ReadPending(digest, held, taken.reading, source)
  }

  datatype State = State(receipts: seq<Value>, afterSequence: nat, active: B.Index)

  const INITIAL := State([], 0, B.EMPTY)

  function ReceiptsOf(es: seq<Entry>): (rs: seq<Value>)
    ensures |rs| == |es| && forall i :: 0 <= i < |es| ==> rs[i] == es[i].receipt
  {
    seq(|es|, i requires 0 <= i < |es| => es[i].receipt)
  }

  datatype Reconciled = Reconciled(state: State, applied: nat, calls: nat) | Unreconciled(error: ProjectorError)

  /** `reconcile`: all of the pending entries, or none. */
  function Reconcile(digest: Digest, st: State, source: Source, calls: nat): Reconciled
    requires |st.receipts| <= MAX_RECEIPTS
  {
    match ReadPending(digest, st.receipts, Reading([], st.afterSequence, calls), source)
    case Failed(e) => Unreconciled(e)
    case Done(x) =>
      if x.pending == [] then Reconciled(st, 0, x.calls)
      else
        var next := st.receipts + ReceiptsOf(x.pending);
        match B.RecordAll(digest, next)
        case Refused(e) => Unreconciled(Unprojectable(e))
        case Recorded(index) => Reconciled(State(next, x.pending[|x.pending| - 1].sequence, index),
                                           |x.pending|, x.calls)
  }

  lemma {:induction false} ReadingBounded(digest: Digest, held: seq<Value>, x: Reading, source: Source)
    requires |held| + |x.pending| <= MAX_RECEIPTS && ReadPending(digest, held, x, source).Done?
    ensures |held| + |ReadPending(digest, held, x, source).reading.pending| <= MAX_RECEIPTS
    decreases MAX_RECEIPTS - |held| - |x.pending|
  {
    hide TakePage;
    var page := source(x.calls, x.cursor).value;
    if page != [] {
      ReadingBounded(digest, held, TakePage(digest, held, x.(calls := x.calls + 1), page).reading, source);
    }
  }

  class CaseBindingOutboxProjector {
    var receipts: seq<Value>
    var afterSequence: nat
    var active: B.Index
    var calls: nat

    function View(): State
      reads this
    {
      State(receipts, afterSequence, active)
    }

    constructor ()
      ensures View() == INITIAL && calls == 0
    {
      receipts, afterSequence, active, calls := [], 0, B.EMPTY, 0;
    }

    /** The loop of `readPending`, with its moving cursor and growing list. */
    method ReadAllPending(digest: Digest, source: Source) returns (r: Read)
      requires |receipts| <= MAX_RECEIPTS
      ensures r == ReadPending(digest, receipts, Reading([], afterSequence, calls), source)
    {
      hide TakePage, ReadPending;
      var x := Reading([], afterSequence, calls);
      while true
        invariant |receipts| + |x.pending| <= MAX_RECEIPTS
        invariant ReadPending(digest, receipts, Reading([], afterSequence, calls), source)
               == ReadPending(digest, receipts, x, source)
        decreases MAX_RECEIPTS - |receipts| - |x.pending|
      {
        ReadPendingStep(digest, receipts, x, source);
        var page := source(x.calls, x.cursor);
        if page.None? {
          return Failed(SourceFailed);
        }
        if |page.value| > PAGE_SIZE {
          return Failed(PageOversized);
        }
        if page.value == [] {
          return Done(x.(calls := x.calls + 1));
        }
        var taken := TakeWholePage(digest, x.(calls := x.calls + 1), page.value);
        if taken.Failed? {
          return taken;
        }
        x := taken.reading;
      }
    }

    method TakeWholePage(digest: Digest, x: Reading, page: seq<Value>) returns (r: Read)
      ensures r == TakePage(digest, receipts, x, page)
    {
      hide TakeEntry;
      var y := x;
      var n := 0;
      assert page[..0] == [];
      while n < |page|
        invariant 0 <= n <= |page|
        invariant TakePage(digest, receipts, x, page[..n]) == Done(y)
      {
        assert page[..n + 1][..n] == page[..n];
        var taken := TakeEntry(digest, receipts, y, page[n]);
        if taken.Failed? {
          FailedPage(digest, receipts, x, page, n + 1);
          return taken;
        }
        y := taken.reading;
        n := n + 1;
      }
      assert page[..n] == page;
      return Done(y);
    }

    /** A reconcile that fails leaves everything as it was. */
    method ReconcileNow(digest: Digest, source: Source) returns (r: Reconciled)
      requires |receipts| <= MAX_RECEIPTS
      modifies this
      ensures r == Reconcile(digest, old(View()), source, old(calls))
      ensures View() == (if r.Reconciled? then r.state else old(View()))
      ensures |receipts| <= MAX_RECEIPTS
    {
      hide ReadPending, B.RecordAll, B.Record, ReceiptsOf;
      var read := ReadAllPending(digest, source);
      if read.Failed? {
        return Unreconciled(read.error);
      }
      var pending := read.reading.pending;
      if pending == [] {
        return Reconciled(View(), 0, read.reading.calls);
      }
      ReadingBounded(digest, receipts, Reading([], afterSequence, calls), source);
      var nextReceipts := receipts + ReceiptsOf(pending);
      var projection := new B.InMemoryCaseBindingProjection();
      var error := projection.RecordInitial(digest, nextReceipts);
      if error.Some? {
        return Unreconciled(Unprojectable(error.value));
      }
      active := projection.View();
      receipts := nextReceipts;
      afterSequence := pending[|pending| - 1].sequence;
      calls := read.reading.calls;
      return Reconciled(View(), |pending|, read.reading.calls);
    }
  }

  lemma ReadPendingStep(digest: Digest, held: seq<Value>, x: Reading, source: Source)
    requires |held| + |x.pending| <= MAX_RECEIPTS
    ensures var read := ReadPending(digest, held, x, source);
            var page := source(x.calls, x.cursor);
            if page.None? then read == Failed(SourceFailed)
            else if |page.value| > PAGE_SIZE then read == Failed(PageOversized)
            else if page.value == [] then read == Done(x.(calls := x.calls + 1))
            else
              var taken := TakePage(digest, held, x.(calls := x.calls + 1), page.value);
              read == if taken.Failed? then taken else ReadPending(digest, held, taken.reading, source)
  {
    hide TakePage;
  }

  lemma {:induction false} FailedPage(digest: Digest, held: seq<Value>, x: Reading, page: seq<Value>, m: nat)
    requires m <= |page| && TakePage(digest, held, x, page[..m]).Failed?
    ensures TakePage(digest, held, x, page) == TakePage(digest, held, x, page[..m])
  {
    hide TakeEntry;
    if m < |page| {
      assert page[..|page| - 1][..m] == page[..m];
      FailedPage(digest, held, x, page[..|page| - 1], m);
    } else {
      assert page[..m] == page;
    }
  }
}
