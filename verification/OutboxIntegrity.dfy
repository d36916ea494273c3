/** The seal of every receipt that a page carries and that a projector holds, whatever the source. */
module OutboxIntegrity {
  import opened Results
  import opened Json
  import opened CaseReceipt
  import opened OutboxWire
  import opened OutboxRoundTrip
  import opened OutboxProjector
  import opened ReceiptIntegrity
  import B = BindingProjection

  /** Sealed receipts, no checksum twice. */
  ghost predicate HeldWell(digest: Digest, rs: seq<Value>) {
    && (forall i :: 0 <= i < |rs| ==> IsReceipt(digest, rs[i]) && Sealed(digest, rs[i]))
    && (forall i, j :: 0 <= i < j < |rs| ==> TextOf(rs[i], "receiptChecksum") != TextOf(rs[j], "receiptChecksum"))
  }

  /** The entries of every accepted page are sealed; two entries with one checksum hold one receipt, or it collides. */
  lemma PagesAreSealed(digest: Digest, text: string, x: Expectation, p: Page, other: string, y: Expectation, q: Page)
    requires ParsePage(digest, text, x) == Accepted(p) && ParsePage(digest, other, y) == Accepted(q)
    ensures forall i :: 0 <= i < |p.entries| ==> Sealed(digest, p.entries[i].receipt)
    ensures forall i, j :: 0 <= i < |p.entries| && 0 <= j < |q.entries|
                           && Checksum(p.entries[i]) == Checksum(q.entries[j]) ==>
                             || p.entries[i].receipt == q.entries[j].receipt
                             || Collide(digest, SealedText(p.entries[i].receipt), SealedText(q.entries[j].receipt))
  {
    hide Parse, ParseDocument, Utf8Length, Canonical, VerifyPage, Sealed, IsReceipt, SealedText, Collide, TextOf;
    ParsedGood(digest, text, x);
    ParsedGood(digest, other, y);
    forall i | 0 <= i < |p.entries| ensures Sealed(digest, p.entries[i].receipt) {
      assert GoodEntry(digest, p.entries[i]);
      ReceiptIsSealed(digest, p.entries[i].receipt);
    }
    forall i, j | 0 <= i < |p.entries| && 0 <= j < |q.entries| && Checksum(p.entries[i]) == Checksum(q.entries[j])
      ensures || p.entries[i].receipt == q.entries[j].receipt
              || Collide(digest, SealedText(p.entries[i].receipt), SealedText(q.entries[j].receipt))
    {
      assert GoodEntry(digest, p.entries[i]) && GoodEntry(digest, q.entries[j]);
      ChecksumFixesReceipt(digest, p.entries[i].receipt, q.entries[j].receipt);
    }
  }

  lemma ParsedGood(digest: Digest, text: string, x: Expectation)
    requires ParsePage(digest, text, x).Accepted?
    ensures GoodPage(digest, ParsePage(digest, text, x).value)
  {
    hide Parse, Utf8Length, Canonical, VerifyPage, GoodPage;
    VerifiedGood(digest, ParseDocument(text).value, x);
  }

  /** What is read while `held` is shown: entries after the cursor in ascending order, new and sealed. */
  ghost predicate ReadWell(digest: Digest, held: seq<Value>, after: nat, x: Reading) {
    && HeldWell(digest, held + ReceiptsOf(x.pending))
    && (forall i :: 0 <= i < |x.pending| ==> after < x.pending[i].sequence <= x.cursor)
    && (forall i, j :: 0 <= i < j < |x.pending| ==> x.pending[i].sequence < x.pending[j].sequence)
    && after <= x.cursor && (x.pending != [] ==> x.cursor == x.pending[|x.pending| - 1].sequence)
  }

  lemma TakenWell(digest: Digest, held: seq<Value>, after: nat, x: Reading, v: Value)
    requires ReadWell(digest, held, after, x) && TakeEntry(digest, held, x, v).Done?
    ensures ReadWell(digest, held, after, TakeEntry(digest, held, x, v).reading)
  {
    hide ReadEntry, IsReceipt, Sealed, TextOf;
    var e := ReadEntry(digest, v, x.cursor).value;
    ReadGood(digest, v, x.cursor);
    ReceiptIsSealed(digest, e.receipt);
    var all := held + ReceiptsOf(x.pending);
    var next := x.pending + [e];
    assert held + ReceiptsOf(next) == all + [e.receipt];
    forall i | 0 <= i < |all| ensures TextOf(all[i], "receiptChecksum") != TextOf(e.receipt, "receiptChecksum") {
      if i < |held| {
        assert held[i] in held;
      } else {
        assert x.pending[i - |held|] in x.pending && all[i] == x.pending[i - |held|].receipt;
      }
    }
  }

  lemma {:induction false} PageWell(digest: Digest, held: seq<Value>, after: nat, x: Reading, vs: seq<Value>)
    requires ReadWell(digest, held, after, x) && TakePage(digest, held, x, vs).Done?
    ensures ReadWell(digest, held, after, TakePage(digest, held, x, vs).reading)
  {
    hide ReadWell, TakeEntry;
    if vs != [] {
      PageWell(digest, held, after, x, vs[..|vs| - 1]);
      TakenWell(digest, held, after, TakePage(digest, held, x, vs[..|vs| - 1]).reading, vs[|vs| - 1]);
    }
  }

  lemma {:induction false} PendingWell(digest: Digest, held: seq<Value>, after: nat, x: Reading, source: Source)
    requires |held| + |x.pending| <= MAX_RECEIPTS && ReadWell(digest, held, after, x)
    requires ReadPending(digest, held, x, source).Done?
    ensures ReadWell(digest, held, after, ReadPending(digest, held, x, source).reading)
    decreases MAX_RECEIPTS - |held| - |x.pending|
  {
    hide ReadWell, TakePage;
    CallsUnread(digest, held, after, x);
    var page := source(x.calls, x.cursor).value;
    if page != [] {
      PageWell(digest, held, after, x.(calls := x.calls + 1), page);
      PendingWell(digest, held, after, TakePage(digest, held, x.(calls := x.calls + 1), page).reading, source);
    }
  }

  lemma CallsUnread(digest: Digest, held: seq<Value>, after: nat, x: Reading)
    requires ReadWell(digest, held, after, x)
    ensures ReadWell(digest, held, after, x.(calls := x.calls + 1))
  {
  }

  /**
   Whatever the source answers, what a projector holds after a reconcile is sealed and holds no checksum
   twice; what was applied follows what was held, in ascending order behind the cursor.
   */
  lemma HeldReceiptsAreSealed(digest: Digest, st: State, source: Source, calls: nat)
    requires |st.receipts| <= MAX_RECEIPTS && HeldWell(digest, st.receipts)
    ensures var r := Reconcile(digest, st, source, calls);
            r.Reconciled? ==>
              && HeldWell(digest, r.state.receipts) && st.receipts <= r.state.receipts
              && st.afterSequence <= r.state.afterSequence
              && (r.applied > 0 <==> st.afterSequence < r.state.afterSequence)
  {
    hide HeldWell, ReadPending, B.RecordAll;
    var x := Reading([], st.afterSequence, calls);
    assert st.receipts + ReceiptsOf(x.pending) == st.receipts;
    var read := ReadPending(digest, st.receipts, x, source);
    if read.Done? {
      PendingWell(digest, st.receipts, st.afterSequence, x, source);
    }
  }

  lemma NothingHeld(digest: Digest)
    ensures HeldWell(digest, INITIAL.receipts)
  {
  }
}
