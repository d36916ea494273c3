/** Evidence that is created from accepted heads and outbox entries of the same Cases always verifies. */
module RecoveryBuilds {
  import opened Results
  import opened Json
  import opened CaseReceipt
  import opened RecoveryEvidence
  import opened RecoveryFacts
  import B = BindingProjection
  import W = OutboxWire
  import T = OutboxRoundTrip
  import CaseId
  import Binary64

  lemma GoodExtends(digest: Digest, read: seq<W.Entry>, entry: W.Entry)
    requires T.GoodEntries(digest, 0, read) && T.GoodEntry(digest, entry) && entry.sequence > W.Last(0, read)
    requires W.Checksum(entry) !in W.Checksums(read) && W.CaseOf(entry) !in W.Cases(read)
             && W.RootOf(entry) !in W.Roots(read)
    ensures T.GoodEntries(digest, 0, read + [entry])
  {
    hide T.GoodEntry, W.Checksum, W.CaseOf, W.RootOf;
    var all := read + [entry];
    forall i | 0 <= i < |read|
      ensures W.Checksum(all[i]) != W.Checksum(entry) && W.CaseOf(all[i]) != W.CaseOf(entry)
              && W.RootOf(all[i]) != W.RootOf(entry)
    {
      assert all[i] in read;
      assert W.Checksum(all[i]) in W.Checksums(read) && W.CaseOf(all[i]) in W.Cases(read)
             && W.RootOf(all[i]) in W.Roots(read);
    }
  }

  lemma EntryStepFacts(digest: Digest, e: OutboxEntry, read: seq<W.Entry>)
    requires EntryStep(digest, e, read).Parsed?
    ensures VerifyReceipt(digest, e.receipt).Verified?
    ensures var entry := EntryStep(digest, e, read).value;
            && entry.receipt == VerifyReceipt(digest, e.receipt).receipt && entry.sequence == e.sequence
            && T.GoodEntry(digest, entry) && entry.sequence > W.Last(0, read)
            && W.Checksum(entry) !in W.Checksums(read) && W.CaseOf(entry) !in W.Cases(read)
            && W.RootOf(entry) !in W.Roots(read)
  {
    hide IsReceipt, VerifyReceipt, W.Checksum, W.CaseOf, W.RootOf, W.Checksums, W.Cases, W.Roots;
    VerifiedFixed(digest, e.receipt);
  }

  /** One accepted entry: its receipt is verified, and it extends what was read before it. */
  lemma EntryStepGood(digest: Digest, e: OutboxEntry, read: seq<W.Entry>)
    requires EntryStep(digest, e, read).Parsed? && T.GoodEntries(digest, 0, read)
    ensures var entry := EntryStep(digest, e, read).value;
            && T.GoodEntries(digest, 0, read + [entry])
            && entry.receipt == Normal(e.receipt) && entry.sequence == e.sequence
  {
    hide EntryStep, T.GoodEntries;
    EntryStepFacts(digest, e, read);
    VerifiedFixed(digest, e.receipt);
    GoodExtends(digest, read, EntryStep(digest, e, read).value);
  }

  lemma {:induction false} PassedEntriesGood(digest: Digest, es: seq<OutboxEntry>, rs: seq<W.Entry>, n: nat)
    requires Passed(EntryReader(digest), es, rs) && n <= |es|
    ensures T.GoodEntries(digest, 0, rs[..n])
    ensures forall i :: 0 <= i < n ==> rs[i].receipt == Normal(es[i].receipt)
  {
    hide EntryStep, T.GoodEntries;
    if n == 0 {
      assert T.GoodEntries(digest, 0, []) by { NoEntriesGood(digest); }
    } else {
      PassedEntriesGood(digest, es, rs, n - 1);
      assert EntryReader(digest)(es[n - 1], rs[..n - 1]) == EntryStep(digest, es[n - 1], rs[..n - 1]);
      EntryStepGood(digest, es[n - 1], rs[..n - 1]);
      assert rs[..n] == rs[..n - 1] + [rs[n - 1]];
    }
  }

  lemma NoEntriesGood(digest: Digest)
    ensures T.GoodEntries(digest, 0, [])
  {
  }

  /** The binding that a receipt of the projection gives. */
  function Expected(digest: Digest, e: W.Entry): Binding {
    var body := BodyChecksum(digest, B.ResponseBody(e.receipt));
    Binding(e.sequence, W.CaseOf(e), W.RootOf(e), W.Checksum(e), body, body)
  }

  lemma {:induction false} BindingsExpected(digest: Digest, x: B.Index, es: seq<W.Entry>)
    requires forall i :: 0 <= i < |es| ==> BindingOf(digest, x, es[i]) == Parsed(Expected(digest, es[i]))
    ensures BindingsOf(digest, x, es).Parsed? && |BindingsOf(digest, x, es).value| == |es|
    ensures forall i :: 0 <= i < |es| ==> BindingsOf(digest, x, es).value[i] == Expected(digest, es[i])
  {
    hide BindingOf, Expected;
    if es != [] {
      BindingsExpected(digest, x, es[1..]);
    }
  }

  /** The projection of good entries answers both requests for each of them. */
  lemma ProjectionAnswers(digest: Digest, es: seq<W.Entry>)
    requires T.GoodEntries(digest, 0, es)
    ensures B.RecordAll(digest, ReceiptsOf(es)).Recorded?
    ensures forall i :: 0 <= i < |es| ==>
                          BindingOf(digest, B.RecordAll(digest, ReceiptsOf(es)).index, es[i])
                          == Parsed(Expected(digest, es[i]))
  {
    hide B.RecordAll, VerifyReceipt, Normal, TextOf, B.Get, B.GetByRoot;
    var rs := ReceiptsOf(es);
    forall i | 0 <= i < |rs| ensures Normal(rs[i]) == rs[i] && VerifyReceipt(digest, rs[i]).Verified? {
      assert T.GoodEntry(digest, es[i]);
      B.VerifiedIsPlain(digest, rs[i]);
    }
    forall i, j | 0 <= i < |rs| && 0 <= j < |rs| ensures B.Compatible(Normal(rs[i]), Normal(rs[j])) {
      if i < j {
        assert W.CaseOf(es[i]) != W.CaseOf(es[j]) && W.RootOf(es[i]) != W.RootOf(es[j]);
      } else if j < i {
        assert W.CaseOf(es[j]) != W.CaseOf(es[i]) && W.RootOf(es[j]) != W.RootOf(es[i]);
      }
    }
    B.AcceptedLists(digest, rs, rs);
    var x := B.RecordAll(digest, rs).index;
    forall i | 0 <= i < |es| ensures BindingOf(digest, x, es[i]) == Parsed(Expected(digest, es[i])) {
      assert T.GoodEntry(digest, es[i]);
      assert rs[i] in rs;
      B.ReadersFind(digest, x, B.Receipts(rs), rs[i]);
    }
  }

  lemma ExpectedGood(digest: Digest, e: W.Entry)
    requires HexDigest(digest) && T.GoodEntry(digest, e)
    ensures GoodBinding(Expected(digest, e))
  {
    hide IsHex64, CaseId.ParseMunicipalCaseId, CaseId.ParseSyntheticCaseId, SchemaOk, CandidateOk, SchemaOf, Normal;
    ReceiptCaseId(digest, e.receipt);
    PrefixedDigest(digest, B.ResponseBody(e.receipt));
  }

  lemma PrefixedDigest(digest: Digest, s: string)
    requires HexDigest(digest)
    ensures IsChecksum(CHECKSUM_PREFIX + digest(s))
  {
    assert (CHECKSUM_PREFIX + digest(s))[|CHECKSUM_PREFIX|..] == digest(s);
  }

  lemma ExpectedBindingsGood(digest: Digest, es: seq<W.Entry>, bs: seq<Binding>)
    requires HexDigest(digest) && T.GoodEntries(digest, 0, es) && |bs| == |es|
    requires forall i :: 0 <= i < |es| ==> bs[i] == Expected(digest, es[i])
    ensures GoodBindings(bs)
  {
    hide GoodBinding, T.GoodEntry, BodyChecksum, W.Checksum, W.CaseOf, W.RootOf, HexDigest;
    forall i | 0 <= i < |bs| ensures GoodBinding(bs[i]) {
      ExpectedGood(digest, es[i]);
    }
  }

  /** What is built from matching heads and entries verifies. */
  lemma BuiltVerifies(digest: Digest, hs: seq<Head>, es: seq<W.Entry>)
    requires HexDigest(digest) && ReadList(HeadReader(), hs) == Parsed(hs) && CaseSetsMatch(hs, es)
    requires T.GoodEntries(digest, 0, es) && |es| <= MAX_CASES
    ensures Build(digest, hs, es).Parsed? && Verify(digest, Build(digest, hs, es).value) == Build(digest, hs, es)
  {
    hide ReadList, ReadAll, BindingOf, B.RecordAll, T.GoodEntries, IsChecksum, Expected, HexDigest, Canonical,
      HeadsValue, BindingsValue, EntryMatches;
    ProjectionAnswers(digest, es);
    var x := B.RecordAll(digest, ReceiptsOf(es)).index;
    BindingsExpected(digest, x, es);
    var bs := BindingsOf(digest, x, es).value;
    ExpectedBindingsGood(digest, es, bs);
    ReadBindings(bs);
    PrefixedDigest(digest, Canonical(HeadsValue(hs)));
    PrefixedDigest(digest, Canonical(BindingsValue(bs)));
    forall k | 0 <= k < |bs| ensures HasHead(hs, bs[k]) {
      MatchedHead(digest, hs, es[k], bs[k]);
    }
    SameCursor(digest, es, bs);
  }

  lemma MatchedHead(digest: Digest, hs: seq<Head>, e: W.Entry, b: Binding)
    requires EntryMatches(hs, e) && b == Expected(digest, e)
    ensures HasHead(hs, b)
  {
  }

  lemma SameCursor(digest: Digest, es: seq<W.Entry>, bs: seq<Binding>)
    requires T.GoodEntries(digest, 0, es) && |bs| == |es|
             && forall i :: 0 <= i < |es| ==> bs[i] == Expected(digest, es[i])
    ensures W.Last(0, es) == if bs == [] then 0 else bs[|bs| - 1].sequence
    ensures W.Last(0, es) <= Binary64.MAX_SAFE_INTEGER
  {
    hide BodyChecksum;
    T.LastAfter(digest, 0, es);
  }

  /**
   Creation succeeds exactly if heads and entries are accepted and match; verification never refuses what was
   built.
   */
  lemma CreationSucceeds(digest: Digest, hs: seq<Head>, es: seq<OutboxEntry>)
    requires HexDigest(digest)
    ensures Create(digest, hs, es).Parsed? <==>
            && ReadList(HeadReader(), hs).Parsed? && ReadList(EntryReader(digest), es).Parsed?
            && CaseSetsMatch(hs, ReadList(EntryReader(digest), es).value)
    ensures Create(digest, hs, es).Parsed? ==> Verify(digest, Create(digest, hs, es).value) == Create(digest, hs, es)
  {
    hide ReadAll, EntryStep, Verify, Normal, T.GoodEntries, HexDigest, CaseSetsMatch, B.RecordAll;
    if ReadList(HeadReader(), hs).Parsed? && ReadList(EntryReader(digest), es).Parsed? {
      var rs := ReadList(EntryReader(digest), es).value;
      ReadHeads(hs);
      ReadMeans(EntryReader(digest), es, rs);
      PassedEntriesGood(digest, es, rs, |es|);
      assert rs[..|es|] == rs;
      if CaseSetsMatch(hs, rs) {
        BuiltVerifies(digest, hs, rs);
      }
    }
  }
}
