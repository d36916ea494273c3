/** Which evidence is verified and which is created, condition by condition. */
module RecoveryExact {
  import opened Results
  import opened Texts
  import opened Json
  import opened CaseReceipt
  import opened RecoveryEvidence
  import opened RecoveryFacts
  import opened RecoveryBuilds
  import B = BindingProjection
  import W = OutboxWire
  import T = OutboxRoundTrip
  import CaseId
  import Binary64

  predicate GoodHead(h: Head) {
    && (CaseId.ParseMunicipalCaseId(h.caseId).Some? || CaseId.ParseSyntheticCaseId(h.caseId).Some?)
    && 3 <= h.caseVersion <= Binary64.MAX_SAFE_INTEGER
    && "sha256:" <= h.journalHeadChecksum && IsHex64(h.journalHeadChecksum[7..])
  }

  /** At most ten thousand good heads in strictly ascending order of their Case ids. */
  ghost predicate GoodHeads(hs: seq<Head>) {
    && |hs| <= 10_000 && (forall i :: 0 <= i < |hs| ==> GoodHead(hs[i]))
    && forall i, j :: 0 <= i < j < |hs| ==> Less(hs[i].caseId, hs[j].caseId)
  }

  lemma HeadsExactly(hs: seq<Head>)
    ensures ReadList(HeadReader(), hs).Parsed? <==> GoodHeads(hs)
    ensures ReadList(HeadReader(), hs).Parsed? ==> ReadList(HeadReader(), hs).value == hs
  {
    hide CaseId.ParseMunicipalCaseId, CaseId.ParseSyntheticCaseId, IsHex64, Less, ReadAll;
    if ReadList(HeadReader(), hs).Parsed? {
      ReadHeads(hs);
      ReadMeans(HeadReader(), hs, hs);
      forall i | 0 <= i < |hs| ensures GoodHead(hs[i]) {
        assert HeadReader()(hs[i], hs[..i]) == HeadStep(hs[i], hs[..i]);
      }
    }
    if GoodHeads(hs) {
      forall i | 0 <= i < |hs| ensures HeadReader()(hs[i], hs[..i]) == Parsed(hs[i]) {
        assert HeadReader()(hs[i], hs[..i]) == HeadStep(hs[i], hs[..i]);
        if i > 0 {
          LessIrreflexive(hs[i].caseId);
        }
      }
      ReadMeans(HeadReader(), hs, hs);
    }
  }

  // The outbox entries.

  function ReceiptIn(e: OutboxEntry): Value {
    Normal(e.receipt)
  }

  function FieldIn(e: OutboxEntry, key: string): string {
    TextOf(ReceiptIn(e), key)
  }

  /** Two entries in their order: the sequence ascends, and they share no Case, root or receipt. */
  predicate Apart(e: OutboxEntry, f: OutboxEntry) {
    && e.sequence < f.sequence
    && FieldIn(e, "caseId") != FieldIn(f, "caseId") && FieldIn(e, "rootEventId") != FieldIn(f, "rootEventId")
    && FieldIn(e, "receiptChecksum") != FieldIn(f, "receiptChecksum")
  }

  ghost predicate GoodLog(digest: Digest, es: seq<OutboxEntry>) {
    && |es| <= 10_000
    && (forall i :: 0 <= i < |es| ==>
                      1 <= es[i].sequence <= Binary64.MAX_SAFE_INTEGER
                      && VerifyReceipt(digest, es[i].receipt).Verified?)
    && forall i, j :: 0 <= i < j < |es| ==> Apart(es[i], es[j])
  }

  function EntryIn(e: OutboxEntry): W.Entry
    requires e.sequence >= 0
  {
    W.Entry(e.sequence, ReceiptIn(e))
  }

  lemma StepExactly(digest: Digest, e: OutboxEntry, read: seq<W.Entry>)
    ensures EntryStep(digest, e, read).Parsed? <==>
            && 1 <= e.sequence <= Binary64.MAX_SAFE_INTEGER && e.sequence > W.Last(0, read)
            && VerifyReceipt(digest, e.receipt).Verified?
            && forall k :: 0 <= k < |read| ==>
                             && W.CaseOf(read[k]) != FieldIn(e, "caseId")
                             && W.RootOf(read[k]) != FieldIn(e, "rootEventId")
                             && W.Checksum(read[k]) != FieldIn(e, "receiptChecksum")
    ensures EntryStep(digest, e, read).Parsed? ==> EntryStep(digest, e, read).value == EntryIn(e)
  {
    hide VerifyReceipt, TextOf, Normal, W.Cases, W.Roots, W.Checksums, W.CaseOf, W.RootOf, W.Checksum;
    if VerifyReceipt(digest, e.receipt).Verified? && e.sequence >= 0 {
      VerifiedFixed(digest, e.receipt);
      FieldsOfEntry(e);
      SeenExactly(read, FieldIn(e, "caseId"), FieldIn(e, "rootEventId"), FieldIn(e, "receiptChecksum"));
    }
  }

  lemma FieldsOfEntry(e: OutboxEntry)
    requires e.sequence >= 0
    ensures W.CaseOf(EntryIn(e)) == FieldIn(e, "caseId") && W.RootOf(EntryIn(e)) == FieldIn(e, "rootEventId")
    ensures W.Checksum(EntryIn(e)) == FieldIn(e, "receiptChecksum")
  {
  }

  lemma SeenExactly(read: seq<W.Entry>, caseId: string, root: string, sum: string)
    ensures caseId in W.Cases(read) <==> exists k :: 0 <= k < |read| && W.CaseOf(read[k]) == caseId
    ensures root in W.Roots(read) <==> exists k :: 0 <= k < |read| && W.RootOf(read[k]) == root
    ensures sum in W.Checksums(read) <==> exists k :: 0 <= k < |read| && W.Checksum(read[k]) == sum
  {
    hide W.Cases, W.Roots, W.Checksums, W.CaseOf, W.RootOf, W.Checksum;
    CaseSeen(read, caseId);
    RootSeen(read, root);
    ReceiptSeen(read, sum);
  }

  lemma CaseSeen(read: seq<W.Entry>, caseId: string)
    ensures caseId in W.Cases(read) <==> exists k :: 0 <= k < |read| && W.CaseOf(read[k]) == caseId
  {
    hide W.CaseOf;
    if k :| 0 <= k < |read| && W.CaseOf(read[k]) == caseId {
      assert read[k] in read;
    }
  }

  lemma RootSeen(read: seq<W.Entry>, root: string)
    ensures root in W.Roots(read) <==> exists k :: 0 <= k < |read| && W.RootOf(read[k]) == root
  {
    hide W.RootOf;
    if k :| 0 <= k < |read| && W.RootOf(read[k]) == root {
      assert read[k] in read;
    }
  }

  lemma ReceiptSeen(read: seq<W.Entry>, sum: string)
    ensures sum in W.Checksums(read) <==> exists k :: 0 <= k < |read| && W.Checksum(read[k]) == sum
  {
    hide W.Checksum;
    if k :| 0 <= k < |read| && W.Checksum(read[k]) == sum {
      assert read[k] in read;
    }
  }

  lemma LogExactly(digest: Digest, es: seq<OutboxEntry>)
    ensures ReadList(EntryReader(digest), es).Parsed? <==> GoodLog(digest, es)
    ensures ReadList(EntryReader(digest), es).Parsed? ==>
              && |ReadList(EntryReader(digest), es).value| == |es|
              && forall i :: 0 <= i < |es| ==>
                               es[i].sequence >= 0 && ReadList(EntryReader(digest), es).value[i] == EntryIn(es[i])
  {
    hide EntryStep, VerifyReceipt, Normal, ReadAll, TextOf;
    if ReadList(EntryReader(digest), es).Parsed? {
      var rs := ReadList(EntryReader(digest), es).value;
      ReadMeans(EntryReader(digest), es, rs);
      forall i | 0 <= i < |es|
        ensures 1 <= es[i].sequence <= Binary64.MAX_SAFE_INTEGER && VerifyReceipt(digest, es[i].receipt).Verified?
        ensures rs[i] == EntryIn(es[i]) && es[i].sequence > W.Last(0, rs[..i])
        ensures forall k :: 0 <= k < i ==>
                              && W.CaseOf(rs[k]) != FieldIn(es[i], "caseId")
                              && W.RootOf(rs[k]) != FieldIn(es[i], "rootEventId")
                              && W.Checksum(rs[k]) != FieldIn(es[i], "receiptChecksum")
      {
        assert EntryReader(digest)(es[i], rs[..i]) == EntryStep(digest, es[i], rs[..i]);
        StepExactly(digest, es[i], rs[..i]);
        assert forall k :: 0 <= k < i ==> rs[..i][k] == rs[k];
      }
      forall i, j | 0 <= i < j < |es| ensures Apart(es[i], es[j]) {
        SequencesAscend(es, rs, i, j);
      }
    }
    if GoodLog(digest, es) {
      var rs := seq(|es|, i requires 0 <= i < |es| => EntryIn(es[i]));
      forall i | 0 <= i < |es| ensures EntryReader(digest)(es[i], rs[..i]) == Parsed(rs[i]) {
        assert EntryReader(digest)(es[i], rs[..i]) == EntryStep(digest, es[i], rs[..i]);
        assert forall k :: 0 <= k < i ==> rs[..i][k] == EntryIn(es[k]) && Apart(es[k], es[i]);
        StepExactly(digest, es[i], rs[..i]);
      }
      ReadMeans(EntryReader(digest), es, rs);
    }
  }

  lemma {:induction false} SequencesAscend(es: seq<OutboxEntry>, rs: seq<W.Entry>, i: nat, j: nat)
    requires |rs| == |es| && i < j < |es|
    requires forall k :: 0 <= k < |es| ==> es[k].sequence >= 1 && rs[k] == EntryIn(es[k])
                                           && es[k].sequence > W.Last(0, rs[..k])
    ensures es[i].sequence < es[j].sequence
  {
    assert rs[..j][|rs[..j]| - 1] == rs[j - 1];
    if i < j - 1 {
      SequencesAscend(es, rs, i, j - 1);
    }
  }

  // The records behind the aggregate checksums; a canonical text has its keys in ascending order.

  function HeadRecord(h: Head): Value {
    Object([Member("caseId", Text(h.caseId)), Member("caseVersion", Number(h.caseVersion)),
            Member("journalHeadChecksum", Text(h.journalHeadChecksum))])
  }

  function BindingRecord(b: Binding): Value {
    Object([Member("caseId", Text(b.caseId)), Member("caseIdResponseBodyChecksum", Text(b.caseIdResponseBodyChecksum)),
            Member("discussionRootResponseBodyChecksum", Text(b.discussionRootResponseBodyChecksum)),
            Member("receiptChecksum", Text(b.receiptChecksum)), Member("rootEventId", Text(b.rootEventId)),
            Member("sequence", Number(b.sequence))])
  }

  function HeadsRecord(hs: seq<Head>): Value {
    Object([Member("orderedHeads", Array(seq(|hs|, i requires 0 <= i < |hs| => HeadRecord(hs[i])))),
            Member("schemaVersion", Text("case_state_recovery_heads_v1"))])
  }

  function BindingsRecord(bs: seq<Binding>): Value {
    Object([Member("orderedBindingEvidence", Array(seq(|bs|, i requires 0 <= i < |bs| => BindingRecord(bs[i])))),
            Member("schemaVersion", Text("case_state_recovery_public_projection_v1"))])
  }

  function ShaOf(digest: Digest, v: Value): string {
    "sha256:" + digest(Canonical(v))
  }

  lemma AggregatesAreOf(digest: Digest, hs: seq<Head>, bs: seq<Binding>)
    ensures ChecksumOfValue(digest, HeadsValue(hs)) == ShaOf(digest, HeadsRecord(hs))
    ensures ChecksumOfValue(digest, BindingsValue(bs)) == ShaOf(digest, BindingsRecord(bs))
  {
    assert HeadsValue(hs).members[0].value.items == HeadsRecord(hs).members[0].value.items;
    assert BindingsValue(bs).members[0].value.items == BindingsRecord(bs).members[0].value.items;
  }

  // Creation.

  /** The same Cases; a Case of version 3 still has the head that its receipt names. */
  ghost predicate SameCases(hs: seq<Head>, es: seq<OutboxEntry>) {
    |hs| == |es| && forall i :: 0 <= i < |es| ==> HasHeadFor(hs, es[i])
  }

  ghost predicate HasHeadFor(hs: seq<Head>, e: OutboxEntry) {
    exists k :: 0 <= k < |hs| && IsHeadOf(hs[k], e)
  }

  predicate IsHeadOf(h: Head, e: OutboxEntry) {
    && h.caseId == FieldIn(e, "caseId") && h.caseVersion >= 3
    && (h.caseVersion == 3 ==> h.journalHeadChecksum == FieldIn(e, "journalHeadChecksum"))
  }

  lemma MatchesExactly(hs: seq<Head>, e: OutboxEntry)
    requires GoodHeads(hs) && e.sequence >= 0
    ensures EntryMatches(hs, EntryIn(e)) <==> HasHeadFor(hs, e)
  {
    hide TextOf, Normal, GoodHead;
    if k :| 0 <= k < |hs| && IsHeadOf(hs[k], e) {
      var i := HeadOf(hs, hs[k].caseId);
      if i < k {
        LessIrreflexive(hs[k].caseId);
      }
      assert i == k;
    }
    if EntryMatches(hs, EntryIn(e)) {
      assert IsHeadOf(hs[HeadOf(hs, FieldIn(e, "caseId"))], e);
    }
  }

  lemma SetsExactly(hs: seq<Head>, es: seq<OutboxEntry>, rs: seq<W.Entry>)
    requires GoodHeads(hs) && |rs| == |es| && forall i :: 0 <= i < |es| ==> es[i].sequence >= 0
                                                                            && rs[i] == EntryIn(es[i])
    ensures CaseSetsMatch(hs, rs) <==> SameCases(hs, es)
  {
    hide GoodHeads, EntryMatches, HasHeadFor, EntryIn;
    forall i | 0 <= i < |es| ensures EntryMatches(hs, rs[i]) <==> HasHeadFor(hs, es[i]) {
      MatchesExactly(hs, es[i]);
    }
  }

  /** What is recorded of an entry: its names, and the checksum of the public response about it, which ends its line. */
  function BindingIn(digest: Digest, e: OutboxEntry): Binding {
    var body := "sha256:" + digest(Canonical(ReceiptIn(e)) + "\n");
    Binding(e.sequence, FieldIn(e, "caseId"), FieldIn(e, "rootEventId"), FieldIn(e, "receiptChecksum"), body, body)
  }

  function CreatedFrom(digest: Digest, hs: seq<Head>, es: seq<OutboxEntry>): Evidence {
    var bs := seq(|es|, i requires 0 <= i < |es| => BindingIn(digest, es[i]));
    Evidence(hs, ShaOf(digest, HeadsRecord(hs)), if es == [] then 0 else es[|es| - 1].sequence, |es|, bs,
             ShaOf(digest, BindingsRecord(bs)))
  }

  lemma BuiltExactly(digest: Digest, hs: seq<Head>, es: seq<OutboxEntry>, rs: seq<W.Entry>)
    requires T.GoodEntries(digest, 0, rs) && CaseSetsMatch(hs, rs)
    requires |rs| == |es| && forall i :: 0 <= i < |es| ==> es[i].sequence >= 0 && rs[i] == EntryIn(es[i])
    ensures Build(digest, hs, rs) == Parsed(CreatedFrom(digest, hs, es))
  {
    hide B.RecordAll, T.GoodEntries, EntryMatches, BindingOf, Canonical, HeadsValue, BindingsValue,
      HeadsRecord, BindingsRecord, Normal, TextOf;
    ProjectionAnswers(digest, rs);
    var x := B.RecordAll(digest, ReceiptsOf(rs)).index;
    BindingsExpected(digest, x, rs);
    var bs := BindingsOf(digest, x, rs).value;
    assert bs == CreatedFrom(digest, hs, es).orderedBindingEvidence;
    AggregatesAreOf(digest, hs, bs);
  }

  /**
   Evidence is created exactly from good heads and a good log of the same Cases, and it is what they say:
   heads, cursor and count as given, and for every entry its names with the checksum of its public response.
   */
  lemma CreatedExactly(digest: Digest, hs: seq<Head>, es: seq<OutboxEntry>)
    requires HexDigest(digest)
    ensures Create(digest, hs, es).Parsed? <==> GoodHeads(hs) && GoodLog(digest, es) && SameCases(hs, es)
    ensures Create(digest, hs, es).Parsed? ==> Create(digest, hs, es).value == CreatedFrom(digest, hs, es)
  {
    hide ReadList, EntryStep, Verify, Build, Normal, T.GoodEntries, HexDigest, CaseSetsMatch, SameCases, GoodHeads,
      GoodLog, CreatedFrom, EntryIn;
    CreationSucceeds(digest, hs, es);
    HeadsExactly(hs);
    LogExactly(digest, es);
    if ReadList(HeadReader(), hs).Parsed? && ReadList(EntryReader(digest), es).Parsed? {
      var rs := ReadList(EntryReader(digest), es).value;
      SetsExactly(hs, es, rs);
      if CaseSetsMatch(hs, rs) {
        ReadMeans(EntryReader(digest), es, rs);
        PassedEntriesGood(digest, es, rs, |es|);
        assert rs[..|es|] == rs;
        BuiltExactly(digest, hs, es, rs);
        ShortLog(digest, es);
        BuiltVerifies(digest, hs, rs);
      }
    }
  }

  lemma ShortLog(digest: Digest, es: seq<OutboxEntry>)
    requires GoodLog(digest, es)
    ensures |es| <= MAX_CASES
  {
  }

  // Verification.

  /** Bindings that may be recorded: good names and checksums, in ascending order, no Case, root or receipt twice. */
  ghost predicate GoodRecord(bs: seq<Binding>) {
    && |bs| <= 10_000
    && (forall i :: 0 <= i < |bs| ==>
                      var b := bs[i];
                      && 1 <= b.sequence <= Binary64.MAX_SAFE_INTEGER
                      && (CaseId.ParseMunicipalCaseId(b.caseId).Some? || CaseId.ParseSyntheticCaseId(b.caseId).Some?)
                      && IsHex64(b.rootEventId) && Sha(b.receiptChecksum) && Sha(b.caseIdResponseBodyChecksum)
                      && Sha(b.discussionRootResponseBodyChecksum))
    && forall i, j :: 0 <= i < j < |bs| ==>
                        && bs[i].sequence < bs[j].sequence && bs[i].caseId != bs[j].caseId
                        && bs[i].rootEventId != bs[j].rootEventId && bs[i].receiptChecksum != bs[j].receiptChecksum
  }

  predicate Sha(s: string) {
    "sha256:" <= s && IsHex64(s[7..])
  }

  /**
   Evidence is verified exactly if its heads and bindings are good, are about the same Cases, and count, cursor
   and both checksums are what they make.
   */
  lemma VerifiedExactly(digest: Digest, e: Evidence)
    ensures var hs, bs := e.orderedHeads, e.orderedBindingEvidence;
            Verify(digest, e).Parsed? <==>
            && GoodHeads(hs) && GoodRecord(bs) && |hs| == |bs| == e.projectionEntryCount
            && (forall i :: 0 <= i < |bs| ==> exists k :: 0 <= k < |hs| && hs[k].caseId == bs[i].caseId)
            && e.outboxCursor == (if bs == [] then 0 else bs[|bs| - 1].sequence)
            && Sha(e.headsAggregateChecksum) && e.headsAggregateChecksum == ShaOf(digest, HeadsRecord(hs))
            && Sha(e.publicProjectionChecksum) && e.publicProjectionChecksum == ShaOf(digest, BindingsRecord(bs))
  {
    hide ReadList, GoodHeads, IsHex64, HeadsRecord, BindingsRecord, ShaOf, ChecksumOfValue, CaseId.ParseMunicipalCaseId,
      CaseId.ParseSyntheticCaseId, Canonical, HeadsValue, BindingsValue;
    var hs, bs := e.orderedHeads, e.orderedBindingEvidence;
    HeadsExactly(hs);
    ReadBindings(bs);
    RecordExactly(bs);
    AggregatesAreOf(digest, hs, bs);
    forall i | 0 <= i < |bs| ensures HasHead(hs, bs[i]) <==> exists k :: 0 <= k < |hs| && hs[k].caseId == bs[i].caseId {
      if HasHead(hs, bs[i]) {
        assert hs[HeadOf(hs, bs[i].caseId)].caseId == bs[i].caseId;
      }
    }
  }

  lemma RecordExactly(bs: seq<Binding>)
    ensures GoodRecord(bs) <==> ReadList(BindingReader(), bs).Parsed?
  {
    hide ReadAll, IsHex64, CaseId.ParseMunicipalCaseId, CaseId.ParseSyntheticCaseId;
    ReadBindings(bs);
  }
}
