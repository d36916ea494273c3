/** Evidence about a recovered Case store: journal heads and bindings of exactly the same Cases, under two checksums. */
module RecoveryEvidence {
  import opened Results
  import opened Texts
  import opened Json
  import opened CaseReceipt
  import B = BindingProjection
  import W = OutboxWire
  import CaseId
  import Binary64

  const MAX_CASES: nat := 10_000
  const HEADS_SCHEMA := "case_state_recovery_heads_v1"
  const PROJECTION_SCHEMA := "case_state_recovery_public_projection_v1"

  datatype Head = Head(caseId: string, caseVersion: int, journalHeadChecksum: string)

  datatype OutboxEntry = OutboxEntry(sequence: int, receipt: Value)

  datatype Binding = Binding(sequence: int, caseId: string, rootEventId: string, receiptChecksum: string,
                             caseIdResponseBodyChecksum: string, discussionRootResponseBodyChecksum: string)

  datatype Evidence = Evidence(
    orderedHeads: seq<Head>, headsAggregateChecksum: string, outboxCursor: int, projectionEntryCount: int,
    orderedBindingEvidence: seq<Binding>, publicProjectionChecksum: string)

  datatype RecoveryError =
    | HeadInvalid | HeadDuplicate | HeadsNotCanonical | EntryLimitExceeded
    | OutboxSequenceInvalid | ReceiptRefused(error: ReceiptError) | CaseDuplicate | RootDuplicate | ReceiptDuplicate
    | CaseSetMismatch | CaseMismatch | ProjectionRefused | BindingEvidenceInvalid
    | EvidenceInvalid | ProjectionCountInvalid | OutboxCursorInvalid | HeadsChecksumInvalid | ProjectionChecksumInvalid

  datatype Parsed<+T> = Parsed(value: T) | Unparsed(error: RecoveryError)

  /** Reading a list: every item is judged by the items read before it; the first error ends the reading. */
  function ReadAll<T, U>(step: (T, seq<U>) -> Parsed<U>, xs: seq<T>, read: seq<U>): Parsed<seq<U>> {
    if xs == [] then Parsed(read)
    else
      var next := step(xs[0], read);
      if next.Unparsed? then Unparsed(next.error) else ReadAll(step, xs[1..], read + [next.value])
  }

  function ReadList<T, U>(step: (T, seq<U>) -> Parsed<U>, xs: seq<T>): Parsed<seq<U>> {
    if |xs| > MAX_CASES then Unparsed(EntryLimitExceeded) else ReadAll(step, xs, [])
  }

  /** Every prefix of a list that is read passed its step. */
  ghost predicate Passed<T, U>(step: (T, seq<U>) -> Parsed<U>, xs: seq<T>, us: seq<U>) {
    |us| == |xs| && forall i :: 0 <= i < |xs| ==> step(xs[i], us[..i]) == Parsed(us[i])
  }

  lemma {:induction false} ReadPasses<T, U>(step: (T, seq<U>) -> Parsed<U>, done: seq<T>, xs: seq<T>, read: seq<U>)
    requires Passed(step, done, read)
    ensures ReadAll(step, xs, read).Parsed? ==> Passed(step, done + xs, ReadAll(step, xs, read).value)
    decreases |xs|
  {
    if xs == [] {
      assert done + xs == done;
    } else {
      var next := step(xs[0], read);
      if next.Parsed? {
        var more := read + [next.value];
        assert forall i :: 0 <= i < |read| ==> more[..i] == read[..i];
        assert more[..|read|] == read;
        ReadPasses(step, done + [xs[0]], xs[1..], more);
        assert done + [xs[0]] + xs[1..] == done + xs;
      }
    }
  }

  lemma {:induction false} PassedReads<T, U>(step: (T, seq<U>) -> Parsed<U>, xs: seq<T>, us: seq<U>, i: nat)
    requires Passed(step, xs, us) && i <= |xs|
    ensures ReadAll(step, xs[i..], us[..i]) == Parsed(us)
    decreases |xs| - i
  {
    if i < |xs| {
      assert us[..i] + [us[i]] == us[..i + 1] && xs[i..][1..] == xs[i + 1..];
      PassedReads(step, xs, us, i + 1);
    } else {
      assert us[..i] == us;
    }
  }

  /** A list is read exactly if it is short enough and all its items pass. */
  lemma ReadMeans<T, U>(step: (T, seq<U>) -> Parsed<U>, xs: seq<T>, us: seq<U>)
    ensures ReadList(step, xs) == Parsed(us) <==> |xs| <= MAX_CASES && Passed(step, xs, us)
  {
    ReadPasses(step, [], xs, []);
    assert [] + xs == xs;
    if Passed(step, xs, us) {
      PassedReads(step, xs, us, 0);
      assert xs[0..] == xs && us[..0] == [];
    }
  }

  predicate ValidCaseId(s: string) {
    CaseId.ParseMunicipalCaseId(s).Some? || CaseId.ParseSyntheticCaseId(s).Some?
  }

  predicate SafePositive(n: int) {
    1 <= n <= Binary64.MAX_SAFE_INTEGER
  }

  /** `parseHead`, and the running order of the Case ids. */
  function HeadStep(h: Head, read: seq<Head>): Parsed<Head> {
    if !(ValidCaseId(h.caseId) && 3 <= h.caseVersion <= Binary64.MAX_SAFE_INTEGER
         && IsChecksum(h.journalHeadChecksum)) then
      Unparsed(HeadInvalid)
    else if read != [] && read[|read| - 1].caseId == h.caseId then Unparsed(HeadDuplicate)
    else if read != [] && !Less(read[|read| - 1].caseId, h.caseId) then Unparsed(HeadsNotCanonical)
    else Parsed(h)
  }

  function HeadReader(): (Head, seq<Head>) -> Parsed<Head> {
    (h: Head, read: seq<Head>) => HeadStep(h, read)
  }

  function LastSequence(read: seq<W.Entry>): nat {
    W.Last(0, read)
  }

  /** `parseOutboxEntry`, and the Cases, roots and receipts seen before. */
  function EntryStep(digest: Digest, e: OutboxEntry, read: seq<W.Entry>): Parsed<W.Entry> {
    if !SafePositive(e.sequence) || e.sequence <= LastSequence(read) then Unparsed(OutboxSequenceInvalid)
    else
      match VerifyReceipt(digest, e.receipt)
      case Refused(error) => Unparsed(ReceiptRefused(error))
      case Verified(r) =>
        var entry := W.Entry(e.sequence, r);
        if W.CaseOf(entry) in W.Cases(read) then Unparsed(CaseDuplicate)
        else if W.RootOf(entry) in W.Roots(read) then Unparsed(RootDuplicate)
        else if W.Checksum(entry) in W.Checksums(read) then Unparsed(ReceiptDuplicate)
        else Parsed(entry)
  }

  function EntryReader(digest: Digest): (OutboxEntry, seq<W.Entry>) -> Parsed<W.Entry> {
    (e: OutboxEntry, read: seq<W.Entry>) => EntryStep(digest, e, read)
  }

  function BindingStep(b: Binding, read: seq<Binding>): Parsed<Binding> {
    if !(SafePositive(b.sequence) && (read != [] ==> b.sequence > read[|read| - 1].sequence)
         && ValidCaseId(b.caseId) && IsHex64(b.rootEventId) && IsChecksum(b.receiptChecksum)
         && IsChecksum(b.caseIdResponseBodyChecksum) && IsChecksum(b.discussionRootResponseBodyChecksum)) then
      Unparsed(BindingEvidenceInvalid)
    else if exists k :: 0 <= k < |read| && read[k].caseId == b.caseId then Unparsed(CaseDuplicate)
    else if exists k :: 0 <= k < |read| && read[k].rootEventId == b.rootEventId then Unparsed(RootDuplicate)
    else if exists k :: 0 <= k < |read| && read[k].receiptChecksum == b.receiptChecksum then Unparsed(ReceiptDuplicate)
    else Parsed(b)
  }

  function BindingReader(): (Binding, seq<Binding>) -> Parsed<Binding> {
    (b: Binding, read: seq<Binding>) => BindingStep(b, read)
  }

  /** `parseHeads`: one loop with a running previous Case id. */
  method ParseHeads(hs: seq<Head>) returns (r: Parsed<seq<Head>>)
    ensures r == ReadList(HeadReader(), hs)
  {
    hide ValidCaseId, IsChecksum, Less;
    if |hs| > MAX_CASES {
      return Unparsed(EntryLimitExceeded);
    }
    var heads: seq<Head> := [];
    var previousCaseId: Option<string> := None;
    var n := 0;
    while n < |hs|
      invariant 0 <= n <= |hs|
      invariant previousCaseId == if heads == [] then None else Some(heads[|heads| - 1].caseId)
      invariant ReadAll(HeadReader(), hs, []) == ReadAll(HeadReader(), hs[n..], heads)
    {
      var head := hs[n];
      assert HeadReader()(head, heads) == HeadStep(head, heads);
      if !(ValidCaseId(head.caseId) && 3 <= head.caseVersion <= Binary64.MAX_SAFE_INTEGER
           && IsChecksum(head.journalHeadChecksum)) {
        return Unparsed(HeadInvalid);
      }
      if previousCaseId.Some? && !Less(previousCaseId.value, head.caseId) {
        LessIrreflexive(head.caseId);
        return Unparsed(if head.caseId == previousCaseId.value then HeadDuplicate else HeadsNotCanonical);
      }
      if previousCaseId == Some(head.caseId) {
        LessIrreflexive(head.caseId);
      }
      previousCaseId := Some(head.caseId);
      heads := heads + [head];
      n := n + 1;
    }
    return Parsed(heads);
  }

  /** `parseOutboxEntries`: one loop with the previous sequence and three sets. */
  method ParseOutboxEntries(digest: Digest, es: seq<OutboxEntry>) returns (r: Parsed<seq<W.Entry>>)
    ensures r == ReadList(EntryReader(digest), es)
  {
    hide VerifyReceipt, W.Checksum, W.CaseOf, W.RootOf, W.Checksums, W.Cases, W.Roots;
    if |es| > MAX_CASES {
      return Unparsed(EntryLimitExceeded);
    }
    var entries: seq<W.Entry> := [];
    W.NothingSeen(digest, 0);
    var caseIds: set<string>, roots: set<string>, receiptChecksums: set<string> := {}, {}, {};
    var previousSequence := 0;
    var n := 0;
    while n < |es|
      invariant 0 <= n <= |es|
      invariant previousSequence == LastSequence(entries)
      invariant caseIds == W.Cases(entries) && roots == W.Roots(entries) && receiptChecksums == W.Checksums(entries)
      invariant ReadAll(EntryReader(digest), es, []) == ReadAll(EntryReader(digest), es[n..], entries)
    {
      var item := es[n];
      assert EntryReader(digest)(item, entries) == EntryStep(digest, item, entries);
      if !SafePositive(item.sequence) || item.sequence <= previousSequence {
        return Unparsed(OutboxSequenceInvalid);
      }
      var verdict := VerifyReceipt(digest, item.receipt);
      if verdict.Refused? {
        return Unparsed(ReceiptRefused(verdict.error));
      }
      var entry := W.Entry(item.sequence, verdict.receipt);
      if W.CaseOf(entry) in caseIds {
        return Unparsed(CaseDuplicate);
      }
      if W.RootOf(entry) in roots {
        return Unparsed(RootDuplicate);
      }
      if W.Checksum(entry) in receiptChecksums {
        return Unparsed(ReceiptDuplicate);
      }
      W.SeenGrow(entries, entry);
      caseIds, roots := caseIds + {W.CaseOf(entry)}, roots + {W.RootOf(entry)};
      receiptChecksums := receiptChecksums + {W.Checksum(entry)};
      previousSequence := entry.sequence;
      entries := entries + [entry];
      n := n + 1;
    }
    return Parsed(entries);
  }

  // The evidence.

  function HeadValue(h: Head): Value {
    Object([Member("caseId", Text(h.caseId)), Member("caseVersion", Number(h.caseVersion)),
            Member("journalHeadChecksum", Text(h.journalHeadChecksum))])
  }

  function BindingValue(b: Binding): Value {
    Object([Member("caseId", Text(b.caseId)), Member("caseIdResponseBodyChecksum", Text(b.caseIdResponseBodyChecksum)),
            Member("discussionRootResponseBodyChecksum", Text(b.discussionRootResponseBodyChecksum)),
            Member("receiptChecksum", Text(b.receiptChecksum)), Member("rootEventId", Text(b.rootEventId)),
            Member("sequence", Number(b.sequence))])
  }

  function HeadsValue(hs: seq<Head>): Value {
    Object([Member("orderedHeads", Array(seq(|hs|, i requires 0 <= i < |hs| => HeadValue(hs[i])))),
            Member("schemaVersion", Text(HEADS_SCHEMA))])
  }

  function BindingsValue(bs: seq<Binding>): Value {
    Object([Member("orderedBindingEvidence", Array(seq(|bs|, i requires 0 <= i < |bs| => BindingValue(bs[i])))),
            Member("schemaVersion", Text(PROJECTION_SCHEMA))])
  }

  function ChecksumOfValue(digest: Digest, v: Value): string {
    CHECKSUM_PREFIX + digest(Canonical(v))
  }

  function BodyChecksum(digest: Digest, body: string): string {
    CHECKSUM_PREFIX + digest(body)
  }

  /** The position of the head of a Case, or the number of heads. */
  function HeadOf(hs: seq<Head>, caseId: string): (i: nat)
    ensures i <= |hs|
    ensures i < |hs| ==> hs[i].caseId == caseId
    ensures forall j :: 0 <= j < i ==> hs[j].caseId != caseId
  {
    if hs == [] || hs[0].caseId == caseId then 0 else 1 + HeadOf(hs[1..], caseId)
  }

  predicate EntryMatches(hs: seq<Head>, e: W.Entry) {
    var i := HeadOf(hs, W.CaseOf(e));
    i < |hs| && hs[i].caseVersion >= 3
    && (hs[i].caseVersion == 3 ==> hs[i].journalHeadChecksum == TextOf(e.receipt, "journalHeadChecksum"))
  }

  /** `assertCaseSetsMatch`. */
  predicate CaseSetsMatch(hs: seq<Head>, es: seq<W.Entry>) {
    |hs| == |es| && forall i :: 0 <= i < |es| ==> EntryMatches(hs, es[i])
  }

  function ReceiptsOf(es: seq<W.Entry>): seq<Value> {
    seq(|es|, i requires 0 <= i < |es| => es[i].receipt)
  }

  /** `bindingEvidence`: the checksums of the two public responses that the projection gives. */
  function BindingOf(digest: Digest, x: B.Index, e: W.Entry): Parsed<Binding> {
    var byCase, byRoot := B.Get(x, W.CaseOf(e)), B.GetByRoot(x, W.RootOf(e));
    if byCase.None? || byRoot.None? then Unparsed(ProjectionRefused)
    else Parsed(Binding(e.sequence, W.CaseOf(e), W.RootOf(e), W.Checksum(e),
                        BodyChecksum(digest, B.ResponseBody(byCase.value)),
                        BodyChecksum(digest, B.ResponseBody(byRoot.value))))
  }

  function BindingsOf(digest: Digest, x: B.Index, es: seq<W.Entry>): Parsed<seq<Binding>> {
    if es == [] then Parsed([])
    else
      var first := BindingOf(digest, x, es[0]);
      var rest := BindingsOf(digest, x, es[1..]);
      if first.Unparsed? then Unparsed(first.error) else if rest.Unparsed? then rest
      else Parsed([first.value] + rest.value)
  }

  /** `buildEvidence`. */
  function Build(digest: Digest, hs: seq<Head>, es: seq<W.Entry>): Parsed<Evidence> {
    if |hs| != |es| then Unparsed(CaseSetMismatch)
    else if !CaseSetsMatch(hs, es) then Unparsed(CaseMismatch)
    else
      var x := B.RecordAll(digest, ReceiptsOf(es));
      if x.Refused? then Unparsed(ProjectionRefused)
      else
        var bs := BindingsOf(digest, x.index, es);
        if bs.Unparsed? then Unparsed(bs.error)
        else Parsed(Evidence(hs, ChecksumOfValue(digest, HeadsValue(hs)), W.Last(0, es), |bs.value|, bs.value,
                             ChecksumOfValue(digest, BindingsValue(bs.value))))
  }

  predicate HasHead(hs: seq<Head>, b: Binding) {
    HeadOf(hs, b.caseId) < |hs|
  }

  /** `verifyParsedEvidence`. */
  function Verify(digest: Digest, e: Evidence): Parsed<Evidence> {
    var hs := ReadList(HeadReader(), e.orderedHeads);
    var bs := ReadList(BindingReader(), e.orderedBindingEvidence);
    if !(IsChecksum(e.headsAggregateChecksum) && IsChecksum(e.publicProjectionChecksum)
         && 0 <= e.outboxCursor <= Binary64.MAX_SAFE_INTEGER && 0 <= e.projectionEntryCount <= MAX_CASES) then
      Unparsed(EvidenceInvalid)
    else if hs.Unparsed? then Unparsed(hs.error)
    else if bs.Unparsed? then Unparsed(bs.error)
    else if |bs.value| != e.projectionEntryCount then Unparsed(ProjectionCountInvalid)
    else if (if bs.value == [] then 0 else bs.value[|bs.value| - 1].sequence) != e.outboxCursor then
      Unparsed(OutboxCursorInvalid)
    else if |hs.value| != |bs.value| then Unparsed(CaseSetMismatch)
    else if exists k :: 0 <= k < |bs.value| && !HasHead(hs.value, bs.value[k]) then Unparsed(CaseMismatch)
    else if ChecksumOfValue(digest, HeadsValue(hs.value)) != e.headsAggregateChecksum then
      Unparsed(HeadsChecksumInvalid)
    else if ChecksumOfValue(digest, BindingsValue(bs.value)) != e.publicProjectionChecksum then
      Unparsed(ProjectionChecksumInvalid)
    else Parsed(Evidence(hs.value, e.headsAggregateChecksum, e.outboxCursor, e.projectionEntryCount, bs.value,
                         e.publicProjectionChecksum))
  }

  /** `createCaseStateRecoveryEvidence`. */
  function Create(digest: Digest, hs: seq<Head>, es: seq<OutboxEntry>): Parsed<Evidence> {
    var heads := ReadList(HeadReader(), hs);
    var entries := ReadList(EntryReader(digest), es);
    if heads.Unparsed? then Unparsed(heads.error)
    else if entries.Unparsed? then Unparsed(entries.error)
    else
      var built := Build(digest, heads.value, entries.value);
      if built.Unparsed? then built else Verify(digest, built.value)
  }
}
