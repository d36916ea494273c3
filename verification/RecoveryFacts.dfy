/** What recovery evidence proves: built evidence verifies, verified evidence is complete, its checksums fix it. */
module RecoveryFacts {
  import opened Results
  import opened Texts
  import opened Json
  import opened JsonRoundTrip
  import opened CaseReceipt
  import opened RecoveryEvidence
  import opened Pigeonholes

  /** What is assumed of SHA-256: a digest is 64 hexadecimal digits. */
  ghost predicate HexDigest(digest: Digest) {
    forall s :: IsHex64(digest(s))
  }

  /** The assumption can be met. */
  lemma HexDigestExists() returns (digest: Digest)
    ensures HexDigest(digest)
  {
    digest := (s: string) => seq(64, i => '0');
  }

  /**
   Two texts with one digest. With a digest of bounded length there are such texts; that none is found is
   what SHA-256 is for.
   */
  predicate Collide(digest: Digest, s: string, t: string) {
    s != t && digest(s) == digest(t)
  }

  // What the readers accept.

  lemma ReadHeads(hs: seq<Head>)
    ensures ReadList(HeadReader(), hs).Parsed? ==>
              && ReadList(HeadReader(), hs).value == hs
              && forall i, j :: 0 <= i < j < |hs| ==> Less(hs[i].caseId, hs[j].caseId) && hs[i].caseId != hs[j].caseId
  {
    hide ValidCaseId, IsChecksum, Less;
    if ReadList(HeadReader(), hs).Parsed? {
      var us := ReadList(HeadReader(), hs).value;
      ReadMeans(HeadReader(), hs, us);
      forall i | 0 <= i < |hs| ensures us[i] == hs[i] && (i > 0 ==> Less(hs[i - 1].caseId, hs[i].caseId)) {
        assert HeadReader()(hs[i], us[..i]) == HeadStep(hs[i], us[..i]);
        if i > 0 {
          assert HeadReader()(hs[i - 1], us[..i - 1]) == HeadStep(hs[i - 1], us[..i - 1]);
        }
      }
      assert us == hs;
      forall i, j | 0 <= i < j < |hs| ensures Less(hs[i].caseId, hs[j].caseId) && hs[i].caseId != hs[j].caseId {
        StepsAscend(hs, i, j);
        LessIrreflexive(hs[i].caseId);
      }
    }
  }

  lemma {:induction false} StepsAscend(hs: seq<Head>, i: nat, j: nat)
    requires i < j < |hs| && forall k :: 0 < k < |hs| ==> Less(hs[k - 1].caseId, hs[k].caseId)
    ensures Less(hs[i].caseId, hs[j].caseId)
  {
    if i + 1 < j {
      StepsAscend(hs, i, j - 1);
      LessTransitive(hs[i].caseId, hs[j - 1].caseId, hs[j].caseId);
    }
  }

  ghost predicate GoodBinding(b: Binding) {
    && SafePositive(b.sequence) && ValidCaseId(b.caseId) && IsHex64(b.rootEventId) && IsChecksum(b.receiptChecksum)
    && IsChecksum(b.caseIdResponseBodyChecksum) && IsChecksum(b.discussionRootResponseBodyChecksum)
  }

  /** Good bindings at increasing sequences, no Case, root or receipt twice. */
  ghost predicate GoodBindings(bs: seq<Binding>) {
    && (forall i :: 0 <= i < |bs| ==> GoodBinding(bs[i]))
    && forall i, j :: 0 <= i < j < |bs| ==>
                        && bs[i].sequence < bs[j].sequence && bs[i].caseId != bs[j].caseId
                        && bs[i].rootEventId != bs[j].rootEventId && bs[i].receiptChecksum != bs[j].receiptChecksum
  }

  lemma {:induction false} ReadBindings(bs: seq<Binding>)
    ensures ReadList(BindingReader(), bs).Parsed? ==> ReadList(BindingReader(), bs).value == bs && GoodBindings(bs)
    ensures |bs| <= MAX_CASES && GoodBindings(bs) ==> ReadList(BindingReader(), bs) == Parsed(bs)
  {
    hide ValidCaseId, IsChecksum, IsHex64;
    if ReadList(BindingReader(), bs).Parsed? {
      var us := ReadList(BindingReader(), bs).value;
      ReadMeans(BindingReader(), bs, us);
      forall i | 0 <= i < |bs| ensures us[i] == bs[i] {
        assert BindingReader()(bs[i], us[..i]) == BindingStep(bs[i], us[..i]);
      }
      assert us == bs;
      PassedAreGood(bs, |bs|);
      assert bs[..|bs|] == bs;
    }
    if |bs| <= MAX_CASES && GoodBindings(bs) {
      forall i | 0 <= i < |bs| ensures BindingReader()(bs[i], bs[..i]) == Parsed(bs[i]) {
        assert BindingReader()(bs[i], bs[..i]) == BindingStep(bs[i], bs[..i]);
        assert forall k :: 0 <= k < i ==> bs[..i][k] == bs[k];
      }
      ReadMeans(BindingReader(), bs, bs);
    }
  }

  lemma {:induction false} PassedAreGood(bs: seq<Binding>, n: nat)
    requires Passed(BindingReader(), bs, bs) && n <= |bs|
    ensures GoodBindings(bs[..n])
  {
    hide BindingStep;
    if n > 0 {
      PassedAreGood(bs, n - 1);
      assert BindingReader()(bs[n - 1], bs[..n - 1]) == BindingStep(bs[n - 1], bs[..n - 1]);
      GoodBindingsExtend(bs[..n - 1], bs[n - 1]);
      assert bs[..n] == bs[..n - 1] + [bs[n - 1]];
    }
  }

  lemma GoodBindingsExtend(bs: seq<Binding>, b: Binding)
    requires GoodBindings(bs) && BindingStep(b, bs) == Parsed(b)
    ensures GoodBindings(bs + [b])
  {
    hide ValidCaseId, IsChecksum, IsHex64;
  }

  // Verified evidence.

  function HeadIds(hs: seq<Head>): seq<string> {
    seq(|hs|, i requires 0 <= i < |hs| => hs[i].caseId)
  }

  function BindingIds(bs: seq<Binding>): seq<string> {
    seq(|bs|, i requires 0 <= i < |bs| => bs[i].caseId)
  }

  /** Verified evidence is unchanged, and has exactly the same Cases in its heads and in its bindings. */
  lemma VerifiedSameCases(digest: Digest, e: Evidence)
    requires Verify(digest, e).Parsed?
    ensures Verify(digest, e).value == e
    ensures forall c :: c in HeadIds(e.orderedHeads) <==> c in BindingIds(e.orderedBindingEvidence)
  {
    hide ChecksumOfValue, IsChecksum, ReadList;
    var hs, bs := e.orderedHeads, e.orderedBindingEvidence;
    ReadHeads(hs);
    ReadBindings(bs);
    forall k | 0 <= k < |bs| ensures BindingIds(bs)[k] in HeadIds(hs) {
      assert HasHead(hs, bs[k]);
      assert HeadIds(hs)[HeadOf(hs, bs[k].caseId)] == bs[k].caseId;
    }
    Pigeonhole(BindingIds(bs), HeadIds(hs));
  }

  // The checksums fix the evidence.

  /** Objects with the same keys and one normal form have values with the same normal forms. */
  lemma SameFields(xs: seq<Member>, ys: seq<Member>)
    requires |xs| == |ys| && DistinctKeys(xs) && (forall i :: 0 <= i < |xs| ==> xs[i].key == ys[i].key)
    requires Normal(Object(xs)) == Normal(Object(ys))
    ensures forall i :: 0 <= i < |xs| ==> Normal(xs[i].value) == Normal(ys[i].value)
  {
    hide Normal, NormalMembers;
    NormalObjects(xs, ys);
    forall i | 0 <= i < |xs| ensures Normal(xs[i].value) == Normal(ys[i].value) {
      NormalMemberAt(xs, i);
      assert NormalMembers(xs)[i] in multiset(NormalMembers(ys));
      var j :| 0 <= j < |ys| && NormalMembers(ys)[j] == NormalMembers(xs)[i];
      NormalMemberAt(ys, j);
    }
  }

  lemma HeadPlain(h: Head)
    ensures Plain(HeadValue(h))
  {
    assert |"caseId"| == 6 && |"caseVersion"| == 11 && |"journalHeadChecksum"| == 19;
  }

  lemma SameHead(g: Head, h: Head)
    requires Normal(HeadValue(g)) == Normal(HeadValue(h))
    ensures g == h
  {
    HeadPlain(g);
    SameFields(HeadValue(g).members, HeadValue(h).members);
    assert forall i :: 0 <= i < 3 ==> Normal(HeadValue(g).members[i].value) == HeadValue(g).members[i].value;
    assert HeadValue(g).members[0].value == HeadValue(h).members[0].value;
    assert HeadValue(g).members[1].value == HeadValue(h).members[1].value;
    assert HeadValue(g).members[2].value == HeadValue(h).members[2].value;
  }

  lemma BindingPlain(b: Binding)
    ensures Plain(BindingValue(b))
  {
    var ms := BindingValue(b).members;
    assert |ms[0].key| == 6 && |ms[1].key| == 26 && |ms[2].key| == 34 && |ms[3].key| == 15 && |ms[4].key| == 11
           && |ms[5].key| == 8;
  }

  lemma SameBinding(b: Binding, c: Binding)
    requires Normal(BindingValue(b)) == Normal(BindingValue(c))
    ensures b == c
  {
    hide BindingValue, Normal;
    BindingPlain(b);
    BindingKeysAgree(b, c);
    SameFields(BindingValue(b).members, BindingValue(c).members);
    BindingScalars(b);
    BindingScalars(c);
    BindingOfValue(b, c);
  }

  lemma BindingScalars(b: Binding)
    ensures |BindingValue(b).members| == 6
    ensures forall i :: 0 <= i < 6 ==> Normal(BindingValue(b).members[i].value) == BindingValue(b).members[i].value
  {
  }

  lemma BindingOfValue(b: Binding, c: Binding)
    requires |BindingValue(b).members| == |BindingValue(c).members| == 6
    requires forall i :: 0 <= i < 6 ==> BindingValue(b).members[i].value == BindingValue(c).members[i].value
    ensures b == c
  {
    var ms, ns := BindingValue(b).members, BindingValue(c).members;
    assert ms[0].value == ns[0].value && ms[1].value == ns[1].value && ms[2].value == ns[2].value;
    assert ms[3].value == ns[3].value && ms[4].value == ns[4].value && ms[5].value == ns[5].value;
  }

  lemma BindingKeysAgree(b: Binding, c: Binding)
    ensures |BindingValue(b).members| == |BindingValue(c).members| == 6
    ensures forall i :: 0 <= i < 6 ==> BindingValue(b).members[i].key == BindingValue(c).members[i].key
    ensures Plain(BindingValue(b)) ==> DistinctKeys(BindingValue(b).members)
    ensures BindingValue(b) == Object(BindingValue(b).members) && BindingValue(c) == Object(BindingValue(c).members)
  {
  }

  function HeadsText(hs: seq<Head>): string {
    Canonical(HeadsValue(hs))
  }

  function BindingsText(bs: seq<Binding>): string {
    Canonical(BindingsValue(bs))
  }

  /** The text behind the heads checksum fixes the heads. */
  lemma HeadsTextBinds(gs: seq<Head>, hs: seq<Head>)
    requires HeadsText(gs) == HeadsText(hs)
    ensures gs == hs
  {
    hide Normal, Canonical, HeadValue;
    var a, b := HeadsValue(gs), HeadsValue(hs);
    forall h | h in gs + hs ensures Plain(HeadValue(h)) {
      HeadPlain(h);
    }
    assert |a.members[0].key| == 12 && |a.members[1].key| == 13;
    CanonicalInjective(a, b);
    SameFields(a.members, b.members);
    NormalArrays(a.members[0].value.items, b.members[0].value.items);
    forall i | 0 <= i < |gs| ensures gs[i] == hs[i] {
      assert a.members[0].value.items[i] == HeadValue(gs[i]) && b.members[0].value.items[i] == HeadValue(hs[i]);
      SameHead(gs[i], hs[i]);
    }
  }

  /** The text behind the projection checksum fixes the bindings. */
  lemma BindingsTextBinds(bs: seq<Binding>, cs: seq<Binding>)
    requires BindingsText(bs) == BindingsText(cs)
    ensures bs == cs
  {
    hide Normal, Canonical, BindingValue;
    var a, b := BindingsValue(bs), BindingsValue(cs);
    forall c | c in bs + cs ensures Plain(BindingValue(c)) {
      BindingPlain(c);
    }
    assert |a.members[0].key| == 22 && |a.members[1].key| == 13;
    CanonicalInjective(a, b);
    SameFields(a.members, b.members);
    NormalArrays(a.members[0].value.items, b.members[0].value.items);
    forall i | 0 <= i < |bs| ensures bs[i] == cs[i] {
      assert a.members[0].value.items[i] == BindingValue(bs[i]) && b.members[0].value.items[i] == BindingValue(cs[i]);
      SameBinding(bs[i], cs[i]);
    }
  }

  lemma SameDigest(digest: Digest, s: string, t: string)
    ensures CHECKSUM_PREFIX + digest(s) == CHECKSUM_PREFIX + digest(t) <==> s == t || Collide(digest, s, t)
  {
    assert (CHECKSUM_PREFIX + digest(s))[|CHECKSUM_PREFIX|..] == digest(s);
    assert (CHECKSUM_PREFIX + digest(t))[|CHECKSUM_PREFIX|..] == digest(t);
  }

  /** Aggregate checksums are equal exactly if the heads are, or the two texts of the heads have one digest. */
  lemma HeadsChecksumBinds(digest: Digest, gs: seq<Head>, hs: seq<Head>)
    ensures ChecksumOfValue(digest, HeadsValue(gs)) == ChecksumOfValue(digest, HeadsValue(hs)) <==>
            gs == hs || Collide(digest, HeadsText(gs), HeadsText(hs))
  {
    hide Canonical, HeadsValue;
    SameDigest(digest, HeadsText(gs), HeadsText(hs));
    if HeadsText(gs) == HeadsText(hs) {
      HeadsTextBinds(gs, hs);
    }
  }

  /** The same for the checksum of the bindings. */
  lemma BindingsChecksumBinds(digest: Digest, bs: seq<Binding>, cs: seq<Binding>)
    ensures ChecksumOfValue(digest, BindingsValue(bs)) == ChecksumOfValue(digest, BindingsValue(cs)) <==>
            bs == cs || Collide(digest, BindingsText(bs), BindingsText(cs))
  {
    hide Canonical, BindingsValue;
    SameDigest(digest, BindingsText(bs), BindingsText(cs));
    if BindingsText(bs) == BindingsText(cs) {
      BindingsTextBinds(bs, cs);
    }
  }

  /** Two pieces of verified evidence with the same two checksums are the same, or show two texts with one digest. */
  lemma ChecksumsFixEvidence(digest: Digest, e: Evidence, f: Evidence)
    requires Verify(digest, e).Parsed? && Verify(digest, f).Parsed?
    requires e.headsAggregateChecksum == f.headsAggregateChecksum
             && e.publicProjectionChecksum == f.publicProjectionChecksum
    ensures e == f || Collide(digest, HeadsText(e.orderedHeads), HeadsText(f.orderedHeads))
            || Collide(digest, BindingsText(e.orderedBindingEvidence), BindingsText(f.orderedBindingEvidence))
  {
    hide ChecksumOfValue, ReadList, IsChecksum, Collide;
    VerifiedSameCases(digest, e);
    VerifiedSameCases(digest, f);
    HeadsChecksumBinds(digest, e.orderedHeads, f.orderedHeads);
    BindingsChecksumBinds(digest, e.orderedBindingEvidence, f.orderedBindingEvidence);
  }
}
