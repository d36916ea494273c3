/** The in-memory projection of Case-binding receipts: two indexes that never disagree. */
module BindingProjection {
  import opened Results
  import opened Json
  import opened JsonRoundTrip
  import opened CaseReceipt
  import CaseId

  datatype ProjectionError = BadReceipt(error: ReceiptError) | BindingConflict | RootConflict

  /** The receipts by Case id and by the id of the root event. */
  datatype Index = Index(byCase: map<string, Value>, byRoot: map<string, Value>)

  datatype Recorded = Recorded(index: Index) | Refused(error: ProjectionError)

  const EMPTY := Index(map[], map[])

  function CaseIdOf(r: Value): string {
    TextOf(r, "caseId")
  }

  function RootIdOf(r: Value): string {
    TextOf(r, "rootEventId")
  }

  /** The entry of a map that is another receipt. */
  predicate Conflicts(m: map<string, Value>, key: string, r: Value) {
    key in m && Canonical(m[key]) != Canonical(r)
  }

  /** `recordReceipt`. */
  function Record(digest: Digest, x: Index, v: Value): Recorded {
    match VerifyReceipt(digest, v)
    case Refused(e) => Recorded.Refused(BadReceipt(e))
    case Verified(r) =>
      if Conflicts(x.byCase, CaseIdOf(r), r) then Recorded.Refused(BindingConflict)
      else if Conflicts(x.byRoot, RootIdOf(r), r) then Recorded.Refused(RootConflict)
      else Recorded(Index(x.byCase[CaseIdOf(r) := r], x.byRoot[RootIdOf(r) := r]))
  }

  /** Recording a list, one receipt after the other. */
  function RecordAll(digest: Digest, vs: seq<Value>): Recorded {
    if vs == [] then Recorded(EMPTY)
    else
      var x := RecordAll(digest, vs[..|vs| - 1]);
      if x.Refused? then x else Record(digest, x.index, vs[|vs| - 1])
  }

  /** `reader.get`. */
  function Get(x: Index, caseId: string): Option<Value> {
    if CaseId.ParseMunicipalCaseId(caseId).None? && CaseId.ParseSyntheticCaseId(caseId).None? then None
    else if caseId in x.byCase then Some(x.byCase[caseId]) else None
  }

  /** `reader.getByRootEventId`. */
  function GetByRoot(x: Index, root: string): Option<Value> {
    if !IsHex64(root) then None else if root in x.byRoot then Some(x.byRoot[root]) else None
  }

  /** The body of the two public responses for a receipt. */
  function ResponseBody(r: Value): string {
    Canonical(r) + "\n"
  }

  class InMemoryCaseBindingProjection {
    var receipts: map<string, Value>
    var receiptsByRootEventId: map<string, Value>

    function View(): Index
      reads this
    {
      Index(receipts, receiptsByRootEventId)
    }

    constructor ()
      ensures View() == EMPTY
    {
      receipts, receiptsByRootEventId := map[], map[];
    }

    /** Either both indexes hold the receipt, or neither has changed. */
    method RecordReceipt(digest: Digest, v: Value) returns (error: Option<ProjectionError>)
      modifies this
      ensures Record(digest, old(View()), v) == if error.Some? then Recorded.Refused(error.value) else Recorded(View())
      ensures error.Some? ==> View() == old(View())
    {
      var verdict := VerifyReceipt(digest, v);
      if verdict.Refused? {
        return Some(BadReceipt(verdict.error));
      }
      var receipt := verdict.receipt;
      if CaseIdOf(receipt) in receipts && Canonical(receipts[CaseIdOf(receipt)]) != Canonical(receipt) {
        return Some(BindingConflict);
      }
      if RootIdOf(receipt) in receiptsByRootEventId
         && Canonical(receiptsByRootEventId[RootIdOf(receipt)]) != Canonical(receipt) {
        return Some(RootConflict);
      }
      receipts := receipts[CaseIdOf(receipt) := receipt];
      receiptsByRootEventId := receiptsByRootEventId[RootIdOf(receipt) := receipt];
      return None;
    }

    /** The initial receipts of `createInMemoryCaseBindingProjection`. */
    method RecordInitial(digest: Digest, vs: seq<Value>) returns (error: Option<ProjectionError>)
      requires View() == EMPTY
      modifies this
      ensures RecordAll(digest, vs) == if error.Some? then Recorded.Refused(error.value) else Recorded(View())
    {
      hide Record;
      var n := 0;
      assert vs[..0] == [];
      while n < |vs|
        invariant 0 <= n <= |vs|
        invariant RecordAll(digest, vs[..n]) == Recorded(View())
      {
        assert vs[..n + 1][..n] == vs[..n];
        error := RecordReceipt(digest, vs[n]);
        if error.Some? {
          RefusedStays(digest, vs, n + 1);
          return;
        }
        n := n + 1;
      }
      assert vs[..n] == vs;
      return None;
    }
  }

  lemma {:induction false} RefusedStays(digest: Digest, vs: seq<Value>, m: nat)
    requires m <= |vs| && RecordAll(digest, vs[..m]).Refused?
    ensures RecordAll(digest, vs) == RecordAll(digest, vs[..m])
  {
    hide Record;
    if m < |vs| {
      var init := vs[..|vs| - 1];
      assert init[..m] == vs[..m];
      RefusedStays(digest, init, m);
    } else {
      assert vs[..m] == vs;
    }
  }

  // Which lists are accepted, and what the indexes then hold.

  predicate AllVerify(digest: Digest, vs: seq<Value>) {
    forall i :: 0 <= i < |vs| ==> VerifyReceipt(digest, vs[i]).Verified?
  }

  /** Two receipts are the same, or of different Cases and of different roots. */
  predicate Compatible(r: Value, s: Value) {
    r == s || (CaseIdOf(r) != CaseIdOf(s) && RootIdOf(r) != RootIdOf(s))
  }

  predicate CompatibleWithAll(r: Value, rs: set<Value>) {
    forall s | s in rs :: Compatible(r, s)
  }

  predicate AllCompatible(vs: seq<Value>) {
    forall i, j :: 0 <= i < |vs| && 0 <= j < |vs| ==> Compatible(Normal(vs[i]), Normal(vs[j]))
  }

  /** The receipts of a list. */
  function Receipts(vs: seq<Value>): set<Value> {
    set v | v in vs :: Normal(v)
  }

  /** Both indexes hold exactly the given receipts, each under its own key. */
  ghost predicate Holds(x: Index, rs: set<Value>) {
    && (forall r :: r in rs ==> CaseIdOf(r) in x.byCase && x.byCase[CaseIdOf(r)] == r)
    && (forall r :: r in rs ==> RootIdOf(r) in x.byRoot && x.byRoot[RootIdOf(r)] == r)
    && (forall c :: c in x.byCase ==> x.byCase[c] in rs && CaseIdOf(x.byCase[c]) == c)
    && (forall c :: c in x.byRoot ==> x.byRoot[c] in rs && RootIdOf(x.byRoot[c]) == c)
  }

  lemma ReceiptsGrow(vs: seq<Value>)
    requires vs != []
    ensures Receipts(vs) == Receipts(vs[..|vs| - 1]) + {Normal(vs[|vs| - 1])}
  {
    hide Normal;
    assert vs == vs[..|vs| - 1] + [vs[|vs| - 1]];
  }

  lemma VerifiedIsPlain(digest: Digest, v: Value)
    requires VerifyReceipt(digest, v).Verified?
    ensures VerifyReceipt(digest, v).receipt == Normal(v) && Plain(Normal(v)) && Normal(Normal(v)) == Normal(v)
  {
    hide VerifyReceipt, IsReceipt, Normal;
    VerifiedFixed(digest, v);
    ReceiptIsPlain(digest, Normal(v));
  }

  lemma ReceiptsPlain(digest: Digest, vs: seq<Value>)
    requires AllVerify(digest, vs)
    ensures forall r :: r in Receipts(vs) ==> Plain(r) && Normal(r) == r
  {
    hide Normal, Plain, VerifyReceipt;
    forall i | 0 <= i < |vs| ensures Plain(Normal(vs[i])) && Normal(Normal(vs[i])) == Normal(vs[i]) {
      VerifiedIsPlain(digest, vs[i]);
    }
  }

  /** A receipt conflicts with what an index holds exactly if it is incompatible with one of its receipts. */
  lemma ConflictMeans(digest: Digest, x: Index, rs: set<Value>, r: Value)
    requires Holds(x, rs) && (forall s :: s in rs ==> Plain(s) && Normal(s) == s) && Plain(r) && Normal(r) == r
    ensures Conflicts(x.byCase, CaseIdOf(r), r) || Conflicts(x.byRoot, RootIdOf(r), r) <==> !CompatibleWithAll(r, rs)
  {
    hide Normal, Plain, CaseIdOf, RootIdOf, Canonical;
    forall s | s in rs ensures Canonical(s) == Canonical(r) <==> s == r {
      CanonicalInjective(s, r);
    }
  }

  lemma RecordedHolds(x: Index, rs: set<Value>, r: Value)
    requires Holds(x, rs) && CompatibleWithAll(r, rs)
    ensures Holds(Index(x.byCase[CaseIdOf(r) := r], x.byRoot[RootIdOf(r) := r]), rs + {r})
  {
    hide CaseIdOf, RootIdOf;
  }

  lemma {:induction false} RecordAllHolds(digest: Digest, vs: seq<Value>)
    ensures RecordAll(digest, vs).Recorded? <==> AllVerify(digest, vs) && AllCompatible(vs)
    ensures RecordAll(digest, vs).Recorded? ==> Holds(RecordAll(digest, vs).index, Receipts(vs))
  {
    hide VerifyReceipt, Plain, Normal, Holds, Compatible, Conflicts, Canonical;
    if vs == [] {
      EmptyHolds();
    } else {
      var n, v := |vs| - 1, vs[|vs| - 1];
      RecordAllHolds(digest, vs[..n]);
      if RecordAll(digest, vs[..n]).Recorded? && VerifyReceipt(digest, v).Verified? {
        var x, rs, r := RecordAll(digest, vs[..n]).index, Receipts(vs[..n]), Normal(v);
        VerifiedIsPlain(digest, v);
        ReceiptsPlain(digest, vs[..n]);
        ConflictMeans(digest, x, rs, r);
        ReceiptsGrow(vs);
        CompatibleStep(vs);
        if CompatibleWithAll(r, rs) {
          RecordedHolds(x, rs, r);
        }
      }
    }
  }

  lemma EmptyHolds()
    ensures Holds(EMPTY, Receipts([]))
  {
  }

  lemma CompatibleStep(vs: seq<Value>)
    requires vs != []
    ensures AllCompatible(vs) <==>
            && AllCompatible(vs[..|vs| - 1])
            && CompatibleWithAll(Normal(vs[|vs| - 1]), Receipts(vs[..|vs| - 1]))
  {
    hide Normal, CaseIdOf, RootIdOf;
    var n := |vs| - 1;
    assert forall i :: 0 <= i < n ==> vs[..n][i] == vs[i];
    if AllCompatible(vs) {
      forall s | s in Receipts(vs[..n]) ensures Compatible(Normal(vs[n]), s) {
        var i :| 0 <= i < n && Normal(vs[i]) == s;
      }
    }
    if AllCompatible(vs[..n]) && CompatibleWithAll(Normal(vs[n]), Receipts(vs[..n])) {
      forall i | 0 <= i < n ensures Compatible(Normal(vs[n]), Normal(vs[i])) {
        assert vs[..n][i] in vs[..n];
        assert Normal(vs[i]) in Receipts(vs[..n]);
      }
      forall i, j | 0 <= i < |vs| && 0 <= j < |vs| ensures Compatible(Normal(vs[i]), Normal(vs[j])) {
        if i < n && j < n {
          assert Compatible(Normal(vs[..n][i]), Normal(vs[..n][j]));
        }
      }
    }
  }

  /** Indexes that hold one set of receipts are the same. */
  lemma HoldsUnique(x: Index, y: Index, rs: set<Value>)
    requires Holds(x, rs) && Holds(y, rs)
    ensures x == y
  {
    hide CaseIdOf, RootIdOf;
    assert x.byCase == y.byCase;
    assert x.byRoot == y.byRoot;
  }

  /**
   A list is accepted exactly if all its receipts verify and any two are equal or differ in both Case
   and root; then the two indexes hold exactly its receipts, and any list of the same receipts gives
   the same reader: neither order nor repetition matters.
   */
  lemma AcceptedLists(digest: Digest, vs: seq<Value>, ws: seq<Value>)
    ensures RecordAll(digest, vs).Recorded? <==> AllVerify(digest, vs) && AllCompatible(vs)
    ensures RecordAll(digest, vs).Recorded? ==> Holds(RecordAll(digest, vs).index, Receipts(vs))
    ensures RecordAll(digest, vs).Recorded? && RecordAll(digest, ws).Recorded? && Receipts(vs) == Receipts(ws) ==>
              RecordAll(digest, vs).index == RecordAll(digest, ws).index
  {
    hide RecordAll, Receipts, AllVerify, AllCompatible, Holds;
    RecordAllHolds(digest, vs);
    RecordAllHolds(digest, ws);
    if RecordAll(digest, vs).Recorded? && RecordAll(digest, ws).Recorded? && Receipts(vs) == Receipts(ws) {
      HoldsUnique(RecordAll(digest, vs).index, RecordAll(digest, ws).index, Receipts(vs));
    }
  }

  /** Permuting an accepted list changes nothing. */
  lemma AnyOrder(digest: Digest, vs: seq<Value>, ws: seq<Value>)
    requires multiset(vs) == multiset(ws) && RecordAll(digest, vs).Recorded?
    ensures RecordAll(digest, ws) == RecordAll(digest, vs)
  {
    hide RecordAll, Plain, VerifyReceipt, Compatible, Normal;
    forall i | 0 <= i < |ws| ensures ws[i] in vs {
      assert ws[i] in multiset(vs);
    }
    forall i | 0 <= i < |vs| ensures vs[i] in ws {
      assert vs[i] in multiset(ws);
    }
    assert Receipts(vs) == Receipts(ws);
    AcceptedLists(digest, vs, ws);
    AcceptedLists(digest, ws, vs);
  }

  /** Recording a receipt again changes nothing. */
  lemma RecordingAgain(digest: Digest, x: Index, v: Value)
    requires Record(digest, x, v).Recorded?
    ensures Record(digest, Record(digest, x, v).index, v) == Record(digest, x, v)
  {
    hide VerifyReceipt, Canonical;
  }

  /** The reader finds every receipt under its Case id and under its root. */
  lemma ReadersFind(digest: Digest, x: Index, rs: set<Value>, r: Value)
    requires Holds(x, rs) && r in rs && IsReceipt(digest, r)
    ensures Get(x, CaseIdOf(r)) == Some(r) && GetByRoot(x, RootIdOf(r)) == Some(r)
  {
    hide SchemaOf, SchemaOk, CandidateOk, FieldsOf, Normal, IsHex64, TextOf, CaseId.ParseMunicipalCaseId,
      CaseId.ParseSyntheticCaseId;
  }
}
