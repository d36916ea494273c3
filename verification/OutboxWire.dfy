/** The wire contract of the credential-free outbox: verified pages and their one canonical text. */
module OutboxWire {
  import opened Results
  import opened Json
  import opened CaseReceipt
  import Binary64

  const MAX_LIMIT: nat := 256
  const MAX_PAGE_BYTES: nat := 1_048_576
  const MAX_PAGE_NODES: nat := 4_096
  const PAGE_SCHEMA_VERSION := "public_case_binding_outbox_page_v1"

  datatype Entry = Entry(sequence: nat, receipt: Value)

  datatype Page = Page(afterSequence: nat, nextSequence: Option<nat>, entries: seq<Entry>)

  /** What the caller expects of a page: the cursor it asked from and the limit it gave. */
  datatype Expectation = Expectation(afterSequence: Option<int>, limit: Option<int>)

  const ANYTHING := Expectation(None, None)

  datatype WireError =
    | PageInvalid | ReplayInvalid | SequenceInvalid | DuplicateReceipt | CaseConflict | RootConflict
    | CursorInvalid | NodesExceeded | PageTooLarge | PageNoncanonical | BadReceipt(error: ReceiptError)

  datatype Checked<+T> = Accepted(value: T) | Rejected(error: WireError)

  function Checksum(e: Entry): string {
    TextOf(e.receipt, "receiptChecksum")
  }

  function CaseOf(e: Entry): string {
    TextOf(e.receipt, "caseId")
  }

  function RootOf(e: Entry): string {
    TextOf(e.receipt, "rootEventId")
  }

  function Checksums(es: seq<Entry>): set<string> {
    set e | e in es :: Checksum(e)
  }

  function Cases(es: seq<Entry>): set<string> {
    set e | e in es :: CaseOf(e)
  }

  function Roots(es: seq<Entry>): set<string> {
    set e | e in es :: RootOf(e)
  }

  lemma SeenGrow(es: seq<Entry>, e: Entry)
    ensures Checksums(es + [e]) == Checksums(es) + {Checksum(e)}
    ensures Cases(es + [e]) == Cases(es) + {CaseOf(e)}
    ensures Roots(es + [e]) == Roots(es) + {RootOf(e)}
  {
    hide Checksum, CaseOf, RootOf;
  }

  predicate SafeNatural(v: Option<Value>) {
    v.Some? && v.value.Number? && 0 <= v.value.n <= Binary64.MAX_SAFE_INTEGER
  }

  /** The entry of a value, whatever came before it. */
  function ReadEntry(digest: Digest, v: Value, previous: nat): Checked<Entry> {
    if !Exact(v, ["sequence", "receipt"]) || Field(v, "receipt").None? then Rejected(ReplayInvalid)
    else if !SafeNatural(Field(v, "sequence")) || Field(v, "sequence").value.n <= previous then
      Rejected(SequenceInvalid)
    else
      match VerifyReceipt(digest, Field(v, "receipt").value)
      case Refused(e) => Rejected(BadReceipt(e))
      case Verified(r) => Accepted(Entry(Field(v, "sequence").value.n, r))
  }

  /** `strictEntry`: the entry after those in `es`. */
  function StrictEntry(digest: Digest, v: Value, after: nat, es: seq<Entry>): Checked<Entry> {
    var e := ReadEntry(digest, v, Last(after, es));
    if e.Rejected? then e
    else if Checksum(e.value) in Checksums(es) then Rejected(DuplicateReceipt)
    else if CaseOf(e.value) in Cases(es) then Rejected(CaseConflict)
    else if RootOf(e.value) in Roots(es) then Rejected(RootConflict)
    else e
  }

  /** The sequence of the last entry, or the cursor. */
  function Last(after: nat, es: seq<Entry>): nat {
    if es == [] then after else es[|es| - 1].sequence
  }

  /** The entries of the values, one after the other, or the first error. */
  function Entries(digest: Digest, vs: seq<Value>, after: nat): Checked<seq<Entry>> {
    if vs == [] then Accepted([])
    else
      var es := Entries(digest, vs[..|vs| - 1], after);
      if es.Rejected? then es
      else
        match StrictEntry(digest, vs[|vs| - 1], after, es.value)
        case Rejected(e) => Rejected(e)
        case Accepted(e) => Accepted(es.value + [e])
  }

  /** `strictEntry` as it runs: the checksums, Cases and roots of the entries `es` so far, each in a set. */
  method StrictEntryStep(digest: Digest, v: Value, previous: nat,
                         seenChecksums: set<string>, seenCases: set<string>, seenRoots: set<string>, ghost after: nat,
                         ghost es: seq<Entry>)
    returns (r: Checked<Entry>, checksums: set<string>, cases: set<string>, roots: set<string>)
    requires previous == Last(after, es) && seenChecksums == Checksums(es) && seenCases == Cases(es)
             && seenRoots == Roots(es)
    ensures r == StrictEntry(digest, v, after, es)
    ensures r.Accepted? ==> checksums == Checksums(es + [r.value]) && cases == Cases(es + [r.value])
                            && roots == Roots(es + [r.value])
  {
    hide ReadEntry, Checksum, CaseOf, RootOf, Checksums, Cases, Roots;
    checksums, cases, roots := seenChecksums, seenCases, seenRoots;
    r := ReadEntry(digest, v, previous);
    if r.Rejected? {
      return;
    }
    if Checksum(r.value) in seenChecksums {
      r := Rejected(DuplicateReceipt);
      return;
    }
    if CaseOf(r.value) in seenCases {
      r := Rejected(CaseConflict);
      return;
    }
    if RootOf(r.value) in seenRoots {
      r := Rejected(RootConflict);
      return;
    }
    SeenGrow(es, r.value);
    checksums := checksums + {Checksum(r.value)};
    cases := cases + {CaseOf(r.value)};
    roots := roots + {RootOf(r.value)};
  }

  /** `verifyCredentialFreeCaseBindingOutboxEntries`: one loop over the values. */
  method VerifyEntries(digest: Digest, v: Option<Value>, after: nat, limit: nat) returns (r: Checked<seq<Entry>>)
    ensures r == EntriesOf(digest, v, after, limit)
  {
    hide StrictEntry, Checksums, Cases, Roots, Entries;
    if v.None? || !v.value.Array? || |v.value.items| > limit {
      return Rejected(ReplayInvalid);
    }
    var vs := v.value.items;
    var entries: seq<Entry> := [];
    NothingSeen(digest, after);
    var checksums: set<string>, cases: set<string>, roots: set<string> := {}, {}, {};
    var previous := after;
    var index := 0;
    assert vs[..0] == [];
    while index < |vs|
      invariant 0 <= index <= |vs|
      invariant Entries(digest, vs[..index], after) == Accepted(entries)
      invariant previous == Last(after, entries)
      invariant checksums == Checksums(entries) && cases == Cases(entries) && roots == Roots(entries)
    {
      EntriesStep(digest, vs, after, index);
      var parsed: Checked<Entry>;
      parsed, checksums, cases, roots := StrictEntryStep(digest, vs[index], previous, checksums, cases, roots,
                                                         after, entries);
      if parsed.Rejected? {
        FirstErrorStays(digest, vs, after, index + 1);
        return Rejected(parsed.error);
      }
      previous := parsed.value.sequence;
      entries := entries + [parsed.value];
      index := index + 1;
    }
    assert vs[..index] == vs;
    return Accepted(entries);
  }

  lemma NothingSeen(digest: Digest, after: nat)
    ensures Entries(digest, [], after) == Accepted([]) && Checksums([]) == {} && Cases([]) == {} && Roots([]) == {}
  {
  }

  lemma EntriesStep(digest: Digest, vs: seq<Value>, after: nat, i: nat)
    requires i < |vs| && Entries(digest, vs[..i], after).Accepted?
    ensures var es := Entries(digest, vs[..i], after).value;
            Entries(digest, vs[..i + 1], after) == match StrictEntry(digest, vs[i], after, es)
                                                   case Rejected(e) => Rejected(e)
                                                   case Accepted(e) => Accepted(es + [e])
  {
    hide StrictEntry;
    assert vs[..i + 1][..i] == vs[..i];
  }

  lemma {:induction false} FirstErrorStays(digest: Digest, vs: seq<Value>, after: nat, m: nat)
    requires m <= |vs| && Entries(digest, vs[..m], after).Rejected?
    ensures Entries(digest, vs, after) == Entries(digest, vs[..m], after)
  {
    hide StrictEntry;
    if m < |vs| {
      var init := vs[..|vs| - 1];
      assert init[..m] == vs[..m];
      FirstErrorStays(digest, init, after, m);
    } else {
      assert vs[..m] == vs;
    }
  }

  function EntriesOf(digest: Digest, v: Option<Value>, after: nat, limit: nat): Checked<seq<Entry>> {
    if v.None? || !v.value.Array? || |v.value.items| > limit then Rejected(ReplayInvalid)
    else Entries(digest, v.value.items, after)
  }

  function EntryValue(e: Entry): Value {
    Object([Member("receipt", e.receipt), Member("sequence", Number(e.sequence))])
  }

  function EntryValues(es: seq<Entry>): (vs: seq<Value>)
    ensures |vs| == |es| && forall i :: 0 <= i < |es| ==> vs[i] == EntryValue(es[i])
  {
    seq(|es|, i requires 0 <= i < |es| => EntryValue(es[i]))
  }

  function PageValue(p: Page): Value {
    Object([Member("afterSequence", Number(p.afterSequence)),
            Member("entries", Array(EntryValues(p.entries))),
            Member("nextSequence", if p.nextSequence.None? then Null else Number(p.nextSequence.value)),
            Member("schemaVersion", Text(PAGE_SCHEMA_VERSION))])
  }

  function Nodes(es: seq<Entry>): nat {
    2 + 6 * |es|
  }

  function NextOf(v: Option<Value>, after: nat): Checked<Option<nat>> {
    if v == Some(Null) then Accepted(None)
    else if SafeNatural(v) && v.value.n > after then Accepted(Some(v.value.n))
    else Rejected(CursorInvalid)
  }

  function TextOfPage(p: Page): string {
    Canonical(PageValue(p)) + "\n"
  }

  /** The cursor and the budgets of a page. */
  function CheckPage(p: Page): Checked<Page> {
    if p.nextSequence != (if p.entries == [] then None else Some(Last(p.afterSequence, p.entries))) then
      Rejected(CursorInvalid)
    else if Nodes(p.entries) > MAX_PAGE_NODES then Rejected(NodesExceeded)
    else if Utf8Length(Canonical(PageValue(p))) + 1 > MAX_PAGE_BYTES then Rejected(PageTooLarge)
    else Accepted(p)
  }

  /** `verifyCredentialFreeCaseBindingOutboxPage`. */
  function VerifyPage(digest: Digest, v: Value, x: Expectation): Checked<Page> {
    var n := Normal(v);
    if !Exact(n, ["schemaVersion", "afterSequence", "nextSequence", "entries"])
       || Field(n, "schemaVersion") != Some(Text(PAGE_SCHEMA_VERSION)) || !SafeNatural(Field(n, "afterSequence")) then
      Rejected(PageInvalid)
    else
      var after: nat := Field(n, "afterSequence").value.n;
      var limit := if x.limit.Some? then x.limit.value else MAX_LIMIT;
      if x.afterSequence.Some? && x.afterSequence.value != after then Rejected(CursorInvalid)
      else if !(1 <= limit <= MAX_LIMIT) then Rejected(PageInvalid)
      else
        var es := EntriesOf(digest, Field(n, "entries"), after, limit);
        var next := NextOf(Field(n, "nextSequence"), after);
        if es.Rejected? then Rejected(es.error)
        else if next.Rejected? then Rejected(next.error)
        else CheckPage(Page(after, next.value, es.value))
  }

  /** `serializeCredentialFreeCaseBindingOutboxPage`. */
  function Serialize(digest: Digest, p: Page): Checked<string> {
    match VerifyPage(digest, PageValue(p), ANYTHING)
    case Rejected(e) => Rejected(e)
    case Accepted(q) => Accepted(TextOfPage(q))
  }

  /** `parseAndVerifyCredentialFreeCaseBindingOutboxPage`, for a text. */
  function ParsePage(digest: Digest, text: string, x: Expectation): Checked<Page> {
    if Utf8Length(text) > MAX_PAGE_BYTES then Rejected(PageTooLarge)
    else if text == [] || text[|text| - 1] != '\n' then Rejected(PageNoncanonical)
    else
      var v := ParseDocument(text);
      if v.None? then Rejected(PageInvalid)
      else
        var page := VerifyPage(digest, v.value, x);
        if page.Rejected? then (if page.error.BadReceipt? then Rejected(PageInvalid) else page)
        else if Serialize(digest, page.value) != Accepted(text) then Rejected(PageNoncanonical)
        else page
  }
}
