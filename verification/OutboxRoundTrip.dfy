/** Pages survive the wire: what is verified is printed as one text, and exactly that text is read back as the page. */
module OutboxRoundTrip {
  import opened Results
  import opened Json
  import opened JsonRoundTrip
  import opened CaseReceipt
  import opened OutboxWire
  import Binary64
  import S = Sorting

  // What verified entries are.

  ghost predicate GoodEntry(digest: Digest, e: Entry) {
    IsReceipt(digest, e.receipt) && 0 < e.sequence <= Binary64.MAX_SAFE_INTEGER
  }

  /** Receipts with distinct checksums, Cases and roots, at strictly increasing sequences after the cursor. */
  ghost predicate GoodEntries(digest: Digest, after: nat, es: seq<Entry>) {
    && (forall i :: 0 <= i < |es| ==> GoodEntry(digest, es[i]) && after < es[i].sequence)
    && (forall i, j :: 0 <= i < j < |es| ==>
                         && es[i].sequence < es[j].sequence
                         && Checksum(es[i]) != Checksum(es[j]) && CaseOf(es[i]) != CaseOf(es[j])
                         && RootOf(es[i]) != RootOf(es[j]))
  }

  lemma ReadGood(digest: Digest, v: Value, previous: nat)
    requires ReadEntry(digest, v, previous).Accepted?
    ensures var e := ReadEntry(digest, v, previous).value;
            GoodEntry(digest, e) && previous < e.sequence && e.receipt == Normal(Field(v, "receipt").value)
  {
    hide IsReceipt, Exact;
    VerifiedFixed(digest, Field(v, "receipt").value);
  }

  lemma {:induction false} EntriesGood(digest: Digest, vs: seq<Value>, after: nat)
    requires Entries(digest, vs, after).Accepted?
    ensures |Entries(digest, vs, after).value| == |vs|
    ensures GoodEntries(digest, after, Entries(digest, vs, after).value)
  {
    hide ReadEntry, Checksum, CaseOf, RootOf, GoodEntry;
    if vs != [] {
      var es := Entries(digest, vs[..|vs| - 1], after).value;
      EntriesGood(digest, vs[..|vs| - 1], after);
      ReadGood(digest, vs[|vs| - 1], Last(after, es));
      var e := ReadEntry(digest, vs[|vs| - 1], Last(after, es)).value;
      forall i | 0 <= i < |es| ensures Checksum(es[i]) != Checksum(e) && CaseOf(es[i]) != CaseOf(e)
                                       && RootOf(es[i]) != RootOf(e) {
        assert Checksum(es[i]) in Checksums(es) && CaseOf(es[i]) in Cases(es) && RootOf(es[i]) in Roots(es);
      }
    }
  }

  lemma EntryReadsBack(digest: Digest, e: Entry, previous: nat)
    requires GoodEntry(digest, e) && previous < e.sequence
    ensures ReadEntry(digest, EntryValue(e), previous) == Accepted(e)
  {
    hide VerifyReceipt, Lookup;
    var ms := EntryValue(e).members;
    assert "receipt"[0] == 'r' && "sequence"[0] == 's';
    LookupAt(ms, 0);
    LookupAt(ms, 1);
  }

  lemma StrictBack(digest: Digest, after: nat, es: seq<Entry>, e: Entry)
    requires GoodEntries(digest, after, es + [e])
    ensures GoodEntries(digest, after, es)
    ensures StrictEntry(digest, EntryValue(e), after, es) == Accepted(e)
  {
    hide ReadEntry, EntryValue, Checksum, CaseOf, RootOf, GoodEntry;
    var all := es + [e];
    assert all[|es|] == e;
    assert forall i :: 0 <= i < |es| ==> all[i] == es[i];
    EntryReadsBack(digest, e, Last(after, es));
  }

  /** Good entries, printed as values, are read back. */
  lemma {:induction false} GoodReadBack(digest: Digest, after: nat, es: seq<Entry>)
    requires GoodEntries(digest, after, es)
    ensures Entries(digest, EntryValues(es), after) == Accepted(es)
  {
    hide StrictEntry, EntryValue, GoodEntries;
    if es != [] {
      var init, e := es[..|es| - 1], es[|es| - 1];
      assert es == init + [e];
      StrictBack(digest, after, init, e);
      GoodReadBack(digest, after, init);
      assert EntryValues(es)[..|es| - 1] == EntryValues(init);
    }
  }

  // Pages are their own normal form.

  lemma EntryNormal(digest: Digest, e: Entry)
    requires IsReceipt(digest, e.receipt)
    ensures Normal(EntryValue(e)) == EntryValue(e)
  {
    hide ShapeOk, ChecksumOk;
    assert Normal(e.receipt) == e.receipt;
    var ms := EntryValue(e).members;
    MembersFixed(ms);
    assert "receipt"[0] < "sequence"[0];
    S.SortSorted(KeyOf, ms);
  }

  lemma PageNormal(digest: Digest, p: Page)
    requires GoodEntries(digest, p.afterSequence, p.entries)
    ensures Normal(PageValue(p)) == PageValue(p)
  {
    hide IsReceipt, EntryValue;
    forall i | 0 <= i < |p.entries| ensures Normal(EntryValue(p.entries[i])) == EntryValue(p.entries[i]) {
      EntryNormal(digest, p.entries[i]);
    }
    ItemsFixed(EntryValues(p.entries));
    var ms := PageValue(p).members;
    MembersFixed(ms);
    PageKeysSorted(ms);
    S.SortSorted(KeyOf, ms);
  }

  lemma PageKeysSorted(ms: seq<Member>)
    requires |ms| == 4 && ms[0].key == "afterSequence" && ms[1].key == "entries"
    requires ms[2].key == "nextSequence" && ms[3].key == "schemaVersion"
    ensures S.Sorted(KeyOf, ms) && DistinctKeys(ms)
  {
    assert "afterSequence"[0] == 'a' && "entries"[0] == 'e' && "nextSequence"[0] == 'n' && "schemaVersion"[0] == 's';
  }

  lemma PageFields(p: Page)
    ensures var v := PageValue(p);
            && Exact(v, ["schemaVersion", "afterSequence", "nextSequence", "entries"])
            && Field(v, "schemaVersion") == Some(Text(PAGE_SCHEMA_VERSION))
            && Field(v, "afterSequence") == Some(Number(p.afterSequence))
            && Field(v, "entries") == Some(Array(EntryValues(p.entries)))
            && Field(v, "nextSequence") == Some(if p.nextSequence.None? then Null else Number(p.nextSequence.value))
  {
    hide Lookup, EntryValues;
    var ms := PageValue(p).members;
    PageKeysSorted(ms);
    LookupAt(ms, 0);
    LookupAt(ms, 1);
    LookupAt(ms, 2);
    LookupAt(ms, 3);
  }

  /** What a verified page is. */
  ghost predicate GoodPage(digest: Digest, p: Page) {
    && p.afterSequence <= Binary64.MAX_SAFE_INTEGER && |p.entries| <= MAX_LIMIT
    && GoodEntries(digest, p.afterSequence, p.entries)
    && p.nextSequence == (if p.entries == [] then None else Some(Last(p.afterSequence, p.entries)))
    && Utf8Length(Canonical(PageValue(p))) + 1 <= MAX_PAGE_BYTES
  }

  lemma VerifiedGood(digest: Digest, v: Value, x: Expectation)
    requires VerifyPage(digest, v, x).Accepted?
    ensures GoodPage(digest, VerifyPage(digest, v, x).value)
  {
    hide Entries, Exact, Field, Utf8Length, GoodEntries;
    EntriesGood(digest, Field(Normal(v), "entries").value.items, VerifyPage(digest, v, x).value.afterSequence);
  }

  lemma GoodPageVerifies(digest: Digest, p: Page)
    requires GoodPage(digest, p)
    ensures VerifyPage(digest, PageValue(p), ANYTHING) == Accepted(p)
  {
    hide Entries, Exact, Field, Utf8Length, GoodEntries, PageValue, EntryValue, Canonical;
    PageNormal(digest, p);
    PageFields(p);
    GoodReadBack(digest, p.afterSequence, p.entries);
    LastAfter(digest, p.afterSequence, p.entries);
  }

  /** A page is good exactly if it verifies as itself. */
  lemma GoodVerifies(digest: Digest, p: Page)
    ensures GoodPage(digest, p) <==> VerifyPage(digest, PageValue(p), ANYTHING) == Accepted(p)
  {
    hide VerifyPage, GoodPage;
    if VerifyPage(digest, PageValue(p), ANYTHING) == Accepted(p) {
      VerifiedGood(digest, PageValue(p), ANYTHING);
    }
    if GoodPage(digest, p) {
      GoodPageVerifies(digest, p);
    }
  }

  lemma LastAfter(digest: Digest, after: nat, es: seq<Entry>)
    requires GoodEntries(digest, after, es)
    ensures es != [] ==> after < Last(after, es) <= Binary64.MAX_SAFE_INTEGER
  {
  }

  lemma {:induction false} Utf8Append(s: string, t: string)
    ensures Utf8Length(s + t) == Utf8Length(s) + Utf8Length(t)
  {
    if s == [] {
      assert s + t == t;
    } else {
      assert (s + t)[1..] == s[1..] + t;
      Utf8Append(s[1..], t);
    }
  }

  /** Good pages are plain data. */
  lemma PageIsPlain(digest: Digest, p: Page)
    requires GoodEntries(digest, p.afterSequence, p.entries)
    ensures Plain(PageValue(p))
  {
    hide EntryValue, IsReceipt;
    var ms := PageValue(p).members;
    PageKeysSorted(ms);
    forall i | 0 <= i < |p.entries| ensures Plain(EntryValue(p.entries[i])) {
      ReceiptIsPlain(digest, p.entries[i].receipt);
      EntryPlain(p.entries[i]);
    }
  }

  lemma EntryPlain(e: Entry)
    requires Plain(e.receipt)
    ensures Plain(EntryValue(e))
  {
    assert "receipt"[0] == 'r' && "sequence"[0] == 's';
  }

  /** The text of a good page reads back as the page. */
  lemma PageReadsBack(digest: Digest, p: Page)
    requires GoodPage(digest, p)
    ensures ParsePage(digest, TextOfPage(p), ANYTHING) == Accepted(p)
  {
    hide Parse, PageValue, VerifyPage, Utf8Length, Canonical;
    GoodVerifies(digest, p);
    PageNormal(digest, p);
    PageIsPlain(digest, p);
    CanonicalReadsBack(PageValue(p), "\n");
    assert SkipWhite("\n") == [];
    Utf8Append(Canonical(PageValue(p)), "\n");
    NewlineLength();
  }

  lemma NewlineLength()
    ensures Utf8Length("\n") == 1
  {
    assert "\n"[1..] == [];
  }

  /** Exactly one text is accepted for every page: the canonical one. */
  lemma OneTextPerPage(digest: Digest, p: Page, text: string)
    ensures ParsePage(digest, text, ANYTHING) == Accepted(p) <==> GoodPage(digest, p) && text == TextOfPage(p)
    ensures GoodPage(digest, p) <==>
            Serialize(digest, p) == Accepted(TextOfPage(p)) && VerifyPage(digest, PageValue(p), ANYTHING) == Accepted(p)
  {
    hide Parse, ParseDocument, PageValue, Utf8Length, Canonical, GoodPage, VerifyPage;
    GoodVerifies(digest, p);
    if ParsePage(digest, text, ANYTHING) == Accepted(p) {
      VerifiedGood(digest, ParseDocument(text).value, ANYTHING);
    }
    if GoodPage(digest, p) {
      PageReadsBack(digest, p);
    }
  }

  /** Two pages with one text are one page. */
  lemma SerializeInjective(digest: Digest, p: Page, q: Page)
    requires GoodPage(digest, p) && GoodPage(digest, q)
    requires Serialize(digest, p) == Serialize(digest, q)
    ensures p == q
  {
    hide Serialize, ParsePage, GoodPage, TextOfPage;
    OneTextPerPage(digest, p, TextOfPage(p));
    OneTextPerPage(digest, q, TextOfPage(q));
    PageReadsBack(digest, p);
    PageReadsBack(digest, q);
  }

  /** A reader that expects a cursor and a limit accepts, of the texts that are accepted at all, those that fit. */
  lemma ExpectationsOnlyRestrict(digest: Digest, text: string, x: Expectation, p: Page)
    requires x.limit.Some? ==> 1 <= x.limit.value <= MAX_LIMIT
    ensures ParsePage(digest, text, x) == Accepted(p) <==>
            && ParsePage(digest, text, ANYTHING) == Accepted(p)
            && (x.afterSequence.Some? ==> x.afterSequence.value == p.afterSequence)
            && (x.limit.Some? ==> |p.entries| <= x.limit.value)
  {
    hide ParseDocument, Serialize, Utf8Length;
    if ParseDocument(text).Some? {
      VerifyRestricted(digest, ParseDocument(text).value, x, p);
    }
  }

  lemma VerifyRestricted(digest: Digest, v: Value, x: Expectation, p: Page)
    requires x.limit.Some? ==> 1 <= x.limit.value <= MAX_LIMIT
    ensures VerifyPage(digest, v, x) == Accepted(p) <==>
            && VerifyPage(digest, v, ANYTHING) == Accepted(p)
            && (x.afterSequence.Some? ==> x.afterSequence.value == p.afterSequence)
            && (x.limit.Some? ==> |p.entries| <= x.limit.value)
  {
    hide Entries, Exact, Field, Utf8Length;
    var items := Field(Normal(v), "entries");
    if items.Some? && items.value.Array? {
      if Entries(digest, items.value.items, p.afterSequence).Accepted? {
        EntriesGood(digest, items.value.items, p.afterSequence);
      }
    }
  }

  /** Every page that verifies survives the round trip. */
  lemma VerifiedPagesSurvive(digest: Digest, v: Value, x: Expectation, p: Page)
    requires VerifyPage(digest, v, x) == Accepted(p)
    ensures Serialize(digest, p) == Accepted(TextOfPage(p))
    ensures ParsePage(digest, TextOfPage(p), ANYTHING) == Accepted(p)
  {
    hide VerifyPage, Serialize, ParsePage, GoodPage, TextOfPage;
    VerifiedGood(digest, v, x);
    PageReadsBack(digest, p);
    OneTextPerPage(digest, p, TextOfPage(p));
  }
}
