/** No text that is read as a value is shorter than the canonical one, whose keys are in ascending order. */
module JsonShortest {
  import opened Results
  import opened Texts
  import opened Json
  import opened JsonRoundTrip
  import S = Sorting

  // Every text that is read is at least as long as what is printed for its value.

  lemma {:induction false} DigitsLong(ds: string)
    requires ds != [] && forall i :: 0 <= i < |ds| ==> IsDigit(ds[i])
    ensures |Decimal(DecimalValue(ds))| <= |ds|
  {
    var init := ds[..|ds| - 1];
    if init != [] {
      DigitsLong(init);
      var n, d := DecimalValue(init), DigitValue(ds[|ds| - 1]);
      if n > 0 {
        assert (10 * n + d) / 10 == n;
      }
    } else {
      NoDigits();
      assert DecimalValue(ds) < 10;
    }
  }

  lemma NumberLong(s: string)
    requires ParseNumber(s).Some?
    ensures |Print(ParseNumber(s).value.0)| + |ParseNumber(s).value.1| <= |s|
  {
    var t := if s != [] && s[0] == '-' then s[1..] else s;
    DigitsLong(Digits(t).0);
  }

  lemma EscapeLong(s: string)
    requires Unescape(s).Some?
    ensures |Escape(Unescape(s).value.0)| + |Unescape(s).value.1| <= |s| + 1
  {
  }

  lemma {:induction false} TextLong(s: string)
    requires ParseText(s).Some?
    ensures |EscapeAll(ParseText(s).value.0)| + 1 + |ParseText(s).value.1| <= |s|
    decreases |s|
  {
    hide Unescape, Escape;
    if s[0] != '\"' {
      if s[0] == '\\' {
        EscapeLong(s[1..]);
        TextLong(Unescape(s[1..]).value.1);
      } else {
        Unescaped(s[0]);
        TextLong(s[1..]);
      }
    }
  }

  lemma Unescaped(c: char)
    requires c >= '\U{0020}' && c != '\"' && c != '\\'
    ensures Escape(c) == [c]
  {
  }

  lemma {:induction false} PrintedItemsAppend(vs: seq<Value>, v: Value)
    ensures |PrintItems(vs + [v])| == |PrintItems(vs)| + 1 + |Print(v)|
  {
    if vs == [] {
      assert vs + [v] == [v];
    } else {
      assert (vs + [v])[1..] == vs[1..] + [v];
      PrintedItemsAppend(vs[1..], v);
    }
  }

  lemma {:induction false} PutLong(ms: seq<Member>, m: Member)
    ensures |PrintMembers(Put(ms, m))| <= |PrintMembers(ms)| + 1 + |PrintMember(m)| && Put(ms, m) != []
  {
    hide PrintMember;
    if ms != [] && ms[0].key != m.key {
      PutLong(ms[1..], m);
      assert Put(ms, m)[1..] == Put(ms[1..], m);
    }
  }

  lemma {:induction false} ItemsLong(s: string, read: seq<Value>)
    requires ParseItems(s, read).Some?
    ensures var (vs, rest) := ParseItems(s, read).value;
            vs != [] && |PrintItems(vs)| + |rest| <= |PrintItems(read)| + |s|
    decreases |s|, 3
  {
    var (v, after) := Parse(s).value;
    ValueLong(s);
    PrintedItemsAppend(read, v);
    var t := SkipWhite(after);
    if t[0] == ',' {
      ItemsLong(t[1..], read + [v]);
    }
  }

  lemma {:induction false} MemberLong(s: string)
    requires ParseMember(s).Some?
    ensures |PrintMember(ParseMember(s).value.0)| + |ParseMember(s).value.1| <= |s|
    decreases |s|, 3
  {
    var t := SkipWhite(s);
    TextLong(t[1..]);
    var u := SkipWhite(ParseText(t[1..]).value.1);
    ValueLong(u[1..]);
  }

  lemma {:induction false} MembersLong(s: string, read: seq<Member>)
    requires ParseMembers(s, read).Some?
    ensures var (ms, rest) := ParseMembers(s, read).value;
            ms != [] && |PrintMembers(ms)| + |rest| <= |PrintMembers(read)| + |s|
    decreases |s|, 4
  {
    hide PrintMember, Put;
      var (m, after) := ParseMember(s).value;
    MemberLong(s);
    PutLong(read, m);
    var t := SkipWhite(after);
    if t[0] == ',' {
      MembersLong(t[1..], Put(read, m));
    }
  }

  /** A value is never read from fewer characters than it is printed with. */
  lemma {:induction false} ValueLong(s: string)
    requires Parse(s).Some?
    ensures |Print(Parse(s).value.0)| + |Parse(s).value.1| <= |s|
    decreases |s|, 2
  {
    hide ParseNumber, PrintMember;
    var t := SkipWhite(s);
    if "null" <= t || "true" <= t || "false" <= t {
    } else if t[0] == '\"' {
      TextLong(t[1..]);
    } else if t[0] == '[' {
      var u := SkipWhite(t[1..]);
      if u == [] || u[0] != ']' {
        ItemsLong(t[1..], []);
      }
    } else if t[0] == '{' {
      var u := SkipWhite(t[1..]);
      if u == [] || u[0] != '}' {
        MembersLong(t[1..], []);
      }
    } else {
      NumberLong(t);
    }
  }

  // Sorting keys keeps the length.

  lemma {:induction false} InsertLength(m: Member, ms: seq<Member>)
    ensures |PrintMembers(S.Insert(KeyOf, m, ms))| == |PrintMembers(ms)| + 1 + |PrintMember(m)|
  {
    hide PrintMember;
    var r := S.Insert(KeyOf, m, ms);
    if ms == [] || !Less(ms[0].key, m.key) {
      assert r[1..] == ms;
    } else {
      InsertLength(m, ms[1..]);
      assert r[1..] == S.Insert(KeyOf, m, ms[1..]);
    }
  }

  lemma {:induction false} SortLength(ms: seq<Member>)
    ensures |PrintMembers(S.Sort(KeyOf, ms))| == |PrintMembers(ms)|
  {
    if ms != [] {
      SortLength(ms[1..]);
      InsertLength(ms[0], S.Sort(KeyOf, ms[1..]));
    }
  }

  lemma {:induction false} NormalItemsLength(vs: seq<Value>)
    ensures |PrintItems(NormalItems(vs))| == |PrintItems(vs)|
    decreases vs
  {
    if vs != [] {
      NormalLength(vs[0]);
      NormalItemsLength(vs[1..]);
    }
  }

  lemma {:induction false} NormalMembersLength(ms: seq<Member>)
    ensures |PrintMembers(NormalMembers(ms))| == |PrintMembers(ms)|
    decreases ms
  {
    if ms != [] {
      NormalLength(ms[0].value);
      NormalMembersLength(ms[1..]);
    }
  }

  /** A value and its normal form have texts of one length. */
  lemma {:induction false} NormalLength(v: Value)
    ensures |Canonical(v)| == |Print(v)|
    decreases v
  {
    match v
    case Array(items) =>
      NormalItemsLength(items);
      ArrayLength(items);
      ArrayLength(NormalItems(items));
    case Object(members) =>
      NormalMembersLength(members);
      SortLength(NormalMembers(members));
      S.SortPermutes(KeyOf, NormalMembers(members));
      S.SameLength(S.Sort(KeyOf, NormalMembers(members)), NormalMembers(members));
      ObjectLength(members);
      ObjectLength(S.Sort(KeyOf, NormalMembers(members)));
    case _ =>
  }

  lemma ArrayLength(vs: seq<Value>)
    ensures |Print(Array(vs))| == if vs == [] then 2 else |PrintItems(vs)| + 1
  {
  }

  lemma ObjectLength(ms: seq<Member>)
    ensures |Print(Object(ms))| == if ms == [] then 2 else |PrintMembers(ms)| + 1
  {
  }

  /** Of all texts that are read as a value, up to the order of members, its canonical text is a shortest. */
  lemma CanonicalIsShortest(v: Value, s: string)
    requires ParseDocument(s).Some? && Normal(ParseDocument(s).value) == Normal(v)
    ensures |Canonical(v)| <= |s|
  {
    hide Parse, Print, Normal;
    ValueLong(s);
    NormalLength(ParseDocument(s).value);
  }

  // The order of keys.

  /** The keys of every object in the value ascend. */
  ghost predicate Ascending(v: Value) {
    match v
    case Array(items) => forall i :: 0 <= i < |items| ==> Ascending(items[i])
    case Object(members) =>
      && (forall i, j :: 0 <= i < j < |members| ==> Less(members[i].key, members[j].key))
      && forall i :: 0 <= i < |members| ==> Ascending(members[i].value)
    case _ => true
  }

  lemma MembersAscend(ms: seq<Member>)
    requires DistinctKeys(ms)
    ensures var r := S.Sort(KeyOf, ms);
            && (forall m :: m in r <==> m in ms) && forall i, j :: 0 <= i < j < |r| ==> Less(r[i].key, r[j].key)
  {
    var r := S.Sort(KeyOf, ms);
    S.SortPermutes(KeyOf, ms);
    S.SortSorts(KeyOf, ms);
    DistinctKeysPermuted(ms, r);
    forall m ensures m in r <==> m in ms {
      assert m in r <==> m in multiset(r);
      assert m in ms <==> m in multiset(ms);
    }
    forall i, j | 0 <= i < j < |r| ensures Less(r[i].key, r[j].key) {
      assert !Less(KeyOf(r[j]), KeyOf(r[i]));
      LessTotal(r[i].key, r[j].key);
    }
  }

  /** The canonical text of a plain value prints the keys of every object in ascending order. */
  lemma {:induction false} NormalAscends(v: Value)
    requires Plain(v)
    ensures Ascending(Normal(v))
    decreases v
  {
    match v
    case Array(items) =>
      forall i | 0 <= i < |items| ensures Ascending(NormalItems(items)[i]) {
        NormalItemAt(items, i);
        NormalAscends(items[i]);
      }
    case Object(members) =>
      var ms := NormalMembers(members);
      MembersAscend(ms);
      forall i | 0 <= i < |members| ensures Ascending(ms[i].value) {
        NormalMemberAt(members, i);
        NormalAscends(members[i].value);
      }
      assert forall m :: m in ms ==> Ascending(m.value);
    case _ =>
  }
}
