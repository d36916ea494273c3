/** Canonical text reads back as the value it prints, so it is injective up to the order of object members. */
module JsonRoundTrip {
  import opened Results
  import opened Json
  import S = Sorting

  /** Printed numbers do not say where they end: what follows must not continue one. */
  predicate Delimited(rest: string) {
    rest == [] || !(IsDigit(rest[0]) || rest[0] == '.' || rest[0] == 'e' || rest[0] == 'E')
  }

  // Numbers.

  lemma NoDigits()
    ensures DecimalValue([]) == 0
  {
  }

  lemma LastDigit(ds: string, d: nat)
    requires (forall i :: 0 <= i < |ds| ==> IsDigit(ds[i])) && d < 10
    ensures IsDigit(Digit(d)) && forall i :: 0 <= i < |ds + [Digit(d)]| ==> IsDigit((ds + [Digit(d)])[i])
    ensures DecimalValue(ds + [Digit(d)]) == 10 * DecimalValue(ds) + d
  {
    assert (ds + [Digit(d)])[..|ds|] == ds;
  }

  lemma {:induction false} DecimalDigits(n: nat)
    ensures Decimal(n) != [] && forall i :: 0 <= i < |Decimal(n)| ==> IsDigit(Decimal(n)[i])
    ensures n == 0 ==> Decimal(n) == "0"
    ensures n > 0 ==> Decimal(n)[0] != '0'
    ensures DecimalValue(Decimal(n)) == n
  {
    hide DecimalValue;
    if n >= 10 {
      DecimalDigits(n / 10);
      LastDigit(Decimal(n / 10), n % 10);
    } else {
      LastDigit([], n);
      assert [] + [Digit(n)] == [Digit(n)];
      NoDigits();
    }
  }

  lemma {:induction false} DigitsSplit(ds: string, rest: string)
    requires forall i :: 0 <= i < |ds| ==> IsDigit(ds[i])
    requires rest == [] || !IsDigit(rest[0])
    ensures Digits(ds + rest) == (ds, rest)
  {
    if ds == [] {
      assert ds + rest == rest;
    } else {
      assert (ds + rest)[1..] == ds[1..] + rest;
      DigitsSplit(ds[1..], rest);
      assert ds == [ds[0]] + ds[1..];
    }
  }

  lemma NumberReadsBack(n: int, rest: string)
    requires Delimited(rest)
    ensures ParseNumber(PrintNumber(n) + rest) == Some((Number(n), rest))
  {
    hide Decimal, DecimalValue, Digits;
    var ds := Decimal(if n < 0 then -n else n);
    DecimalDigits(if n < 0 then -n else n);
    DigitsSplit(ds, rest);
    if n < 0 {
      assert (PrintNumber(n) + rest)[1..] == ds + rest;
    }
  }

  // Strings.

  lemma Hex4OfControl(c: char, rest: string)
    requires c < '\U{0020}'
    ensures Hex4(['0', '0', Digit(c as nat / 16), Digit(c as nat % 16)] + rest) == Some(c as nat)
  {
  }

  lemma EscapeReadsBack(c: char, rest: string)
    ensures Escape(c) != [] && Escape(c)[0] >= '\U{0020}' && Escape(c)[0] != '\"'
    ensures Escape(c)[0] == '\\' ==> Unescape((Escape(c) + rest)[1..]) == Some((c, rest))
    ensures Escape(c)[0] != '\\' ==> Escape(c) == [c]
  {
    hide Hex4;
    var t := (Escape(c) + rest)[1..];
    if c == '\"' || c == '\\' || c == '\U{0008}' || c == '\U{0009}' || c == '\U{000A}' || c == '\U{000C}'
       || c == '\U{000D}' {
      assert t[1..] == rest;
    } else if c < '\U{0020}' {
      assert t[1..] == ['0', '0', Digit(c as nat / 16), Digit(c as nat % 16)] + rest;
      Hex4OfControl(c, rest);
      assert t[5..] == rest;
    }
  }

  lemma {:induction false} TextReadsBack(s: string, rest: string)
    ensures ParseText(EscapeAll(s) + "\"" + rest) == Some((s, rest))
  {
    var all := EscapeAll(s) + "\"" + rest;
    if s == [] {
      assert all[1..] == rest;
    } else {
      var after := EscapeAll(s[1..]) + "\"" + rest;
      assert all == Escape(s[0]) + after;
      EscapeReadsBack(s[0], after);
      TextReadsBack(s[1..], rest);
      assert [s[0]] + s[1..] == s;
    }
  }

  // Values.

  /** The first character tells the kind of a value, and is not white. */
  lemma PrintStarts(v: Value)
    requires !v.Other?
    ensures Print(v) != [] && !IsWhite(Print(v)[0]) && Print(v)[0] != ']' && Print(v)[0] != '}'
    ensures v.Number? ==> Print(v)[0] == '-' || IsDigit(Print(v)[0])
  {
    if v.Number? {
      DecimalDigits(if v.n < 0 then -v.n else v.n);
    }
  }

  lemma LiteralReadsBack(v: Value, rest: string)
    requires v.Null? || v.Bool?
    ensures Parse(Print(v) + rest) == Some((v, rest))
  {
    var t := Print(v);
    assert (t + rest)[..|t|] == t && (t + rest)[|t|..] == rest;
  }

  lemma {:induction false} ValueReadsBack(v: Value, rest: string)
    requires Plain(v) && Delimited(rest)
    ensures Parse(Print(v) + rest) == Some((v, rest))
    decreases v, 1
  {
    hide ParseText, ParseNumber, ParseItems, ParseMembers, PrintNumber, EscapeAll, PrintItems, PrintMembers;
    PrintStarts(v);
    var all := Print(v) + rest;
    assert SkipWhite(all) == all;
    match v
    case Null => LiteralReadsBack(v, rest);
    case Bool(b) => LiteralReadsBack(v, rest);
    case Number(n) => NumberReadsBack(n, rest);
    case Text(s) =>
      assert all[1..] == EscapeAll(s) + "\"" + rest;
      TextReadsBack(s, rest);
    case Array(items) => ArrayReadsBack(items, rest);
    case Object(members) => ObjectReadsBack(members, rest);
  }

  /** What an opening bracket makes of the text behind it. */
  function OpenedArray(body: string): Option<(Value, string)> {
    if SkipWhite(body) != [] && SkipWhite(body)[0] == ']' then Some((Array([]), SkipWhite(body)[1..]))
    else
      var items := ParseItems(body, []);
      if items.None? then None else Some((Array(items.value.0), items.value.1))
  }

  /** What an opening brace makes of the text behind it. */
  function OpenedObject(body: string): Option<(Value, string)> {
    if SkipWhite(body) != [] && SkipWhite(body)[0] == '}' then Some((Object([]), SkipWhite(body)[1..]))
    else
      var members := ParseMembers(body, []);
      if members.None? then None else Some((Object(members.value.0), members.value.1))
  }

  lemma ParseOpens(body: string)
    ensures Parse("[" + body) == OpenedArray(body)
    ensures Parse("{" + body) == OpenedObject(body)
  {
    hide ParseItems, ParseMembers, ParseText, ParseNumber;
    assert ("[" + body)[1..] == body && ("{" + body)[1..] == body;
    assert SkipWhite("[" + body) == "[" + body && SkipWhite("{" + body) == "{" + body;
  }

  lemma {:induction false} ArrayReadsBack(items: seq<Value>, rest: string)
    requires Plain(Array(items)) && Delimited(rest)
    ensures Parse(Print(Array(items)) + rest) == Some((Array(items), rest))
    decreases items, 1
  {
    hide Parse, ParseItems;
    if items == [] {
      assert Print(Array(items)) + rest == "[" + ("]" + rest);
      ParseOpens("]" + rest);
      assert ("]" + rest)[1..] == rest;
    } else {
      var body := Print(items[0]) + PrintItems(items[1..]) + "]" + rest;
      assert Print(Array(items)) + rest == "[" + body;
      ParseOpens(body);
      PrintStarts(items[0]);
      ItemsReadBack(items, [], rest);
      assert [] + items == items;
    }
  }

  lemma {:induction false} ItemsReadBack(items: seq<Value>, read: seq<Value>, rest: string)
    requires items != [] && (forall i :: 0 <= i < |items| ==> Plain(items[i])) && Delimited(rest)
    ensures ParseItems(Print(items[0]) + PrintItems(items[1..]) + "]" + rest, read) == Some((read + items, rest))
    decreases items, 0
  {
    hide Parse, Print, Plain;
    var after := PrintItems(items[1..]) + "]" + rest;
    var all := Print(items[0]) + PrintItems(items[1..]) + "]" + rest;
    assert all == Print(items[0]) + after;
    assert Delimited(after);
    ValueReadsBack(items[0], after);
    assert SkipWhite(after) == after;
    if |items| == 1 {
      assert after[1..] == rest;
      assert read + [items[0]] == read + items;
    } else {
      var tail := items[1..];
      assert after[1..] == Print(tail[0]) + PrintItems(tail[1..]) + "]" + rest;
      ItemsReadBack(tail, read + [items[0]], rest);
      assert read + [items[0]] + tail == read + items;
    }
  }

  lemma MemberStarts(m: Member)
    ensures PrintMember(m) != [] && PrintMember(m)[0] == '\"'
  {
  }

  lemma EmptyObjectReadsBack(rest: string)
    ensures Parse("{}" + rest) == Some((Object([]), rest))
  {
    hide Parse, ParseMembers;
    assert "{}" + rest == "{" + ("}" + rest);
    ParseOpens("}" + rest);
    assert ("}" + rest)[1..] == rest;
  }

  lemma {:induction false} ObjectReadsBack(members: seq<Member>, rest: string)
    requires Plain(Object(members)) && Delimited(rest)
    ensures Parse(Print(Object(members)) + rest) == Some((Object(members), rest))
    decreases members, 1
  {
    hide Parse, ParseMembers, PrintMember, PrintMembers, OpenedArray;
    if members == [] {
      EmptyObjectReadsBack(rest);
    } else {
      var body := PrintMember(members[0]) + PrintMembers(members[1..]) + "}" + rest;
      MemberStarts(members[0]);
      assert Print(Object(members)) + rest == "{" + body;
      MembersReadBack(members, [], rest);
      ObjectOpens(members, body, rest);
    }
  }

  lemma ObjectOpens(members: seq<Member>, body: string, rest: string)
    requires body != [] && body[0] == '\"' && ParseMembers(body, []) == Some(([] + members, rest))
    ensures Parse("{" + body) == Some((Object(members), rest))
  {
    hide Parse, ParseMembers, OpenedArray;
    ParseOpens(body);
    assert [] + members == members;
  }

  lemma {:induction false} MemberReadsBack(m: Member, rest: string)
    requires Plain(m.value) && Delimited(rest)
    ensures ParseMember(PrintMember(m) + rest) == Some((m, rest))
    decreases m, 0
  {
    hide Parse, Print, Plain, ParseText;
    var all := PrintMember(m) + rest;
    var after := ":" + Print(m.value) + rest;
    assert all[1..] == EscapeAll(m.key) + "\"" + after;
    TextReadsBack(m.key, after);
    assert SkipWhite(all) == all && SkipWhite(after) == after;
    assert after[1..] == Print(m.value) + rest;
    ValueReadsBack(m.value, rest);
  }

  /** A new key is put at the end. */
  lemma {:induction false} PutNew(ms: seq<Member>, m: Member)
    requires forall i :: 0 <= i < |ms| ==> ms[i].key != m.key
    ensures Put(ms, m) == ms + [m]
  {
    if ms != [] {
      PutNew(ms[1..], m);
    }
  }

  lemma {:induction false} MembersReadBack(members: seq<Member>, read: seq<Member>, rest: string)
    requires members != [] && (forall i :: 0 <= i < |members| ==> Plain(members[i].value)) && Delimited(rest)
    requires DistinctKeys(read + members)
    ensures ParseMembers(PrintMember(members[0]) + PrintMembers(members[1..]) + "}" + rest, read)
         == Some((read + members, rest))
    decreases members, 0
  {
    hide ParseMember, PrintMember, Plain, Put;
    var after := PrintMembers(members[1..]) + "}" + rest;
    assert PrintMember(members[0]) + PrintMembers(members[1..]) + "}" + rest == PrintMember(members[0]) + after;
    MemberReadsBack(members[0], after);
    assert SkipWhite(after) == after;
    forall i | 0 <= i < |read| ensures read[i].key != members[0].key {
      assert (read + members)[i] == read[i] && (read + members)[|read|] == members[0];
    }
    PutNew(read, members[0]);
    if |members| == 1 {
      assert after[1..] == rest;
      assert read + [members[0]] == read + members;
    } else {
      var tail := members[1..];
      assert after[1..] == PrintMember(tail[0]) + PrintMembers(tail[1..]) + "}" + rest;
      assert read + [members[0]] + tail == read + members;
      MembersReadBack(tail, read + [members[0]], rest);
    }
  }

  // Canonical text.

  lemma {:induction false} NormalMemberAt(ms: seq<Member>, i: nat)
    requires i < |ms|
    ensures NormalMembers(ms)[i] == Member(ms[i].key, Normal(ms[i].value))
  {
    if i > 0 {
      NormalMemberAt(ms[1..], i - 1);
    }
  }

  lemma {:induction false} NormalItemAt(vs: seq<Value>, i: nat)
    requires i < |vs|
    ensures NormalItems(vs)[i] == Normal(vs[i])
  {
    if i > 0 {
      NormalItemAt(vs[1..], i - 1);
    }
  }

  /** The normal form of a plain value is plain. */
  lemma {:induction false} NormalPlain(v: Value)
    requires Plain(v)
    ensures Plain(Normal(v))
    decreases v
  {
    match v
    case Array(items) =>
      forall i | 0 <= i < |items| ensures Plain(NormalItems(items)[i]) {
        NormalItemAt(items, i);
        NormalPlain(items[i]);
      }
    case Object(members) =>
      var ns := NormalMembers(members);
      var sorted := S.Sort(KeyOf, ns);
      forall i | 0 <= i < |ns| ensures Plain(ns[i].value) {
        NormalMemberAt(members, i);
        NormalPlain(members[i].value);
      }
      S.SortPermutes(KeyOf, ns);
      DistinctKeysPermuted(ns, sorted);
      forall i | 0 <= i < |sorted| ensures Plain(sorted[i].value) {
        assert sorted[i] in multiset(ns);
      }
    case _ =>
  }

  lemma DistinctKeysPermuted(xs: seq<Member>, ys: seq<Member>)
    requires multiset(xs) == multiset(ys) && DistinctKeys(xs)
    ensures DistinctKeys(ys)
  {
    S.PermutedDistinct(xs, ys);
    forall i, j | 0 <= i < j < |ys| ensures ys[i].key != ys[j].key {
      assert ys[i] in multiset(xs) && ys[j] in multiset(xs);
    }
  }

  /** Canonical text reads back as the normal form. */
  lemma CanonicalReadsBack(v: Value, rest: string)
    requires Plain(v) && Delimited(rest)
    ensures Parse(Canonical(v) + rest) == Some((Normal(v), rest))
  {
    NormalPlain(v);
    ValueReadsBack(Normal(v), rest);
  }

  /** Two values have one canonical text exactly if they differ in the order of object members only. */
  lemma CanonicalInjective(a: Value, b: Value)
    requires Plain(a) && Plain(b)
    ensures Canonical(a) == Canonical(b) <==> Normal(a) == Normal(b)
  {
    CanonicalReadsBack(a, []);
    CanonicalReadsBack(b, []);
  }

  lemma NormalKeysDetermine(xs: seq<Member>)
    requires DistinctKeys(xs)
    ensures S.KeyDetermines(KeyOf, NormalMembers(xs))
  {
    hide NormalMembers;
  }

  /**
   What equal normal forms mean for objects: the same members, in any order, with values that have equal
   normal forms.
   */
  lemma NormalObjects(xs: seq<Member>, ys: seq<Member>)
    requires DistinctKeys(xs) && DistinctKeys(ys)
    ensures Normal(Object(xs)) == Normal(Object(ys)) <==> multiset(NormalMembers(xs)) == multiset(NormalMembers(ys))
  {
    hide DistinctKeys, S.KeyDetermines, S.Sort, NormalMembers;
    var a, b := NormalMembers(xs), NormalMembers(ys);
    NormalKeysDetermine(xs);
    S.SortPermutes(KeyOf, a);
    S.SortPermutes(KeyOf, b);
    if multiset(a) == multiset(b) {
      S.SortIgnoresOrder(KeyOf, a, b);
    }
  }

  /** And for arrays: the same length, and items with equal normal forms. */
  lemma NormalArrays(xs: seq<Value>, ys: seq<Value>)
    ensures Normal(Array(xs)) == Normal(Array(ys)) <==>
            |xs| == |ys| && forall i :: 0 <= i < |xs| ==> Normal(xs[i]) == Normal(ys[i])
  {
    forall i | 0 <= i < |xs| ensures NormalItems(xs)[i] == Normal(xs[i]) {
      NormalItemAt(xs, i);
    }
    forall i | 0 <= i < |ys| ensures NormalItems(ys)[i] == Normal(ys[i]) {
      NormalItemAt(ys, i);
    }
    if |xs| == |ys| && forall i :: 0 <= i < |xs| ==> Normal(xs[i]) == Normal(ys[i]) {
      assert NormalItems(xs) == NormalItems(ys);
    }
  }
}
