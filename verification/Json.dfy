/** JSON values, their canonical text, and the parser of RFC 8259 (sections 2 to 7) that reads it back. */
module Json {
  import opened Results
  import S = Sorting

  /**
   `Number` is an integer as `JSON.stringify` prints it. `Other` is any number written with a fraction
   or an exponent, or with a minus sign before zero: no canonical text holds one. The members of an
   object are in insertion order.
   */
  datatype Value =
    | Null | Bool(flag: bool) | Number(n: int) | Other | Text(text: string)
    | Array(items: seq<Value>) | Object(members: seq<Member>)

  datatype Member = Member(key: string, value: Value)

  function KeyOf(m: Member): string {
    m.key
  }

  predicate DistinctKeys(ms: seq<Member>) {
    forall i, j :: 0 <= i < j < |ms| ==> ms[i].key != ms[j].key
  }

  /** What `JSON.parse` and object literals produce from canonical text: no key twice, only plain integers. */
  ghost predicate Plain(v: Value) {
    match v
    case Other => false
    case Array(items) => forall i :: 0 <= i < |items| ==> Plain(items[i])
    case Object(members) => DistinctKeys(members) && forall i :: 0 <= i < |members| ==> Plain(members[i].value)
    case _ => true
  }

  // The canonical text.

  /** The value with the members of every object sorted by key. */
  function Normal(v: Value): Value {
    match v
    case Array(items) => Array(NormalItems(items))
    case Object(members) => Object(S.Sort(KeyOf, NormalMembers(members)))
    case _ => v
  }

  function NormalItems(vs: seq<Value>): (r: seq<Value>)
    ensures |r| == |vs|
  {
    if vs == [] then [] else [Normal(vs[0])] + NormalItems(vs[1..])
  }

  function NormalMembers(ms: seq<Member>): (r: seq<Member>)
    ensures |r| == |ms| && forall i :: 0 <= i < |ms| ==> r[i].key == ms[i].key
  {
    if ms == [] then [] else [Member(ms[0].key, Normal(ms[0].value))] + NormalMembers(ms[1..])
  }

  function Digit(d: nat): char
    requires d < 16
  {
    if d < 10 then ('0' as int + d) as char else ('a' as int + d - 10) as char
  }

  function Decimal(n: nat): string {
    if n < 10 then [Digit(n)] else Decimal(n / 10) + [Digit(n % 10)]
  }

  function PrintNumber(n: int): string {
    if n < 0 then "-" + Decimal(-n) else Decimal(n)
  }

  /** The escapes of `JSON.stringify`. */
  function Escape(c: char): string {
    if c == '\"' then "\\\""
    else if c == '\\' then "\\\\"
    else if c == '\U{0008}' then "\\b"
    else if c == '\U{0009}' then "\\t"
    else if c == '\U{000A}' then "\\n"
    else if c == '\U{000C}' then "\\f"
    else if c == '\U{000D}' then "\\r"
    else if c < '\U{0020}' then ['\\', 'u', '0', '0', Digit(c as nat / 16), Digit(c as nat % 16)]
    else [c]
  }

  function EscapeAll(s: string): string {
    if s == [] then [] else Escape(s[0]) + EscapeAll(s[1..])
  }

  function PrintText(s: string): string {
    "\"" + EscapeAll(s) + "\""
  }

  /** The text of a value, its members in their order. */
  function Print(v: Value): string {
    match v
    case Null => "null"
    case Bool(b) => if b then "true" else "false"
    case Number(n) => PrintNumber(n)
    case Other => ""
    case Text(s) => PrintText(s)
    case Array(items) => if items == [] then "[]" else "[" + Print(items[0]) + PrintItems(items[1..]) + "]"
    case Object(members) => if members == [] then "{}"
    else "{" + PrintMember(members[0]) + PrintMembers(members[1..]) + "}"
  }

  function PrintItems(vs: seq<Value>): string {
    if vs == [] then "" else "," + Print(vs[0]) + PrintItems(vs[1..])
  }

  function PrintMember(m: Member): string {
    PrintText(m.key) + ":" + Print(m.value)
  }

  function PrintMembers(ms: seq<Member>): string {
    if ms == [] then "" else "," + PrintMember(ms[0]) + PrintMembers(ms[1..])
  }

  /** `canonical`. */
  function Canonical(v: Value): string {
    Print(Normal(v))
  }

  // The parser. A result is the value and the text after it.

  predicate IsWhite(c: char) {
    c == ' ' || c == '\t' || c == '\n' || c == '\r'
  }

  function SkipWhite(s: string): (r: string)
    ensures |r| <= |s|
  {
    if s != [] && IsWhite(s[0]) then SkipWhite(s[1..]) else s
  }

  predicate IsDigit(c: char) {
    '0' <= c <= '9'
  }

  /** The digits at the start, and the rest. */
  function Digits(s: string): (r: (string, string))
    ensures s == r.0 + r.1
    ensures forall i :: 0 <= i < |r.0| ==> IsDigit(r.0[i])
    ensures r.1 == [] || !IsDigit(r.1[0])
  {
    if s != [] && IsDigit(s[0]) then var (ds, rest) := Digits(s[1..]); ([s[0]] + ds, rest) else ([], s)
  }

  function DigitValue(c: char): nat
    requires IsDigit(c)
  {
    c as int - '0' as int
  }

  function DecimalValue(ds: string): nat
    requires forall i :: 0 <= i < |ds| ==> IsDigit(ds[i])
  {
    if ds == [] then 0 else 10 * DecimalValue(ds[..|ds| - 1]) + DigitValue(ds[|ds| - 1])
  }

  /** The optional fraction and exponent of section 6: whether there is one, and the rest; nothing if malformed. */
  function FractionAndExponent(s: string): (r: Option<(bool, string)>)
    ensures r.Some? ==> |r.value.1| <= |s|
  {
    if s != [] && s[0] == '.' then
      var (ds, rest) := Digits(s[1..]);
      if ds == [] then None
      else
        var e := Exponent(rest);
        if e.None? then None else Some((true, e.value.1))
    else Exponent(s)
  }

  function Exponent(s: string): (r: Option<(bool, string)>)
    ensures r.Some? ==> |r.value.1| <= |s|
  {
    if s != [] && (s[0] == 'e' || s[0] == 'E') then
      var signed := if |s| > 1 && (s[1] == '+' || s[1] == '-') then s[2..] else s[1..];
      var (ds, rest) := Digits(signed);
      if ds == [] then None else Some((true, rest))
    else Some((false, s))
  }

  /** A number without leading zeros. */
  function ParseNumber(s: string): (r: Option<(Value, string)>)
    ensures r.Some? ==> |r.value.1| < |s|
  {
    var negative := s != [] && s[0] == '-';
    var (ds, rest) := Digits(if negative then s[1..] else s);
    if ds == [] || (|ds| > 1 && ds[0] == '0') then None
    else
      var tail := FractionAndExponent(rest);
      if tail.None? then None
      else if tail.value.0 || (negative && ds == "0") then Some((Other, tail.value.1))
      else
        var n: int := DecimalValue(ds);
        Some((Number(if negative then -n else n), tail.value.1))
  }

  function HexValue(c: char): Option<nat> {
    if '0' <= c <= '9' then Some(c as nat - '0' as nat)
    else if 'a' <= c <= 'f' then Some(c as nat - 'a' as nat + 10)
    else if 'A' <= c <= 'F' then Some(c as nat - 'A' as nat + 10)
    else None
  }

  /** The code unit of four hexadecimal digits. */
  function Hex4(s: string): Option<nat> {
    if |s| < 4 then None
    else
      var a, b, c, d := HexValue(s[0]), HexValue(s[1]), HexValue(s[2]), HexValue(s[3]);
      if a.None? || b.None? || c.None? || d.None? then None
      else Some(((a.value * 16 + b.value) * 16 + c.value) * 16 + d.value)
  }

  /** The character of an escape, after its backslash, and the rest. A surrogate must be one of a pair. */
  function Unescape(s: string): (r: Option<(char, string)>)
    ensures r.Some? ==> |r.value.1| < |s|
  {
    if s == [] then None
    else if s[0] == '\"' || s[0] == '\\' || s[0] == '/' then Some((s[0], s[1..]))
    else if s[0] == 'b' then Some(('\U{0008}', s[1..]))
    else if s[0] == 't' then Some(('\U{0009}', s[1..]))
    else if s[0] == 'n' then Some(('\U{000A}', s[1..]))
    else if s[0] == 'f' then Some(('\U{000C}', s[1..]))
    else if s[0] == 'r' then Some(('\U{000D}', s[1..]))
    else if s[0] != 'u' then None
    else
      var unit := Hex4(s[1..]);
      if unit.None? then None
      else if unit.value < 0xD800 || 0xE000 <= unit.value < 0x10000 then Some((unit.value as char, s[5..]))
      else
        var low := if |s| > 6 && s[5] == '\\' && s[6] == 'u' then Hex4(s[7..]) else None;
        if unit.value < 0xDC00 && low.Some? && 0xDC00 <= low.value < 0xE000
        then Some(((0x10000 + (unit.value - 0xD800) * 0x400 + (low.value - 0xDC00)) as char, s[11..]))
        else None
  }

  /** The text up to the closing quotation mark, and what follows it. */
  function ParseText(s: string): (r: Option<(string, string)>)
    ensures r.Some? ==> |r.value.1| < |s|
    decreases |s|
  {
    if s == [] || s[0] < '\U{0020}' then None
    else if s[0] == '\"' then Some(([], s[1..]))
    else
      var first := if s[0] == '\\' then Unescape(s[1..]) else Some((s[0], s[1..]));
      if first.None? then None
      else
        var rest := ParseText(first.value.1);
        if rest.None? then None else Some(([first.value.0] + rest.value.0, rest.value.1))
  }

  /** The member that an object literal ends up with: a repeated key keeps its place and takes the last value. */
  function Put(ms: seq<Member>, m: Member): seq<Member> {
    if ms == [] then [m]
    else if ms[0].key == m.key then [m] + ms[1..]
    else [ms[0]] + Put(ms[1..], m)
  }

  function Parse(s: string): (r: Option<(Value, string)>)
    ensures r.Some? ==> |r.value.1| < |s|
    decreases |s|, 2
  {
    var t := SkipWhite(s);
    if t == [] then None
    else if "null" <= t then Some((Null, t[4..]))
    else if "true" <= t then Some((Bool(true), t[4..]))
    else if "false" <= t then Some((Bool(false), t[5..]))
    else if t[0] == '\"' then
      var text := ParseText(t[1..]);
      if text.None? then None else Some((Text(text.value.0), text.value.1))
    else if t[0] == '[' then
      var u := SkipWhite(t[1..]);
      if u != [] && u[0] == ']' then Some((Array([]), u[1..]))
      else
        var items := ParseItems(t[1..], []);
        if items.None? then None else Some((Array(items.value.0), items.value.1))
    else if t[0] == '{' then
      var u := SkipWhite(t[1..]);
      if u != [] && u[0] == '}' then Some((Object([]), u[1..]))
      else
        var members := ParseMembers(t[1..], []);
        if members.None? then None else Some((Object(members.value.0), members.value.1))
    else ParseNumber(t)
  }

  /** The items after those read so far, up to the closing bracket. */
  function ParseItems(s: string, read: seq<Value>): (r: Option<(seq<Value>, string)>)
    ensures r.Some? ==> |r.value.1| < |s|
    decreases |s|, 3
  {
    var item := Parse(s);
    if item.None? then None
    else
      var t := SkipWhite(item.value.1);
      var now := read + [item.value.0];
      if t != [] && t[0] == ']' then Some((now, t[1..]))
      else if t != [] && t[0] == ',' then ParseItems(t[1..], now)
      else None
  }

  function ParseMember(s: string): (r: Option<(Member, string)>)
    ensures r.Some? ==> |r.value.1| < |s|
    decreases |s|, 3
  {
    var t := SkipWhite(s);
    if t == [] || t[0] != '\"' then None
    else
      var key := ParseText(t[1..]);
      if key.None? then None
      else
        var u := SkipWhite(key.value.1);
        if u == [] || u[0] != ':' then None
        else
          var v := Parse(u[1..]);
          if v.None? then None else Some((Member(key.value.0, v.value.0), v.value.1))
  }

  function ParseMembers(s: string, read: seq<Member>): (r: Option<(seq<Member>, string)>)
    ensures r.Some? ==> |r.value.1| < |s|
    decreases |s|, 4
  {
    var member := ParseMember(s);
    if member.None? then None
    else
      var t := SkipWhite(member.value.1);
      var now := Put(read, member.value.0);
      if t != [] && t[0] == '}' then Some((now, t[1..]))
      else if t != [] && t[0] == ',' then ParseMembers(t[1..], now)
      else None
  }

  /** `JSON.parse`: one value with nothing but white space around it. */
  function ParseDocument(s: string): Option<Value> {
    var r := Parse(s);
    if r.Some? && SkipWhite(r.value.1) == [] then Some(r.value.0) else None
  }
}
