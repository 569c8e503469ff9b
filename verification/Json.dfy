/** Canonical JSON text: what the hashed records of the ledger and of billing are made of. */
module Json {
  import opened Decimal

  /** A JavaScript value with integer numbers; an object lists its own keys in enumeration order. */
  datatype Json =
    | Undefined
    | Null
    | Bool(b: bool)
    | Num(n: int)
    | Str(s: string)
    | Arr(items: seq<Json>)
    | Obj(members: seq<Member>)

  datatype Member = Member(key: string, value: Json)

  /** Billing's stableStringify; the ledger's sortKeys and JSON.stringify. */
  datatype Style = Stable | Ledger

  /** What a value means once key order and undefined members are forgotten; VHole is an undefined array item. */
  datatype Value =
    | VHole
    | VNull
    | VBool(b: bool)
    | VNum(n: int)
    | VStr(s: string)
    | VArr(items: seq<Value>)
    | VObj(members: map<string, Value>)

  ghost predicate DistinctKeys(ms: seq<Member>) {
    forall i, j :: 0 <= i < j < |ms| ==> ms[i].key != ms[j].key
  }

  /** Objects have distinct keys, at every depth. */
  ghost predicate Clean(v: Json) {
    match v
    case Arr(items) => CleanItems(items)
    case Obj(ms) => CleanMembers(ms)
    case _ => true
  }

  ghost predicate CleanItems(items: seq<Json>) {
    forall i :: 0 <= i < |items| ==> Clean(items[i])
  }

  ghost predicate CleanMembers(ms: seq<Member>) {
    DistinctKeys(ms) && forall i :: 0 <= i < |ms| ==> Clean(ms[i].value)
  }

  /** An undefined array item is null to the ledger, and a hole to billing, where one hole alone is no item. */
  ghost function Meaning(style: Style, v: Json): Value
    decreases v, 0
  {
    match v
    case Undefined => if style.Stable? then VHole else VNull
    case Null => VNull
    case Bool(b) => VBool(b)
    case Num(n) => VNum(n)
    case Str(s) => VStr(s)
    case Arr(items) =>
      if style.Stable? && items == [Undefined] then VArr([])
      else VArr(seq(|items|, i requires 0 <= i < |items| => Meaning(style, items[i])))
    case Obj(ms) => VObj(MembersMeaning(style, ms))
  }

  ghost function MembersMeaning(style: Style, ms: seq<Member>): map<string, Value>
    decreases ms, 0
  {
    if ms == [] then map[]
    else
      var rest := MembersMeaning(style, ms[1..]);
      if ms[0].value == Undefined then rest else rest[ms[0].key := Meaning(style, ms[0].value)]
  }

  // ----- key order -----

  predicate LexLess(s: string, t: string) {
    t != "" && (s == "" || s[0] < t[0] || (s[0] == t[0] && LexLess(s[1..], t[1..])))
  }

  /** A canonical array index: decimal, no leading zero, at most 2^32 - 2. */
  predicate IsIndexKey(k: string) {
    && k != "" && (forall i :: 0 <= i < |k| ==> IsDigit(k[i]))
    && (k[0] == '0' ==> |k| == 1)
    && (|k| < 10 || (|k| == 10 && !LexLess("4294967294", k)))
  }

  /** Index keys first, in numeric order, which for canonical decimals is by length and then by text. */
  predicate IndexFirstLess(s: string, t: string) {
    if IsIndexKey(s) && IsIndexKey(t) then |s| < |t| || (|s| == |t| && LexLess(s, t))
    else if IsIndexKey(s) || IsIndexKey(t) then IsIndexKey(s)
    else LexLess(s, t)
  }

  /** Billing sorts keys; the ledger's JSON.stringify lists array-index keys first. */
  predicate KeyLess(style: Style, s: string, t: string) {
    if style.Stable? then LexLess(s, t) else IndexFirstLess(s, t)
  }

  lemma {:induction false} LexTotal(s: string, t: string)
    ensures s == t || LexLess(s, t) || LexLess(t, s)
    ensures !(LexLess(s, t) && LexLess(t, s)) && !LexLess(s, s)
    decreases |s|
  {
    if s != "" {
      LexTotal(s[1..], s[1..]);
      if t != "" && s[0] == t[0] {
        LexTotal(s[1..], t[1..]);
        assert s == [s[0]] + s[1..] && t == [t[0]] + t[1..];
      }
    }
  }

  lemma {:induction false} LexTransitive(s: string, t: string, u: string)
    requires LexLess(s, t) && LexLess(t, u)
    ensures LexLess(s, u)
    decreases |s|
  {
    if s != "" && s[0] == t[0] == u[0] { LexTransitive(s[1..], t[1..], u[1..]); }
  }

  lemma KeyTotal(style: Style, s: string, t: string)
    ensures s == t || KeyLess(style, s, t) || KeyLess(style, t, s)
    ensures !(KeyLess(style, s, t) && KeyLess(style, t, s)) && !KeyLess(style, s, s)
  {
    LexTotal(s, t);
    LexTotal(s, s);
  }

  lemma KeyTransitive(style: Style, s: string, t: string, u: string)
    requires KeyLess(style, s, t) && KeyLess(style, t, u)
    ensures KeyLess(style, s, u)
  {
    if LexLess(s, t) && LexLess(t, u) { LexTransitive(s, t, u); }
  }

  ghost function Size(v: Json): nat
    decreases v, 0
  {
    match v
    case Arr(items) => 1 + ItemsSize(items)
    case Obj(ms) => 1 + MembersSize(ms)
    case _ => 1
  }

  ghost function ItemsSize(items: seq<Json>): nat
    decreases items, 0
  {
    if items == [] then 0 else Size(items[0]) + ItemsSize(items[1..])
  }

  ghost function MembersSize(ms: seq<Member>): nat
    decreases ms, 0
  {
    if ms == [] then 0 else 1 + Size(ms[0].value) + MembersSize(ms[1..])
  }

  function Inserted(style: Style, m: Member, ms: seq<Member>): (r: seq<Member>)
    ensures MembersSize(r) == 1 + Size(m.value) + MembersSize(ms)
  {
    if ms == [] || KeyLess(style, m.key, ms[0].key) then [m] + ms
    else [ms[0]] + Inserted(style, m, ms[1..])
  }

  /** The members with a value, in key order. */
  function Sorted(style: Style, ms: seq<Member>): (r: seq<Member>)
    ensures MembersSize(r) <= MembersSize(ms)
  {
    if ms == [] then []
    else if ms[0].value == Undefined then Sorted(style, ms[1..])
    else Inserted(style, ms[0], Sorted(style, ms[1..]))
  }

  ghost predicate Ascending(style: Style, ms: seq<Member>) {
    forall i, j :: 0 <= i < j < |ms| ==> KeyLess(style, ms[i].key, ms[j].key)
  }

  // ----- printing -----

  function HexChar(d: nat): char
    requires d < 16
  {
    if d < 10 then ('0' as int + d) as char else ('a' as int + (d - 10)) as char
  }

  /** One character of a string literal, escaped as JSON.stringify does (section 7 of RFC 8259). */
  function Escape(c: char): (r: string)
    ensures |r| > 0
  {
    if c == '\"' then "\\\""
    else if c == '\\' then "\\\\"
    else if c == 8 as char then "\\b"
    else if c == 12 as char then "\\f"
    else if c == '\n' then "\\n"
    else if c == '\r' then "\\r"
    else if c == '\t' then "\\t"
    else if c < ' ' then "\\u00" + [HexChar(c as int / 16), HexChar(c as int % 16)]
    else [c]
  }

  function Escaped(s: string): string {
    if s == "" then "" else Escape(s[0]) + Escaped(s[1..])
  }

  function Quoted(s: string): string {
    "\"" + Escaped(s) + "\""
  }

  /** The text of a value; an undefined item joins as nothing in billing and as null in the ledger. */
  function Text(style: Style, v: Json): string
    decreases Size(v), 1
  {
    match v
    case Undefined => if style.Stable? then "" else "null"
    case Null => "null"
    case Bool(b) => if b then "true" else "false"
    case Num(n) => Printed(n)
    case Str(s) => Quoted(s)
    case Arr(items) => "[" + ItemsText(style, items) + "]"
    case Obj(ms) => "{" + MembersText(style, Sorted(style, ms)) + "}"
  }

  function ItemsText(style: Style, items: seq<Json>): string
    decreases ItemsSize(items), 2
  {
    if items == [] then ""
    else if |items| == 1 then Text(style, items[0])
    else Text(style, items[0]) + "," + ItemsText(style, items[1..])
  }

  function MembersText(style: Style, ms: seq<Member>): string
    decreases MembersSize(ms), 2
  {
    if ms == [] then ""
    else
      Quoted(ms[0].key) + ":" + Text(style, ms[0].value)
      + if |ms| == 1 then "" else "," + MembersText(style, ms[1..])
  }

  function StableStringify(v: Json): string { Text(Stable, v) }
}
