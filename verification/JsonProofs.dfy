/** Two values print the same text exactly when they mean the same. */
module JsonProofs {
  import opened Decimal
  import opened Json

  // ----- string literals -----

  lemma HexCharInjective(d: nat, e: nat)
    requires d < 16 && e < 16 && HexChar(d) == HexChar(e)
    ensures d == e
  {
  }

  /** No escape starts with a quote, and none is a prefix of another. */
  lemma EscapeUnambiguous(c: char, d: char, x: string, y: string)
    requires Escape(c) + x == Escape(d) + y
    ensures c == d && x == y
  {
    assert Escape(c)[0] == (Escape(c) + x)[0] == Escape(d)[0];
    if |Escape(c)| > 1 && |Escape(d)| > 1 {
      assert Escape(c)[1] == (Escape(c) + x)[1] == Escape(d)[1];
      if |Escape(c)| > 2 && |Escape(d)| > 2 {
        assert Escape(c)[4] == (Escape(c) + x)[4] == Escape(d)[4];
        assert Escape(c)[5] == (Escape(c) + x)[5] == Escape(d)[5];
        HexCharInjective(c as int / 16, d as int / 16);
        HexCharInjective(c as int % 16, d as int % 16);
        assert c as int == d as int;
      }
    }
    assert x == (Escape(c) + x)[|Escape(c)|..];
    assert y == (Escape(d) + y)[|Escape(d)|..];
  }

  lemma EscapeNeverQuote(c: char, x: string)
    ensures (Escape(c) + x)[0] != '\"'
  {
  }

  lemma EscapedStep(s: string, x: string)
    requires s != ""
    ensures Escaped(s) + "\"" + x == Escape(s[0]) + (Escaped(s[1..]) + "\"" + x)
  {
  }

  lemma SameAfterFirst(c: char, d: char, x: string, y: string)
    requires [c] + x == [d] + y
    ensures c == d && x == y
  {
    assert x == ([c] + x)[1..] && y == ([d] + y)[1..] && c == ([c] + x)[0] && d == ([d] + y)[0];
  }

  lemma SameAfterWord(word: string, s: string, t: string)
    requires word + s == word + t
    ensures s == t
  {
    assert s == (word + s)[|word|..] && t == (word + t)[|word|..];
  }

  lemma {:induction false} EscapedUnambiguous(s: string, t: string, x: string, y: string)
    requires Escaped(s) + "\"" + x == Escaped(t) + "\"" + y
    ensures s == t && x == y
  {
    if s != "" { EscapedStep(s, x); }
    if t != "" { EscapedStep(t, y); }
    if s == "" && t == "" {
      assert Escaped(s) + "\"" == "\"" == Escaped(t) + "\"";
      SameAfterWord("\"", x, y);
    } else if s == "" {
      EscapeNeverQuote(t[0], Escaped(t[1..]) + "\"" + y);
    } else if t == "" {
      EscapeNeverQuote(s[0], Escaped(s[1..]) + "\"" + x);
    } else {
      EscapeUnambiguous(s[0], t[0], Escaped(s[1..]) + "\"" + x, Escaped(t[1..]) + "\"" + y);
      EscapedUnambiguous(s[1..], t[1..], x, y);
      assert s == [s[0]] + s[1..] && t == [t[0]] + t[1..];
    }
  }

  lemma QuotedSplit(s: string, x: string)
    ensures Quoted(s) + x == ['\"'] + (Escaped(s) + "\"" + x)
  {
  }

  lemma QuotedUnambiguous(s: string, t: string, x: string, y: string)
    requires Quoted(s) + x == Quoted(t) + y
    ensures s == t && x == y
  {
    QuotedSplit(s, x);
    QuotedSplit(t, y);
    SameAfterFirst('\"', '\"', Escaped(s) + "\"" + x, Escaped(t) + "\"" + y);
    EscapedUnambiguous(s, t, x, y);
  }

  // ----- sorting keeps the meaning -----

  ghost predicate NoUndefined(ms: seq<Member>) {
    forall i :: 0 <= i < |ms| ==> ms[i].value != Undefined
  }

  ghost predicate HasKey(ms: seq<Member>, k: string) {
    exists i :: 0 <= i < |ms| && ms[i].key == k
  }

  lemma {:induction false} MeaningKeys(style: Style, ms: seq<Member>, k: string)
    requires NoUndefined(ms)
    ensures k in MembersMeaning(style, ms) <==> HasKey(ms, k)
  {
    if ms != [] {
      MeaningKeys(style, ms[1..], k);
      assert HasKey(ms, k) <==> ms[0].key == k || HasKey(ms[1..], k);
    }
  }

  lemma {:induction false} InsertedMembers(style: Style, m: Member, ms: seq<Member>, x: Member)
    ensures x in Inserted(style, m, ms) <==> x == m || x in ms
  {
    if ms != [] && !KeyLess(style, m.key, ms[0].key) {
      InsertedMembers(style, m, ms[1..], x);
      assert x in ms <==> x == ms[0] || x in ms[1..];
    }
  }

  lemma {:induction false} InsertedAscending(style: Style, m: Member, ms: seq<Member>)
    requires Ascending(style, ms) && !HasKey(ms, m.key)
    ensures Ascending(style, Inserted(style, m, ms))
  {
    var r := Inserted(style, m, ms);
    if ms == [] {
    } else if KeyLess(style, m.key, ms[0].key) {
      forall i, j | 0 <= i < j < |r| ensures KeyLess(style, r[i].key, r[j].key) {
        if i == 0 && j > 1 { KeyTransitive(style, m.key, ms[0].key, ms[j - 1].key); }
      }
    } else {
      KeyTotal(style, m.key, ms[0].key);
      assert ms[0].key != m.key;
      assert !HasKey(ms[1..], m.key);
      InsertedAscending(style, m, ms[1..]);
      forall j | 0 < j < |r| ensures KeyLess(style, r[0].key, r[j].key) {
        assert r[j] in Inserted(style, m, ms[1..]);
        InsertedMembers(style, m, ms[1..], r[j]);
      }
    }
  }

  lemma UpdatesCommute<K, V>(t: map<K, V>, j: K, u: V, k: K, v: V)
    requires j != k
    ensures t[j := u][k := v] == t[k := v][j := u]
  {
  }

  lemma {:induction false} InsertedMeaning(style: Style, m: Member, ms: seq<Member>)
    requires !HasKey(ms, m.key) && m.value != Undefined && NoUndefined(ms)
    ensures MembersMeaning(style, Inserted(style, m, ms)) == MembersMeaning(style, ms)[m.key := Meaning(style, m.value)]
  {
    if ms == [] || KeyLess(style, m.key, ms[0].key) {
      assert ([m] + ms)[1..] == ms;
    } else {
      var rest := Inserted(style, m, ms[1..]);
      assert ms[0].key != m.key && !HasKey(ms[1..], m.key);
      InsertedMeaning(style, m, ms[1..]);
      assert ([ms[0]] + rest)[1..] == rest;
      UpdatesCommute(MembersMeaning(style, ms[1..]), ms[0].key, Meaning(style, ms[0].value), m.key,
                     Meaning(style, m.value));
    }
  }

  lemma {:induction false} SortedMembers(style: Style, ms: seq<Member>, x: Member)
    ensures x in Sorted(style, ms) <==> x in ms && x.value != Undefined
  {
    if ms != [] {
      SortedMembers(style, ms[1..], x);
      assert x in ms <==> x == ms[0] || x in ms[1..];
      if ms[0].value != Undefined { InsertedMembers(style, ms[0], Sorted(style, ms[1..]), x); }
    }
  }

  lemma SortedLacksKey(style: Style, ms: seq<Member>, k: string)
    requires !HasKey(ms, k)
    ensures !HasKey(Sorted(style, ms), k)
  {
    forall i | 0 <= i < |Sorted(style, ms)| ensures Sorted(style, ms)[i].key != k {
      SortedMembers(style, ms, Sorted(style, ms)[i]);
    }
  }

  lemma SortedHasValues(style: Style, ms: seq<Member>)
    ensures NoUndefined(Sorted(style, ms))
    ensures (forall i :: 0 <= i < |ms| ==> Clean(ms[i].value)) ==>
              forall i :: 0 <= i < |Sorted(style, ms)| ==> Clean(Sorted(style, ms)[i].value)
  {
    var r := Sorted(style, ms);
    forall i | 0 <= i < |r| ensures r[i] in ms && r[i].value != Undefined {
      SortedMembers(style, ms, r[i]);
    }
  }

  lemma {:induction false} SortedCorrect(style: Style, ms: seq<Member>)
    requires DistinctKeys(ms)
    ensures Ascending(style, Sorted(style, ms))
    ensures MembersMeaning(style, Sorted(style, ms)) == MembersMeaning(style, ms)
  {
    if ms != [] {
      SortedCorrect(style, ms[1..]);
      if ms[0].value != Undefined {
        SortedLacksKey(style, ms[1..], ms[0].key);
        SortedHasValues(style, ms[1..]);
        InsertedAscending(style, ms[0], Sorted(style, ms[1..]));
        InsertedMeaning(style, ms[0], Sorted(style, ms[1..]));
      }
    }
  }

  // ----- equal text, equal meaning -----

  ghost predicate Delimited(s: string) {
    s == "" || s[0] == ',' || s[0] == ']' || s[0] == '}'
  }

  /** Undefined prints as null in the ledger, and means the same there. */
  function Shown(style: Style, v: Json): Json {
    if style.Ledger? && v == Undefined then Null else v
  }

  lemma TextFirst(style: Style, v: Json)
    requires Shown(style, v) != Undefined
    ensures Text(style, v) != "" && !Delimited(Text(style, v))
  {
  }

  /** How the first character of a delimited text tells the kind of the value it starts with. */
  ghost predicate Leads(text: string, v: Json) {
    && (v.Undefined? <==> Delimited(text))
    && (v.Null? <==> text != "" && text[0] == 'n')
    && (v == Bool(true) <==> text != "" && text[0] == 't') && (v == Bool(false) <==> text != "" && text[0] == 'f')
    && (v.Str? <==> text != "" && text[0] == '"')
    && (v.Arr? <==> text != "" && text[0] == '[') && (v.Obj? <==> text != "" && text[0] == '{')
  }

  lemma TextLeads(style: Style, v: Json, s: string)
    requires Delimited(s)
    ensures Leads(Text(style, v) + s, Shown(style, v))
  {
    if Shown(style, v) == Undefined {
      assert Text(style, v) + s == s;
    } else {
      TextFirst(style, v);
      assert (Text(style, v) + s)[0] == Text(style, v)[0];
    }
  }

  lemma SameKind(style: Style, v: Json, w: Json, s: string, t: string)
    requires Delimited(s) && Delimited(t) && Text(style, v) + s == Text(style, w) + t
    ensures var x, y := Shown(style, v), Shown(style, w);
            && (x.Undefined? <==> y.Undefined?) && (x.Null? <==> y.Null?) && (x.Bool? <==> y.Bool?)
            && (x.Bool? ==> x == y) && (x.Num? <==> y.Num?) && (x.Str? <==> y.Str?)
            && (x.Arr? <==> y.Arr?) && (x.Obj? <==> y.Obj?)
  {
    TextLeads(style, v, s);
    TextLeads(style, w, t);
  }

  function AfterFirstItem(style: Style, items: seq<Json>, s: string): string
    requires |items| > 0
  {
    if |items| == 1 then s else "," + ItemsText(style, items[1..]) + s
  }

  lemma ItemsTextSplit(style: Style, items: seq<Json>, s: string)
    requires |items| > 0
    ensures ItemsText(style, items) + s == Text(style, items[0]) + AfterFirstItem(style, items, s)
  {
  }

  function AfterFirstMember(style: Style, ms: seq<Member>, s: string): string
    requires |ms| > 0
  {
    if |ms| == 1 then s else "," + MembersText(style, ms[1..]) + s
  }

  lemma MembersTextSplit(style: Style, ms: seq<Member>, s: string)
    requires |ms| > 0
    ensures MembersText(style, ms) + s
            == Quoted(ms[0].key) + (":" + (Text(style, ms[0].value) + AfterFirstMember(style, ms, s)))
  {
  }

  lemma ArrTextSplit(style: Style, items: seq<Json>, s: string)
    ensures Text(style, Arr(items)) + s == ['['] + (ItemsText(style, items) + ("]" + s))
  {
  }

  lemma ObjTextSplit(style: Style, ms: seq<Member>, s: string)
    ensures Text(style, Obj(ms)) + s == ['{'] + (MembersText(style, Sorted(style, ms)) + ("}" + s))
  {
  }

  lemma {:induction false} TextUnambiguous(style: Style, v: Json, w: Json, s: string, t: string)
    requires Clean(v) && Clean(w) && Delimited(s) && Delimited(t)
    requires Text(style, v) + s == Text(style, w) + t
    ensures Meaning(style, v) == Meaning(style, w) && s == t
    decreases Size(v), 1
  {
    SameKind(style, v, w, s, t);
    match Shown(style, v)
    case Undefined => SameAfterWord("", s, t);
    case Null => SameAfterWord("null", s, t);
    case Bool(b) => SameAfterWord(Text(style, v), s, t);
    case Num(n) => PrintedUnambiguous(n, w.n, s, t);
    case Str(x) => QuotedUnambiguous(x, w.s, s, t);
    case Arr(items) => ArraysUnambiguous(style, items, w.items, s, t);
    case Obj(ms) => ObjectsUnambiguous(style, ms, w.members, s, t);
  }

  /** The lists of items that print as nothing. */
  predicate PrintsNoItem(style: Style, items: seq<Json>) {
    items == [] || (style.Stable? && items == [Undefined])
  }

  lemma NoItemMeaning(style: Style, items: seq<Json>)
    ensures PrintsNoItem(style, items) <==> Meaning(style, Arr(items)) == VArr([])
    ensures !PrintsNoItem(style, items) ==> |Meaning(style, Arr(items)).items| == |items|
    ensures !PrintsNoItem(style, items) ==>
              forall i :: 0 <= i < |items| ==> Meaning(style, Arr(items)).items[i] == Meaning(style, items[i])
  {
  }

  lemma NoItemText(style: Style, items: seq<Json>, s: string)
    ensures PrintsNoItem(style, items) <==> (ItemsText(style, items) + ("]" + s))[0] == ']'
    ensures PrintsNoItem(style, items) ==> ItemsText(style, items) == ""
  {
    if items != [] {
      ItemsTextSplit(style, items, "]" + s);
      var rest := AfterFirstItem(style, items, "]" + s);
      if Shown(style, items[0]) != Undefined {
        TextFirst(style, items[0]);
      } else {
        assert Text(style, items[0]) + rest == rest;
      }
    }
  }

  lemma {:induction false} ArraysUnambiguous(style: Style, p: seq<Json>, q: seq<Json>, s: string, t: string)
    requires CleanItems(p) && CleanItems(q)
    requires Text(style, Arr(p)) + s == Text(style, Arr(q)) + t
    ensures Meaning(style, Arr(p)) == Meaning(style, Arr(q)) && s == t
    decreases ItemsSize(p), 3
  {
    ArrTextSplit(style, p, s);
    ArrTextSplit(style, q, t);
    SameAfterFirst('[', '[', ItemsText(style, p) + ("]" + s), ItemsText(style, q) + ("]" + t));
    NoItemText(style, p, s);
    NoItemText(style, q, t);
    NoItemMeaning(style, p);
    NoItemMeaning(style, q);
    if PrintsNoItem(style, p) {
      SameAfterWord(ItemsText(style, p), "]" + s, "]" + t);
    } else {
      ItemsUnambiguous(style, p, q, "]" + s, "]" + t);
      assert Meaning(style, Arr(p)).items == Meaning(style, Arr(q)).items;
    }
    SameAfterWord("]", s, t);
  }

  lemma {:induction false} ObjectsUnambiguous(style: Style, ms: seq<Member>, ns: seq<Member>, s: string, t: string)
    requires CleanMembers(ms) && CleanMembers(ns)
    requires Text(style, Obj(ms)) + s == Text(style, Obj(ns)) + t
    ensures Meaning(style, Obj(ms)) == Meaning(style, Obj(ns)) && s == t
    decreases MembersSize(ms), 3
  {
    var p, q := Sorted(style, ms), Sorted(style, ns);
    ObjTextSplit(style, ms, s);
    ObjTextSplit(style, ns, t);
    SameAfterFirst('{', '{', MembersText(style, p) + ("}" + s), MembersText(style, q) + ("}" + t));
    SortedHasValues(style, ms);
    SortedHasValues(style, ns);
    MembersUnambiguous(style, p, q, "}" + s, "}" + t);
    SameAfterWord("}", s, t);
    SortedCorrect(style, ms);
    SortedCorrect(style, ns);
  }

  lemma CommaFirst(a: string, s: string)
    ensures "," + a + s == [','] + (a + s)
  {
  }

  lemma SameRestOfItems(style: Style, p: seq<Json>, q: seq<Json>, s: string, t: string)
    requires p != [] && q != [] && s != "" && t != "" && s[0] == t[0] == ']'
    requires AfterFirstItem(style, p, s) == AfterFirstItem(style, q, t)
    ensures |p| == 1 <==> |q| == 1
    ensures |p| == 1 ==> s == t
    ensures |p| > 1 ==> ItemsText(style, p[1..]) + s == ItemsText(style, q[1..]) + t
  {
    if |p| > 1 { CommaFirst(ItemsText(style, p[1..]), s); }
    if |q| > 1 { CommaFirst(ItemsText(style, q[1..]), t); }
    if |p| > 1 && |q| > 1 { SameAfterFirst(',', ',', ItemsText(style, p[1..]) + s, ItemsText(style, q[1..]) + t); }
  }

  lemma {:induction false} ItemsUnambiguous(style: Style, p: seq<Json>, q: seq<Json>, s: string, t: string)
    requires CleanItems(p) && CleanItems(q) && p != [] && q != []
    requires s != "" && t != "" && s[0] == t[0] == ']'
    requires ItemsText(style, p) + s == ItemsText(style, q) + t
    ensures |p| == |q| && (forall i :: 0 <= i < |p| ==> Meaning(style, p[i]) == Meaning(style, q[i])) && s == t
    decreases ItemsSize(p), 2
  {
    ItemsTextSplit(style, p, s);
    ItemsTextSplit(style, q, t);
    TextUnambiguous(style, p[0], q[0], AfterFirstItem(style, p, s), AfterFirstItem(style, q, t));
    SameRestOfItems(style, p, q, s, t);
    if |p| > 1 {
      ItemsUnambiguous(style, p[1..], q[1..], s, t);
      forall i | 0 < i < |p| ensures Meaning(style, p[i]) == Meaning(style, q[i]) {
        assert p[i] == p[1..][i - 1] && q[i] == q[1..][i - 1];
      }
    }
  }

  lemma MembersTextFirst(style: Style, ms: seq<Member>, s: string)
    requires ms != []
    ensures MembersText(style, ms) + s != "" && (MembersText(style, ms) + s)[0] == '\"'
  {
  }

  lemma SameMemberCount(style: Style, p: seq<Member>, q: seq<Member>, s: string, t: string)
    requires s != "" && t != "" && s[0] == t[0] == '}'
    requires MembersText(style, p) + s == MembersText(style, q) + t
    ensures p == [] <==> q == []
    ensures p == [] ==> s == t
  {
    if p == [] { assert MembersText(style, p) + s == s; } else { MembersTextFirst(style, p, s); }
    if q == [] { assert MembersText(style, q) + t == t; } else { MembersTextFirst(style, q, t); }
  }

  lemma SameRestOfMembers(style: Style, p: seq<Member>, q: seq<Member>, s: string, t: string)
    requires p != [] && q != [] && s != "" && t != "" && s[0] == t[0] == '}'
    requires AfterFirstMember(style, p, s) == AfterFirstMember(style, q, t)
    ensures |p| == 1 <==> |q| == 1
    ensures |p| == 1 ==> s == t
    ensures |p| > 1 ==> MembersText(style, p[1..]) + s == MembersText(style, q[1..]) + t
  {
    if |p| > 1 { CommaFirst(MembersText(style, p[1..]), s); }
    if |q| > 1 { CommaFirst(MembersText(style, q[1..]), t); }
    if |p| > 1 && |q| > 1 { SameAfterFirst(',', ',', MembersText(style, p[1..]) + s, MembersText(style, q[1..]) + t); }
  }

  lemma SameFirstKey(style: Style, p: seq<Member>, q: seq<Member>, s: string, t: string)
    requires p != [] && q != [] && MembersText(style, p) + s == MembersText(style, q) + t
    ensures p[0].key == q[0].key
    ensures Text(style, p[0].value) + AfterFirstMember(style, p, s)
            == Text(style, q[0].value) + AfterFirstMember(style, q, t)
  {
    MembersTextSplit(style, p, s);
    MembersTextSplit(style, q, t);
    var u := Text(style, p[0].value) + AfterFirstMember(style, p, s);
    var w := Text(style, q[0].value) + AfterFirstMember(style, q, t);
    QuotedUnambiguous(p[0].key, q[0].key, ":" + u, ":" + w);
    SameAfterWord(":", u, w);
  }

  lemma {:induction false} MembersUnambiguous(style: Style, p: seq<Member>, q: seq<Member>, s: string, t: string)
    requires NoUndefined(p) && NoUndefined(q) && s != "" && t != "" && s[0] == t[0] == '}'
    requires forall i :: 0 <= i < |p| ==> Clean(p[i].value)
    requires forall i :: 0 <= i < |q| ==> Clean(q[i].value)
    requires MembersText(style, p) + s == MembersText(style, q) + t
    ensures MembersMeaning(style, p) == MembersMeaning(style, q) && s == t
    decreases MembersSize(p), 2
  {
    SameMemberCount(style, p, q, s, t);
    if p != [] {
      SameFirstKey(style, p, q, s, t);
      TextUnambiguous(style, p[0].value, q[0].value, AfterFirstMember(style, p, s), AfterFirstMember(style, q, t));
      SameRestOfMembers(style, p, q, s, t);
      if |p| > 1 { MembersUnambiguous(style, p[1..], q[1..], s, t); }
    }
  }

  // ----- equal meaning, equal text -----

  lemma {:induction false} SameMeaningSameText(style: Style, v: Json, w: Json)
    requires Clean(v) && Clean(w) && Meaning(style, v) == Meaning(style, w)
    ensures Text(style, v) == Text(style, w)
    decreases Size(v), 1
  {
    match v
    case Arr(items) => SameMeaningSameArrays(style, items, w.items);
    case Obj(ms) =>
      SortedCorrect(style, ms);
      SortedCorrect(style, w.members);
      SortedHasValues(style, ms);
      SortedHasValues(style, w.members);
      SameMeaningSameMembers(style, Sorted(style, ms), Sorted(style, w.members));
    case _ =>
  }

  lemma {:induction false} SameMeaningSameArrays(style: Style, p: seq<Json>, q: seq<Json>)
    requires CleanItems(p) && CleanItems(q) && Meaning(style, Arr(p)) == Meaning(style, Arr(q))
    ensures ItemsText(style, p) == ItemsText(style, q)
    decreases ItemsSize(p), 3
  {
    NoItemMeaning(style, p);
    NoItemMeaning(style, q);
    if PrintsNoItem(style, p) {
      NoItemText(style, p, "");
      NoItemText(style, q, "");
    } else {
      forall i | 0 <= i < |p| ensures Meaning(style, p[i]) == Meaning(style, q[i]) {
        assert Meaning(style, Arr(p)).items[i] == Meaning(style, Arr(q)).items[i];
      }
      SameMeaningSameItems(style, p, q);
    }
  }

  lemma {:induction false} SameMeaningSameItems(style: Style, p: seq<Json>, q: seq<Json>)
    requires CleanItems(p) && CleanItems(q) && |p| == |q|
    requires forall i :: 0 <= i < |p| ==> Meaning(style, p[i]) == Meaning(style, q[i])
    ensures ItemsText(style, p) == ItemsText(style, q)
    decreases ItemsSize(p), 2
  {
    if p != [] {
      SameMeaningSameText(style, p[0], q[0]);
      if |p| > 1 { SameMeaningSameItems(style, p[1..], q[1..]); }
    }
  }

  lemma EmptyMeaning(style: Style, p: seq<Member>)
    requires NoUndefined(p)
    ensures MembersMeaning(style, p) == map[] <==> p == []
  {
    if p != [] { assert p[0].key in MembersMeaning(style, p); }
  }

  lemma {:induction false} SameValuesSameMembers(style: Style, p: seq<Member>, q: seq<Member>)
    requires |p| == |q|
    requires forall i :: 0 <= i < |p| ==> p[i].key == q[i].key && Text(style, p[i].value) == Text(style, q[i].value)
    ensures MembersText(style, p) == MembersText(style, q)
    decreases |p|
  {
    if p != [] { SameValuesSameMembers(style, p[1..], q[1..]); }
  }

  /** The first of ascending members carries the least key of their meaning. */
  lemma FirstKeyLeast(style: Style, p: seq<Member>, k: string)
    requires Ascending(style, p) && NoUndefined(p) && p != [] && k in MembersMeaning(style, p)
    ensures k == p[0].key || KeyLess(style, p[0].key, k)
  {
    MeaningKeys(style, p, k);
  }

  lemma RestMeaning(style: Style, p: seq<Member>)
    requires Ascending(style, p) && NoUndefined(p) && p != []
    ensures MembersMeaning(style, p[1..]) == MembersMeaning(style, p) - {p[0].key}
  {
    var k := p[0].key;
    MeaningKeys(style, p[1..], k);
    forall i | 0 <= i < |p[1..]| ensures p[1..][i].key != k {
      KeyTotal(style, k, p[i + 1].key);
    }
  }

  lemma {:induction false} SameMeaningSameMembers(style: Style, p: seq<Member>, q: seq<Member>)
    requires Ascending(style, p) && Ascending(style, q) && NoUndefined(p) && NoUndefined(q)
    requires forall i :: 0 <= i < |p| ==> Clean(p[i].value)
    requires forall i :: 0 <= i < |q| ==> Clean(q[i].value)
    requires MembersMeaning(style, p) == MembersMeaning(style, q)
    ensures MembersText(style, p) == MembersText(style, q)
    decreases MembersSize(p), 2
  {
    EmptyMeaning(style, p);
    EmptyMeaning(style, q);
    if p != [] && q != [] {
      FirstKeyLeast(style, p, q[0].key);
      FirstKeyLeast(style, q, p[0].key);
      KeyTotal(style, p[0].key, q[0].key);
      SameMeaningSameText(style, p[0].value, q[0].value);
      RestMeaning(style, p);
      RestMeaning(style, q);
      SameMeaningSameMembers(style, p[1..], q[1..]);
      EmptyMeaning(style, p[1..]);
      EmptyMeaning(style, q[1..]);
    }
  }

  /** The canonical text identifies a value up to key order and undefined members, at every depth. */
  lemma TextIdentifiesMeaning(style: Style, v: Json, w: Json)
    requires Clean(v) && Clean(w)
    ensures Text(style, v) == Text(style, w) <==> Meaning(style, v) == Meaning(style, w)
  {
    if Text(style, v) == Text(style, w) {
      TextUnambiguous(style, v, w, "", "");
    } else if Meaning(style, v) == Meaning(style, w) {
      SameMeaningSameText(style, v, w);
    }
  }

  // ----- undefined inside arrays -----

  ghost predicate SameItems(style: Style, p: seq<Json>, q: seq<Json>) {
    |p| == |q| && forall i :: 0 <= i < |p| ==> Meaning(style, p[i]) == Meaning(style, q[i])
  }

  lemma ItemsOfMeaning(style: Style, p: seq<Json>, q: seq<Json>)
    requires !PrintsNoItem(style, p) && !PrintsNoItem(style, q)
    ensures Meaning(style, Arr(p)) == Meaning(style, Arr(q)) <==> SameItems(style, p, q)
  {
    NoItemMeaning(style, p);
    NoItemMeaning(style, q);
    if SameItems(style, p, q) {
      assert Meaning(style, Arr(p)).items == Meaning(style, Arr(q)).items;
    }
  }

  lemma SameItemsNoItem(style: Style, p: seq<Json>, q: seq<Json>)
    requires SameItems(style, p, q)
    ensures PrintsNoItem(style, p) <==> PrintsNoItem(style, q)
  {
    if p != [] { assert Meaning(style, p[0]) == Meaning(style, q[0]); }
  }

  /**
   * Two arrays print alike exactly when their items mean the same one by one, or when both print no item:
   * billing prints the array of one undefined item as the empty one, and no other arrays are confused.
   */
  lemma ArraysPrintAlike(style: Style, p: seq<Json>, q: seq<Json>)
    requires CleanItems(p) && CleanItems(q)
    ensures Text(style, Arr(p)) == Text(style, Arr(q)) <==>
            SameItems(style, p, q) || (PrintsNoItem(style, p) && PrintsNoItem(style, q))
  {
    TextIdentifiesMeaning(style, Arr(p), Arr(q));
    NoItemMeaning(style, p);
    NoItemMeaning(style, q);
    if PrintsNoItem(style, p) || PrintsNoItem(style, q) {
      if SameItems(style, p, q) { SameItemsNoItem(style, p, q); }
    } else {
      ItemsOfMeaning(style, p, q);
    }
  }

  /** A value as JSON storage gives it back: undefined items become null and undefined members are dropped. */
  function Stored(v: Json): Json
    decreases v, 0
  {
    match v
    case Undefined => Null
    case Arr(items) => Arr(StoredItems(items))
    case Obj(ms) => Obj(StoredMembers(ms))
    case _ => v
  }

  function StoredItems(items: seq<Json>): seq<Json>
    decreases items, 0
  {
    if items == [] then [] else [Stored(items[0])] + StoredItems(items[1..])
  }

  function StoredMembers(ms: seq<Member>): seq<Member>
    decreases ms, 0
  {
    if ms == [] then []
    else if ms[0].value == Undefined then StoredMembers(ms[1..])
    else [Member(ms[0].key, Stored(ms[0].value))] + StoredMembers(ms[1..])
  }

  /** No array holds undefined, at any depth. */
  predicate NoHoles(v: Json)
    decreases v, 0
  {
    match v
    case Arr(items) => NoItemHoles(items)
    case Obj(ms) => NoMemberHoles(ms)
    case _ => true
  }

  predicate NoItemHoles(items: seq<Json>)
    decreases items, 0
  {
    items == [] || (items[0] != Undefined && NoHoles(items[0]) && NoItemHoles(items[1..]))
  }

  predicate NoMemberHoles(ms: seq<Member>)
    decreases ms, 0
  {
    ms == [] || (NoHoles(ms[0].value) && NoMemberHoles(ms[1..]))
  }

  lemma {:induction false} StoredKeys(ms: seq<Member>, k: string)
    requires !HasKey(ms, k)
    ensures !HasKey(StoredMembers(ms), k)
  {
    if ms != [] {
      assert ms[0].key != k && !HasKey(ms[1..], k);
      StoredKeys(ms[1..], k);
    }
  }

  lemma {:induction false} StoredClean(v: Json)
    requires Clean(v)
    ensures Clean(Stored(v))
    decreases v, 0
  {
    match v
    case Arr(items) => StoredItemsClean(items);
    case Obj(ms) => StoredMembersClean(ms);
    case _ =>
  }

  lemma {:induction false} StoredItemsClean(items: seq<Json>)
    requires CleanItems(items)
    ensures CleanItems(StoredItems(items)) && |StoredItems(items)| == |items|
    decreases items, 0
  {
    if items != [] {
      StoredClean(items[0]);
      StoredItemsClean(items[1..]);
    }
  }

  lemma {:induction false} StoredMembersClean(ms: seq<Member>)
    requires CleanMembers(ms)
    ensures CleanMembers(StoredMembers(ms))
    decreases ms, 0
  {
    if ms != [] {
      StoredMembersClean(ms[1..]);
      if ms[0].value != Undefined {
        StoredClean(ms[0].value);
        StoredKeys(ms[1..], ms[0].key);
        var rest := StoredMembers(ms[1..]);
        forall i | 0 <= i < |rest| ensures rest[i].key != ms[0].key {
        }
      }
    }
  }

  lemma {:induction false} StoredMeaning(style: Style, v: Json)
    requires Clean(v) && v != Undefined
    ensures Meaning(style, Stored(v)) == Meaning(style, v) <==> style.Ledger? || NoHoles(v)
    decreases v, 0
  {
    match v
    case Arr(items) => StoredArrayMeaning(style, items);
    case Obj(ms) => StoredMembersMeaning(style, ms);
    case _ =>
  }

  lemma SameItemsStep(style: Style, p: seq<Json>, q: seq<Json>)
    requires p != [] && q != []
    ensures SameItems(style, p, q) <==>
            Meaning(style, p[0]) == Meaning(style, q[0]) && SameItems(style, p[1..], q[1..])
  {
    if SameItems(style, p[1..], q[1..]) && Meaning(style, p[0]) == Meaning(style, q[0]) {
      forall i | 0 < i < |p| ensures Meaning(style, p[i]) == Meaning(style, q[i]) {
        assert p[i] == p[1..][i - 1] && q[i] == q[1..][i - 1];
      }
    }
  }

  lemma {:induction false} StoredItemsMeaning(style: Style, items: seq<Json>)
    requires CleanItems(items)
    ensures SameItems(style, StoredItems(items), items) <==> style.Ledger? || NoItemHoles(items)
    decreases items, 0
  {
    if items != [] {
      var first, rest := Stored(items[0]), StoredItems(items[1..]);
      if items[0] != Undefined { StoredMeaning(style, items[0]); }
      StoredItemsMeaning(style, items[1..]);
      assert StoredItems(items)[1..] == rest;
      SameItemsStep(style, StoredItems(items), items);
    }
  }

  lemma {:induction false} StoredArrayMeaning(style: Style, items: seq<Json>)
    requires CleanItems(items)
    ensures Meaning(style, Arr(StoredItems(items))) == Meaning(style, Arr(items)) <==>
              style.Ledger? || NoItemHoles(items)
    decreases items, 1
  {
    var after := StoredItems(items);
    StoredItemsClean(items);
    StoredItemsMeaning(style, items);
    NoItemMeaning(style, items);
    NoItemMeaning(style, after);
    if items == [Undefined] { assert after == [Null]; }
    if !PrintsNoItem(style, items) && !PrintsNoItem(style, after) { ItemsOfMeaning(style, after, items); }
  }

  lemma UpdateInjective<K, V>(m: map<K, V>, n: map<K, V>, k: K, u: V, v: V)
    requires k !in m && k !in n
    ensures m[k := u] == n[k := v] <==> u == v && m == n
  {
    if m[k := u] == n[k := v] {
      assert m[k := u][k] == u && n[k := v][k] == v;
      assert m == m[k := u] - {k} && n == n[k := v] - {k};
    }
  }

  lemma {:induction false} AbsentMeaning(style: Style, ms: seq<Member>, k: string)
    requires !HasKey(ms, k)
    ensures k !in MembersMeaning(style, ms)
  {
    if ms != [] {
      assert ms[0].key != k && !HasKey(ms[1..], k);
      AbsentMeaning(style, ms[1..], k);
    }
  }

  lemma {:induction false} StoredMembersMeaning(style: Style, ms: seq<Member>)
    requires CleanMembers(ms)
    ensures MembersMeaning(style, StoredMembers(ms)) == MembersMeaning(style, ms) <==>
              style.Ledger? || NoMemberHoles(ms)
    decreases ms, 0
  {
    if ms != [] {
      StoredMembersMeaning(style, ms[1..]);
      if ms[0].value != Undefined {
        var k, rest := ms[0].key, StoredMembers(ms[1..]);
        StoredMeaning(style, ms[0].value);
        assert !HasKey(ms[1..], k);
        StoredKeys(ms[1..], k);
        AbsentMeaning(style, ms[1..], k);
        AbsentMeaning(style, rest, k);
        assert StoredMembers(ms)[1..] == rest;
        UpdateInjective(MembersMeaning(style, rest), MembersMeaning(style, ms[1..]), k,
                        Meaning(style, Stored(ms[0].value)), Meaning(style, ms[0].value));
      }
    }
  }

  /** JSON storage keeps the ledger's text always, and billing's exactly when no array holds undefined. */
  lemma StoringKeepsText(style: Style, v: Json)
    requires Clean(v) && v != Undefined
    ensures Clean(Stored(v))
    ensures Text(style, Stored(v)) == Text(style, v) <==> style.Ledger? || NoHoles(v)
  {
    StoredClean(v);
    StoredMeaning(style, v);
    TextIdentifiesMeaning(style, Stored(v), v);
  }
}
