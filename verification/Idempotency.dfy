/** The idempotency key: a function of (merchant, invoice, method, attempt) through a joined text. */
module Idempotency {
  import opened Decimal

  datatype KeyInput = KeyInput(merchantId: string, invoiceId: string, methodId: string, attempt: int)

  /** The four parts joined by colons, as they are hashed. */
  function Canonical(k: KeyInput): string {
    k.merchantId + ":" + k.invoiceId + ":" + k.methodId + ":" + Printed(k.attempt)
  }

  /** The part of a digest a key keeps. */
  function Kept(digest: string): string {
    if |digest| < 32 then digest else digest[..32]
  }

  function IdempotencyKey(k: KeyInput, hash: string -> string): string {
    "ax10m_charge_" + Kept(hash(Canonical(k)))
  }

  ghost predicate NoColon(s: string) {
    forall i :: 0 <= i < |s| ==> s[i] != ':'
  }

  lemma FirstColon(s: string, x: string)
    requires NoColon(s)
    ensures (s + ":" + x)[|s|] == ':'
    ensures forall i :: 0 <= i < |s| ==> (s + ":" + x)[i] != ':'
  {
  }

  lemma SplitAtColon(s: string, t: string, x: string, y: string)
    requires NoColon(s) && NoColon(t) && s + ":" + x == t + ":" + y
    ensures s == t && x == y
  {
    FirstColon(s, x);
    FirstColon(t, y);
    var u := s + ":" + x;
    assert |s| == |t|;
    assert s == u[..|s|] && t == u[..|t|];
    assert x == u[|s| + 1..] && y == u[|t| + 1..];
  }

  lemma AfterColon(k: KeyInput)
    ensures Canonical(k) == k.merchantId + ":" + (k.invoiceId + ":" + (k.methodId + ":" + Printed(k.attempt)))
  {
    var m, i, p, n := k.merchantId, k.invoiceId, k.methodId, Printed(k.attempt);
    assert m + ":" + i + ":" + p + ":" + n == m + ":" + (i + ":" + (p + ":" + n));
  }

  // ----- counting the colons of a text -----

  function Colons(s: string): nat {
    if s == "" then 0 else Colons(s[1..]) + if s[0] == ':' then 1 else 0
  }

  lemma {:induction false} ColonsAdd(s: string, t: string)
    ensures Colons(s + t) == Colons(s) + Colons(t)
  {
    if s == "" {
      assert s + t == t;
    } else {
      ColonsAdd(s[1..], t);
      assert (s + t)[1..] == s[1..] + t;
    }
  }

  lemma {:induction false} NoColonMeansNone(s: string)
    ensures NoColon(s) <==> Colons(s) == 0
  {
    if s != "" {
      NoColonMeansNone(s[1..]);
      assert NoColon(s) <==> s[0] != ':' && NoColon(s[1..]) by {
        assert forall i :: 0 < i < |s| ==> s[i] == s[1..][i - 1];
        assert forall i :: 0 <= i < |s| - 1 ==> s[1..][i] == s[i + 1];
      }
    }
  }

  lemma PrintedHasNoColon(n: int)
    ensures NoColon(Printed(n))
  {
  }

  /** The text of a charge has three colons more than its ids. */
  lemma ColonsOfText(k: KeyInput)
    ensures Colons(Canonical(k)) == Colons(k.merchantId) + Colons(k.invoiceId) + Colons(k.methodId) + 3
  {
    var a := k.methodId + (":" + Printed(k.attempt));
    var b := k.invoiceId + (":" + a);
    assert Canonical(k) == k.merchantId + (":" + b);
    ColonsAdd(k.merchantId, ":" + b);
    ColonsAdd(":", b);
    ColonsAdd(k.invoiceId, ":" + a);
    ColonsAdd(":", a);
    ColonsAdd(k.methodId, ":" + Printed(k.attempt));
    ColonsAdd(":", Printed(k.attempt));
    PrintedHasNoColon(k.attempt);
    NoColonMeansNone(Printed(k.attempt));
  }

  // ----- which charges a text identifies -----

  ghost predicate PlainIds(k: KeyInput) {
    NoColon(k.merchantId) && NoColon(k.invoiceId) && NoColon(k.methodId)
  }

  lemma PlainTextPlainIds(k: KeyInput, l: KeyInput)
    requires PlainIds(k) && Canonical(k) == Canonical(l)
    ensures PlainIds(l)
  {
    ColonsOfText(k);
    ColonsOfText(l);
    NoColonMeansNone(k.merchantId);
    NoColonMeansNone(k.invoiceId);
    NoColonMeansNone(k.methodId);
    NoColonMeansNone(l.merchantId);
    NoColonMeansNone(l.invoiceId);
    NoColonMeansNone(l.methodId);
  }

  /** A charge whose ids hold no colon shares its text with no other charge, whatever the other's ids. */
  lemma DistinctCharges(k: KeyInput, l: KeyInput)
    requires PlainIds(k)
    ensures Canonical(k) == Canonical(l) <==> k == l
  {
    if Canonical(k) == Canonical(l) {
      PlainTextPlainIds(k, l);
      AfterColon(k);
      AfterColon(l);
      var a, b := k.methodId + ":" + Printed(k.attempt), l.methodId + ":" + Printed(l.attempt);
      SplitAtColon(k.merchantId, l.merchantId, k.invoiceId + ":" + a, l.invoiceId + ":" + b);
      SplitAtColon(k.invoiceId, l.invoiceId, a, b);
      SplitAtColon(k.methodId, l.methodId, Printed(k.attempt), Printed(l.attempt));
      PrintedUnambiguous(k.attempt, l.attempt, "", "");
    }
  }

  /** Cutting s at one of its colons instead of where it ends. */
  lemma CutEarlier(s: string, c: nat, t: string, x: string)
    requires c < |s| && s[c] == ':'
    ensures s[..c] + ":" + ((s[c + 1..] + ":" + t) + ":" + x) == s + ":" + (t + ":" + x)
  {
    assert s == s[..c] + ":" + s[c + 1..];
  }

  lemma CutLater(t: string, s: string, c: nat, x: string)
    requires c < |s| && s[c] == ':'
    ensures (t + ":" + s[..c]) + ":" + (s[c + 1..] + ":" + x) == t + ":" + (s + ":" + x)
  {
    assert s == s[..c] + ":" + s[c + 1..];
  }

  /** A charge with a colon in an id has a twin: cut that id at the colon and move the boundary. */
  lemma TwinCharge(k: KeyInput) returns (l: KeyInput)
    requires !PlainIds(k)
    ensures l != k && Canonical(l) == Canonical(k)
  {
    var m, i, p, n := k.merchantId, k.invoiceId, k.methodId, Printed(k.attempt);
    AfterColon(k);
    if !NoColon(m) {
      var c: nat :| c < |m| && m[c] == ':';
      l := KeyInput(m[..c], m[c + 1..] + ":" + i, p, k.attempt);
      AfterColon(l);
      CutEarlier(m, c, i, p + ":" + n);
      assert |l.merchantId| < |m|;
    } else if !NoColon(i) {
      var c: nat :| c < |i| && i[c] == ':';
      l := KeyInput(m, i[..c], i[c + 1..] + ":" + p, k.attempt);
      AfterColon(l);
      CutEarlier(i, c, p, n);
      assert |l.invoiceId| < |i|;
    } else {
      var c: nat :| c < |p| && p[c] == ':';
      l := KeyInput(m, i + ":" + p[..c], p[c + 1..], k.attempt);
      AfterColon(l);
      CutLater(i, p, c, n);
      assert |l.methodId| < |p|;
    }
  }

  /** The text identifies a charge among all charges exactly when none of its three ids holds a colon. */
  lemma TextIdentifiesCharge(k: KeyInput)
    ensures (forall l :: Canonical(l) == Canonical(k) ==> l == k) <==> PlainIds(k)
  {
    if PlainIds(k) {
      forall l | Canonical(l) == Canonical(k) ensures l == k { DistinctCharges(k, l); }
    } else {
      var l := TwinCharge(k);
      assert Canonical(l) == Canonical(k);
    }
  }

  /** Such a pair: one colon, moved from the merchant's id to the invoice's. */
  lemma ColonsCollide()
    ensures Canonical(KeyInput("a:b", "c", "d", 1)) == Canonical(KeyInput("a", "b:c", "d", 1))
  {
  }

  /** Whatever the ids, two attempts of one saga hash different texts. */
  lemma DistinctAttempts(k: KeyInput, attempt: int)
    ensures Canonical(k) == Canonical(k.(attempt := attempt)) <==> k.attempt == attempt
  {
    var head := k.merchantId + ":" + k.invoiceId + ":" + k.methodId + ":";
    var l := k.(attempt := attempt);
    if Canonical(k) == Canonical(l) {
      assert Printed(k.attempt) == Canonical(k)[|head|..] && Printed(attempt) == Canonical(l)[|head|..];
      PrintedUnambiguous(k.attempt, attempt, "", "");
    }
  }

  // ----- from texts to keys -----

  /** Two different texts whose digests start alike. */
  predicate Collides(hash: string -> string, x: string, y: string) {
    x != y && Kept(hash(x)) == Kept(hash(y))
  }

  lemma KeyShowsDigest(k: KeyInput, l: KeyInput, hash: string -> string)
    ensures IdempotencyKey(k, hash) == IdempotencyKey(l, hash) <==> Kept(hash(Canonical(k))) == Kept(hash(Canonical(l)))
  {
    var head := "ax10m_charge_";
    assert IdempotencyKey(k, hash)[|head|..] == Kept(hash(Canonical(k)));
    assert IdempotencyKey(l, hash)[|head|..] == Kept(hash(Canonical(l)));
  }

  /** Attempts of one saga share a key only as one attempt, or when their texts collide. */
  lemma SameKeySameAttempt(k: KeyInput, a: int, b: int, hash: string -> string)
    ensures IdempotencyKey(k.(attempt := a), hash) == IdempotencyKey(k.(attempt := b), hash)
            <==> a == b || Collides(hash, Canonical(k.(attempt := a)), Canonical(k.(attempt := b)))
  {
    DistinctAttempts(k.(attempt := a), b);
    KeyShowsDigest(k.(attempt := a), k.(attempt := b), hash);
  }

  /** A charge with plain ids shares its key with another only when their texts collide. */
  lemma SameKeySameCharge(k: KeyInput, l: KeyInput, hash: string -> string)
    requires PlainIds(k)
    ensures IdempotencyKey(k, hash) == IdempotencyKey(l, hash) <==>
            k == l || Collides(hash, Canonical(k), Canonical(l))
  {
    DistinctCharges(k, l);
    KeyShowsDigest(k, l, hash);
  }
}
