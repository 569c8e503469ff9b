/** Signed acceptance records: hash the canonical text, sign the hash, check it after a round trip. */
module Acceptance {
  import opened Json
  import opened JsonProofs

  /** SHA-256 and the signing key are foreign: any functions from text to text. */
  datatype Crypto = Crypto(hash: string -> string, sign: string -> string, keyId: string)

  predicate IsSigningKey(k: string) {
    k == "recordHash" || k == "signature" || k == "signingKeyId"
  }

  /** The record without its signing fields. */
  function Core(signed: seq<Member>): (core: seq<Member>)
    ensures forall m :: m in core <==> m in signed && !IsSigningKey(m.key)
  {
    if signed == [] then []
    else if IsSigningKey(signed[0].key) then Core(signed[1..])
    else [signed[0]] + Core(signed[1..])
  }

  /** The value of a key; undefined when the object lacks it. */
  function Lookup(ms: seq<Member>, k: string): Json {
    if ms == [] then Undefined else if ms[0].key == k then ms[0].value else Lookup(ms[1..], k)
  }

  function SigningFields(recordHash: string, c: Crypto): seq<Member> {
    [Member("recordHash", Str(recordHash)), Member("signature", Str(c.sign(recordHash))),
     Member("signingKeyId", Str(c.keyId))]
  }

  function SignAcceptance(record: seq<Member>, c: Crypto): seq<Member> {
    var recordHash := c.hash(StableStringify(Obj(record)));
    record + SigningFields(recordHash, c)
  }

  predicate AcceptanceHashMatches(signed: seq<Member>, c: Crypto) {
    Lookup(signed, "recordHash") == Str(c.hash(StableStringify(Obj(Core(signed)))))
  }

  /** An unsigned record, as the types have it. */
  ghost predicate IsRecord(ms: seq<Member>) {
    CleanMembers(ms) && forall i :: 0 <= i < |ms| ==> !IsSigningKey(ms[i].key)
  }

  // ----- what dropping the signing fields does to the meaning -----

  ghost predicate AgreeOffSigningKeys(m: map<string, Value>, n: map<string, Value>) {
    forall k :: !IsSigningKey(k) ==> (k in m <==> k in n) && (k in m ==> m[k] == n[k])
  }

  lemma {:induction false} CoreOmits(ms: seq<Member>, k: string)
    requires forall i :: 0 <= i < |ms| ==> ms[i].key != k
    ensures forall i :: 0 <= i < |Core(ms)| ==> Core(ms)[i].key != k
  {
    if ms != [] { CoreOmits(ms[1..], k); }
  }

  lemma ConsClean(m: Member, ms: seq<Member>)
    requires Clean(m.value) && CleanMembers(ms)
    requires forall i :: 0 <= i < |ms| ==> ms[i].key != m.key
    ensures CleanMembers([m] + ms)
  {
  }

  lemma {:induction false} CoreClean(ms: seq<Member>)
    requires CleanMembers(ms)
    ensures IsRecord(Core(ms))
  {
    if ms != [] {
      CoreClean(ms[1..]);
      if !IsSigningKey(ms[0].key) {
        CoreOmits(ms[1..], ms[0].key);
        ConsClean(ms[0], Core(ms[1..]));
      }
    }
  }

  lemma {:induction false} CoreMeaning(ms: seq<Member>)
    requires CleanMembers(ms)
    ensures AgreeOffSigningKeys(MembersMeaning(Stable, Core(ms)), MembersMeaning(Stable, ms))
    ensures forall k :: IsSigningKey(k) ==> k !in MembersMeaning(Stable, Core(ms))
  {
    if ms != [] {
      CoreMeaning(ms[1..]);
      if !IsSigningKey(ms[0].key) {
        assert Core(ms)[1..] == Core(ms[1..]);
      }
    }
  }

  /** Equal meanings stay equal once the signing fields are dropped. */
  lemma CoreRespectsMeaning(ms: seq<Member>, ns: seq<Member>)
    requires CleanMembers(ms) && CleanMembers(ns) && MembersMeaning(Stable, ms) == MembersMeaning(Stable, ns)
    ensures MembersMeaning(Stable, Core(ms)) == MembersMeaning(Stable, Core(ns))
  {
    CoreMeaning(ms);
    CoreMeaning(ns);
    var m, n := MembersMeaning(Stable, Core(ms)), MembersMeaning(Stable, Core(ns));
    forall k ensures (k in m <==> k in n) && (k in m ==> m[k] == n[k]) {
      if !IsSigningKey(k) {
        assert k in m <==> k in MembersMeaning(Stable, ms);
      }
    }
  }

  lemma {:induction false} LookupAbsent(ms: seq<Member>, k: string)
    requires forall i :: 0 <= i < |ms| ==> ms[i].key != k
    ensures Lookup(ms, k) == Undefined
  {
    if ms != [] { LookupAbsent(ms[1..], k); }
  }

  lemma {:induction false} LookupMeaning(ms: seq<Member>, k: string)
    requires CleanMembers(ms)
    ensures k in MembersMeaning(Stable, ms) <==> Lookup(ms, k) != Undefined
    ensures k in MembersMeaning(Stable, ms) ==> MembersMeaning(Stable, ms)[k] == Meaning(Stable, Lookup(ms, k))
  {
    if ms != [] {
      LookupMeaning(ms[1..], k);
      if ms[0].key == k {
        assert Lookup(ms[1..], k) == Undefined by { LookupAbsent(ms[1..], k); }
      }
    }
  }

  lemma SigningFieldsHaveNoCore(recordHash: string, c: Crypto)
    ensures Core(SigningFields(recordHash, c)) == []
  {
    var tail := SigningFields(recordHash, c);
    assert Core(tail[3..]) == [];
    assert tail[2..][1..] == tail[3..] && Core(tail[2..]) == [];
    assert tail[1..][1..] == tail[2..] && Core(tail[1..]) == [];
  }

  lemma SignedClean(record: seq<Member>, c: Crypto)
    requires IsRecord(record)
    ensures CleanMembers(SignAcceptance(record, c))
  {
  }

  lemma CoreStep(m: Member, ms: seq<Member>)
    ensures Core([m] + ms) == if IsSigningKey(m.key) then Core(ms) else [m] + Core(ms)
  {
    assert ([m] + ms)[1..] == ms;
  }

  lemma Regroup<T>(a: seq<T>, b: seq<T>, c: seq<T>)
    ensures (a + b) + c == a + (b + c)
  {
  }

  lemma {:induction false} CoreOfConcat(ms: seq<Member>, tail: seq<Member>)
    ensures Core(ms + tail) == Core(ms) + Core(tail)
  {
    if ms == [] {
      assert ms + tail == tail;
    } else {
      var m, rest := ms[0], ms[1..];
      CoreOfConcat(rest, tail);
      Regroup([m], rest, tail);
      Regroup([m], Core(rest), Core(tail));
      assert ms == [m] + rest;
      CoreStep(m, rest);
      CoreStep(m, rest + tail);
    }
  }

  lemma {:induction false} CoreOfRecord(record: seq<Member>)
    requires forall i :: 0 <= i < |record| ==> !IsSigningKey(record[i].key)
    ensures Core(record) == record
  {
    if record != [] {
      CoreOfRecord(record[1..]);
      assert record == [record[0]] + record[1..];
    }
  }

  lemma CoreOfAppend(record: seq<Member>, tail: seq<Member>)
    requires (forall i :: 0 <= i < |record| ==> !IsSigningKey(record[i].key)) && Core(tail) == []
    ensures Core(record + tail) == record
  {
    CoreOfConcat(record, tail);
    CoreOfRecord(record);
  }

  lemma {:induction false} LookupOfAppend(record: seq<Member>, tail: seq<Member>, k: string)
    requires forall i :: 0 <= i < |record| ==> record[i].key != k
    ensures Lookup(record + tail, k) == Lookup(tail, k)
  {
    if record == [] {
      assert record + tail == tail;
    } else {
      LookupOfAppend(record[1..], tail, k);
      assert (record + tail)[1..] == record[1..] + tail;
    }
  }

  lemma SignedParts(record: seq<Member>, c: Crypto)
    requires IsRecord(record)
    ensures CleanMembers(SignAcceptance(record, c)) && Core(SignAcceptance(record, c)) == record
    ensures Lookup(SignAcceptance(record, c), "recordHash") == Str(c.hash(StableStringify(Obj(record))))
  {
    var h := c.hash(StableStringify(Obj(record)));
    SignedClean(record, c);
    SigningFieldsHaveNoCore(h, c);
    CoreOfAppend(record, SigningFields(h, c));
    LookupOfAppend(record, SigningFields(h, c), "recordHash");
  }

  lemma SameHashField(ms: seq<Member>, ns: seq<Member>)
    requires CleanMembers(ms) && CleanMembers(ns) && MembersMeaning(Stable, ms) == MembersMeaning(Stable, ns)
    requires Lookup(ns, "recordHash").Str?
    ensures Lookup(ms, "recordHash") == Lookup(ns, "recordHash")
  {
    LookupMeaning(ms, "recordHash");
    LookupMeaning(ns, "recordHash");
  }

  /** A signed record still matches after any round trip that keeps its meaning. */
  lemma MatchesAfterRoundTrip(record: seq<Member>, c: Crypto, stored: seq<Member>)
    requires IsRecord(record) && CleanMembers(stored)
    requires Meaning(Stable, Obj(stored)) == Meaning(Stable, Obj(SignAcceptance(record, c)))
    ensures AcceptanceHashMatches(stored, c)
  {
    var signed := SignAcceptance(record, c);
    SignedParts(record, c);
    assert Lookup(stored, "recordHash") == Lookup(signed, "recordHash") by { SameHashField(stored, signed); }
    assert MembersMeaning(Stable, Core(stored)) == MembersMeaning(Stable, record) by {
      CoreRespectsMeaning(stored, signed);
    }
    CoreClean(stored);
    TextIdentifiesMeaning(Stable, Obj(Core(stored)), Obj(record));
  }

  /**
   * A document that claims another record's hash matches exactly when its content means the same,
   * or the two canonical texts are a collision of the hash.
   */
  lemma MatchesOnlyOwnContent(record: seq<Member>, c: Crypto, stored: seq<Member>)
    requires IsRecord(record) && CleanMembers(stored)
    requires Lookup(stored, "recordHash") == Lookup(SignAcceptance(record, c), "recordHash")
    ensures var x, y := StableStringify(Obj(Core(stored))), StableStringify(Obj(record));
            AcceptanceHashMatches(stored, c)
            <==> Meaning(Stable, Obj(Core(stored))) == Meaning(Stable, Obj(record))
                 || (x != y && c.hash(x) == c.hash(y))
  {
    SignedParts(record, c);
    CoreClean(stored);
    TextIdentifiesMeaning(Stable, Obj(Core(stored)), Obj(record));
  }

  // ----- a record that has been through a jsonb column -----

  lemma {:induction false} StoredCore(ms: seq<Member>)
    ensures Core(StoredMembers(ms)) == StoredMembers(Core(ms))
  {
    if ms != [] {
      StoredCore(ms[1..]);
      if ms[0].value != Undefined {
        assert StoredMembers(ms)[1..] == StoredMembers(ms[1..]);
      }
      if !IsSigningKey(ms[0].key) {
        assert Core(ms)[1..] == Core(ms[1..]);
      }
    }
  }

  lemma {:induction false} StoredLookup(ms: seq<Member>, k: string)
    requires CleanMembers(ms)
    ensures Lookup(StoredMembers(ms), k)
            == if Lookup(ms, k) == Undefined then Undefined else Stored(Lookup(ms, k))
  {
    if ms != [] {
      StoredLookup(ms[1..], k);
      if ms[0].key == k {
        LookupAbsent(ms[1..], k);
      }
      if ms[0].value != Undefined {
        assert StoredMembers(ms)[1..] == StoredMembers(ms[1..]);
      }
    }
  }

  /**
   * A signed record read back from JSON storage matches exactly when no array of the record holds
   * undefined, or the two canonical texts are a collision of the hash.
   */
  lemma MatchesAfterStorage(record: seq<Member>, c: Crypto)
    requires IsRecord(record)
    ensures var stored := StoredMembers(SignAcceptance(record, c));
            var x, y := StableStringify(Obj(Core(stored))), StableStringify(Obj(record));
            AcceptanceHashMatches(stored, c) <==> NoHoles(Obj(record)) || (x != y && c.hash(x) == c.hash(y))
  {
    var signed := SignAcceptance(record, c);
    SignedParts(record, c);
    StoredCore(signed);
    StoredLookup(signed, "recordHash");
    StoredMembersClean(signed);
    StoredMembersMeaning(Stable, record);
    MatchesOnlyOwnContent(record, c, StoredMembers(signed));
  }
}
