/** The append-only hash chain and its verifier. */
module Ledger {
  import opened Decimal
  import opened Json
  import opened JsonProofs

  type Digest = string -> string

  const GENESIS_HASH: string := "0000000000000000000000000000000000000000000000000000000000000000"

  /** detail is an object, by its members. */
  datatype EntryData = EntryData(seqNo: int, merchantId: string, kind: string, occurredAt: string, detail: seq<Member>)
  datatype LedgerEntry = LedgerEntry(data: EntryData, prevHash: string, hash: string)
  datatype Input = Input(merchantId: string, kind: string, occurredAt: string, detail: seq<Member>)

  /** SHA-256 in hex: nothing is assumed but the length of its output. */
  ghost predicate FixedLength(h: Digest) {
    forall s :: |h(s)| == |GENESIS_HASH|
  }

  function CanonicalMembers(d: EntryData): seq<Member> {
    [Member("seq", Num(d.seqNo)), Member("merchantId", Str(d.merchantId)), Member("type", Str(d.kind)),
     Member("occurredAt", Str(d.occurredAt)), Member("detail", Obj(d.detail))]
  }

  function Canonicalize(d: EntryData): string {
    "{" + MembersText(Style.Ledger, CanonicalMembers(d)) + "}"
  }

  /** What is hashed: the previous hash, then the canonical data. */
  function Payload(d: EntryData, prevHash: string): string {
    prevHash + Canonicalize(d)
  }

  /** How an entry's hash follows from its data and the previous hash. */
  type Linker = (EntryData, string) -> string

  /** hashEntry over a given digest. */
  function HashEntry(h: Digest): Linker {
    (d, prevHash) => h(Payload(d, prevHash))
  }

  /** Equal up to key order and undefined members of detail, at every depth. */
  ghost predicate SameData(d: EntryData, e: EntryData) {
    && d.seqNo == e.seqNo && d.merchantId == e.merchantId && d.kind == e.kind && d.occurredAt == e.occurredAt
    && Meaning(Style.Ledger, Obj(d.detail)) == Meaning(Style.Ledger, Obj(e.detail))
  }

  ghost predicate CleanData(d: EntryData) {
    CleanMembers(d.detail)
  }

  lemma MeaningOfNext(m: Member, ms: seq<Member>)
    requires m.value != Undefined
    ensures MembersMeaning(Style.Ledger, [m] + ms)
            == MembersMeaning(Style.Ledger, ms)[m.key := Meaning(Style.Ledger, m.value)]
  {
    assert ([m] + ms)[1..] == ms;
  }

  lemma CanonicalMeaning(d: EntryData)
    ensures MembersMeaning(Style.Ledger, CanonicalMembers(d)) ==
            map["seq" := VNum(d.seqNo), "merchantId" := VStr(d.merchantId), "type" := VStr(d.kind),
                "occurredAt" := VStr(d.occurredAt), "detail" := Meaning(Style.Ledger, Obj(d.detail))]
  {
    var ms := CanonicalMembers(d);
    var detail := [ms[4]] + [];
    var dated := [ms[3]] + detail;
    var typed := [ms[2]] + dated;
    var owned := [ms[1]] + typed;
    MeaningOfNext(ms[4], []);
    MeaningOfNext(ms[3], detail);
    MeaningOfNext(ms[2], dated);
    MeaningOfNext(ms[1], typed);
    MeaningOfNext(ms[0], owned);
    assert ms == [ms[0]] + owned;
  }

  lemma BracedMembers(ms: seq<Member>, ns: seq<Member>)
    requires NoUndefined(ms) && NoUndefined(ns)
    requires forall i :: 0 <= i < |ms| ==> Clean(ms[i].value)
    requires forall i :: 0 <= i < |ns| ==> Clean(ns[i].value)
    requires "{" + MembersText(Style.Ledger, ms) + "}" == "{" + MembersText(Style.Ledger, ns) + "}"
    ensures MembersMeaning(Style.Ledger, ms) == MembersMeaning(Style.Ledger, ns)
  {
    var x, y := MembersText(Style.Ledger, ms), MembersText(Style.Ledger, ns);
    assert "{" + x + "}" == "{" + (x + "}") && "{" + y + "}" == "{" + (y + "}");
    SameAfterWord("{", x + "}", y + "}");
    MembersUnambiguous(Style.Ledger, ms, ns, "}", "}");
  }

  lemma SameMeaningSameData(d: EntryData, e: EntryData)
    requires MembersMeaning(Style.Ledger, CanonicalMembers(d)) == MembersMeaning(Style.Ledger, CanonicalMembers(e))
    ensures SameData(d, e)
  {
    CanonicalMeaning(d);
    CanonicalMeaning(e);
    var m, n := MembersMeaning(Style.Ledger, CanonicalMembers(d)), MembersMeaning(Style.Ledger, CanonicalMembers(e));
    assert m["seq"] == n["seq"] && m["merchantId"] == n["merchantId"] && m["type"] == n["type"];
    assert m["occurredAt"] == n["occurredAt"] && m["detail"] == n["detail"];
  }

  lemma CanonicalMembersClean(d: EntryData)
    requires CleanData(d)
    ensures NoUndefined(CanonicalMembers(d))
    ensures forall i :: 0 <= i < |CanonicalMembers(d)| ==> Clean(CanonicalMembers(d)[i].value)
  {
  }

  lemma SameDataSameText(d: EntryData, e: EntryData)
    requires CleanData(d) && CleanData(e) && SameData(d, e)
    ensures Canonicalize(d) == Canonicalize(e)
  {
    SameMeaningSameText(Style.Ledger, Obj(d.detail), Obj(e.detail));
    SameValuesSameMembers(Style.Ledger, CanonicalMembers(d), CanonicalMembers(e));
  }

  lemma SameTextSameData(d: EntryData, e: EntryData)
    requires CleanData(d) && CleanData(e) && Canonicalize(d) == Canonicalize(e)
    ensures SameData(d, e)
  {
    CanonicalMembersClean(d);
    CanonicalMembersClean(e);
    BracedMembers(CanonicalMembers(d), CanonicalMembers(e));
    SameMeaningSameData(d, e);
  }

  /** The canonical text identifies an entry's data. */
  lemma CanonicalIdentifies(d: EntryData, e: EntryData)
    requires CleanData(d) && CleanData(e)
    ensures Canonicalize(d) == Canonicalize(e) <==> SameData(d, e)
  {
    if SameData(d, e) { SameDataSameText(d, e); }
    if Canonicalize(d) == Canonicalize(e) { SameTextSameData(d, e); }
  }

  lemma PayloadIdentifies(d: EntryData, p: string, e: EntryData, q: string)
    requires CleanData(d) && CleanData(e) && |p| == |q|
    ensures Payload(d, p) == Payload(e, q) <==> p == q && SameData(d, e)
  {
    CanonicalIdentifies(d, e);
    assert Payload(d, p)[..|p|] == p && Payload(e, q)[..|q|] == q;
    assert Payload(d, p)[|p|..] == Canonicalize(d) && Payload(e, q)[|q|..] == Canonicalize(e);
  }

  // ----- the chain -----

  /** The hash of the last entry, genesis for an empty chain. */
  function Head(entries: seq<LedgerEntry>): string {
    if entries == [] then GENESIS_HASH else entries[|entries| - 1].hash
  }

  predicate EntryOk(link: Linker, entries: seq<LedgerEntry>, i: nat)
    requires i < |entries|
  {
    var e := entries[i];
    && e.data.seqNo == i
    && e.prevHash == Head(entries[..i])
    && e.hash == link(e.data, e.prevHash)
  }

  ghost predicate Chained(link: Linker, entries: seq<LedgerEntry>) {
    forall i :: 0 <= i < |entries| ==> EntryOk(link, entries, i)
  }

  datatype ChainVerification = Valid | BrokenAt(index: nat)

  ghost predicate FirstBroken(link: Linker, entries: seq<LedgerEntry>, i: nat) {
    && i < |entries| && !EntryOk(link, entries, i)
    && forall k :: 0 <= k < i ==> EntryOk(link, entries, k)
  }

  /** Reports the first entry that breaks the chain, or that none does. */
  method VerifyChain(link: Linker, entries: seq<LedgerEntry>) returns (v: ChainVerification)
    ensures v.Valid? <==> Chained(link, entries)
    ensures v.BrokenAt? ==> FirstBroken(link, entries, v.index)
  {
    var prevHash := GENESIS_HASH;
    for i := 0 to |entries|
      invariant prevHash == Head(entries[..i])
      invariant forall k :: 0 <= k < i ==> EntryOk(link, entries, k)
    {
      var e := entries[i];
      ghost var ok := EntryOk(link, entries, i);
      if e.data.seqNo != i { return BrokenAt(i); }
      if e.prevHash != prevHash { return BrokenAt(i); }
      var recomputed := link(e.data, e.prevHash);
      if recomputed != e.hash { return BrokenAt(i); }
      prevHash := e.hash;
    }
    v := Valid;
  }

  function EntryFor(link: Linker, input: Input, n: int, prevHash: string): LedgerEntry {
    var d := EntryData(n, input.merchantId, input.kind, input.occurredAt, input.detail);
    LedgerEntry(d, prevHash, link(d, prevHash))
  }

  function NextEntry(link: Linker, entries: seq<LedgerEntry>, input: Input): LedgerEntry {
    EntryFor(link, input, |entries|, Head(entries))
  }

  lemma AppendKeepsChained(link: Linker, entries: seq<LedgerEntry>, input: Input)
    requires Chained(link, entries)
    ensures Chained(link, entries + [NextEntry(link, entries, input)])
  {
    var after := entries + [NextEntry(link, entries, input)];
    forall i | 0 <= i < |after| ensures EntryOk(link, after, i) {
      assert after[..i] == entries[..i];
      if i < |entries| { assert EntryOk(link, entries, i); } else { assert entries[..i] == entries; }
    }
  }

  class HashChainedLedger {
    const link: Linker
    var entries: seq<LedgerEntry>

    constructor (link: Linker)
      ensures this.link == link && entries == [] && Chained(link, entries)
    {
      this.link := link;
      entries := [];
    }

    method Append(input: Input) returns (entry: LedgerEntry)
      requires Chained(link, entries)
      modifies this
      ensures entries == old(entries) + [entry] && Chained(link, entries)
      ensures entry.data == EntryData(|old(entries)|, input.merchantId, input.kind, input.occurredAt, input.detail)
    {
      entry := NextEntry(link, entries, input);
      ghost var before := entries;
      entries := entries + [entry];
      AppendKeepsChained(link, before, input);
    }
  }

  // ----- the head commits to the whole history -----

  ghost predicate CleanEntries(entries: seq<LedgerEntry>) {
    forall i :: 0 <= i < |entries| ==> CleanData(entries[i].data)
  }

  ghost predicate SameEntry(e: LedgerEntry, f: LedgerEntry) {
    SameData(e.data, f.data) && e.prevHash == f.prevHash && e.hash == f.hash
  }

  ghost predicate SameHistory(es: seq<LedgerEntry>, fs: seq<LedgerEntry>) {
    |es| == |fs| && forall i :: 0 <= i < |es| ==> SameEntry(es[i], fs[i])
  }

  function PayloadAt(entries: seq<LedgerEntry>, i: nat): string
    requires i < |entries|
  {
    Payload(entries[i].data, entries[i].prevHash)
  }

  /** Two different texts hashed by these two chains have the same digest. */
  ghost predicate Collides(h: Digest, es: seq<LedgerEntry>, fs: seq<LedgerEntry>) {
    exists i, j :: 0 <= i < |es| && 0 <= j < |fs| && PayloadAt(es, i) != PayloadAt(fs, j)
                   && h(PayloadAt(es, i)) == h(PayloadAt(fs, j))
  }

  /** A text hashed by the chain has the genesis digest. */
  ghost predicate HitsGenesis(h: Digest, es: seq<LedgerEntry>) {
    exists i :: 0 <= i < |es| && h(PayloadAt(es, i)) == GENESIS_HASH
  }

  lemma ChainedPrefix(h: Digest, es: seq<LedgerEntry>, n: nat)
    requires Chained(HashEntry(h), es) && n <= |es|
    ensures Chained(HashEntry(h), es[..n])
  {
    forall i | 0 <= i < n ensures EntryOk(HashEntry(h), es[..n], i) {
      assert EntryOk(HashEntry(h), es, i) && es[..n][..i] == es[..i];
    }
  }

  lemma PrevHashLength(h: Digest, es: seq<LedgerEntry>, i: nat)
    requires FixedLength(h) && Chained(HashEntry(h), es) && i < |es|
    ensures |es[i].prevHash| == |GENESIS_HASH|
  {
    assert EntryOk(HashEntry(h), es, i);
    if i > 0 {
      assert EntryOk(HashEntry(h), es, i - 1) && es[..i][i - 1] == es[i - 1];
      assert es[i].prevHash == h(PayloadAt(es, i - 1));
    }
  }

  lemma HistoryExtends(es: seq<LedgerEntry>, fs: seq<LedgerEntry>)
    requires es != [] && fs != [] && SameHistory(es[..|es| - 1], fs[..|fs| - 1])
    requires SameEntry(es[|es| - 1], fs[|fs| - 1])
    ensures SameHistory(es, fs)
  {
    forall i | 0 <= i < |es| ensures SameEntry(es[i], fs[i]) {
      if i < |es| - 1 { assert SameEntry(es[..|es| - 1][i], fs[..|fs| - 1][i]); }
    }
  }

  lemma PrefixCollides(h: Digest, es: seq<LedgerEntry>, fs: seq<LedgerEntry>)
    requires es != [] && fs != [] && Collides(h, es[..|es| - 1], fs[..|fs| - 1])
    ensures Collides(h, es, fs)
  {
    var p, q := es[..|es| - 1], fs[..|fs| - 1];
    var i, j :| 0 <= i < |p| && 0 <= j < |q| && PayloadAt(p, i) != PayloadAt(q, j)
           && h(PayloadAt(p, i)) == h(PayloadAt(q, j));
    assert PayloadAt(es, i) == PayloadAt(p, i) && PayloadAt(fs, j) == PayloadAt(q, j);
  }

  lemma PrefixHitsGenesis(h: Digest, es: seq<LedgerEntry>)
    requires es != []
    ensures HitsGenesis(h, es[..|es| - 1]) ==> HitsGenesis(h, es)
  {
    var p := es[..|es| - 1];
    if HitsGenesis(h, p) {
      var i :| 0 <= i < |p| && h(PayloadAt(p, i)) == GENESIS_HASH;
      assert PayloadAt(es, i) == PayloadAt(p, i);
    }
  }

  lemma PrefixWitnesses(h: Digest, es: seq<LedgerEntry>, fs: seq<LedgerEntry>)
    requires es != [] && fs != []
    ensures Collides(h, es[..|es| - 1], fs[..|fs| - 1]) ==> Collides(h, es, fs)
    ensures HitsGenesis(h, es[..|es| - 1]) ==> HitsGenesis(h, es)
    ensures HitsGenesis(h, fs[..|fs| - 1]) ==> HitsGenesis(h, fs)
    ensures SameHistory(es[..|es| - 1], fs[..|fs| - 1]) && SameEntry(es[|es| - 1], fs[|fs| - 1]) ==> SameHistory(es, fs)
  {
    var p, q := es[..|es| - 1], fs[..|fs| - 1];
    if Collides(h, p, q) { PrefixCollides(h, es, fs); }
    PrefixHitsGenesis(h, es);
    PrefixHitsGenesis(h, fs);
    if SameHistory(p, q) && SameEntry(es[|es| - 1], fs[|fs| - 1]) { HistoryExtends(es, fs); }
  }

  /**
   * Two chains that verify and end in the same hash are the same history, unless the digest gives
   * two of the texts actually hashed one value, or one of them the genesis value.
   */
  lemma {:induction false} HeadCommits(h: Digest, es: seq<LedgerEntry>, fs: seq<LedgerEntry>)
    requires FixedLength(h) && CleanEntries(es) && CleanEntries(fs)
    requires Chained(HashEntry(h), es) && Chained(HashEntry(h), fs) && Head(es) == Head(fs)
    ensures SameHistory(es, fs) || Collides(h, es, fs) || HitsGenesis(h, es) || HitsGenesis(h, fs)
  {
    var n, m := |es|, |fs|;
    if n == 0 || m == 0 {
      if n > 0 { assert EntryOk(HashEntry(h), es, n - 1) && h(PayloadAt(es, n - 1)) == GENESIS_HASH; }
      if m > 0 { assert EntryOk(HashEntry(h), fs, m - 1) && h(PayloadAt(fs, m - 1)) == GENESIS_HASH; }
    } else {
      assert EntryOk(HashEntry(h), es, n - 1) && EntryOk(HashEntry(h), fs, m - 1);
      assert h(PayloadAt(es, n - 1)) == h(PayloadAt(fs, m - 1));
      if PayloadAt(es, n - 1) == PayloadAt(fs, m - 1) {
        PrevHashLength(h, es, n - 1);
        PrevHashLength(h, fs, m - 1);
        PayloadIdentifies(es[n - 1].data, es[n - 1].prevHash, fs[m - 1].data, fs[m - 1].prevHash);
        ChainedPrefix(h, es, n - 1);
        ChainedPrefix(h, fs, m - 1);
        HeadCommits(h, es[..n - 1], fs[..m - 1]);
        PrefixWitnesses(h, es, fs);
      }
    }
  }

  /** Altering one entry's data alone goes unreported exactly when it means the same, or collides. */
  lemma AlteredDataReported(h: Digest, es: seq<LedgerEntry>, i: nat, d: EntryData)
    requires Chained(HashEntry(h), es) && CleanEntries(es) && i < |es| && CleanData(d)
    ensures var x, y := Payload(d, es[i].prevHash), PayloadAt(es, i);
            var altered := es[i := es[i].(data := d)];
            if SameData(d, es[i].data) || (d.seqNo == i && x != y && h(x) == h(y))
            then Chained(HashEntry(h), altered) else FirstBroken(HashEntry(h), altered, i)
  {
    var altered := es[i := es[i].(data := d)];
    PayloadIdentifies(d, es[i].prevHash, es[i].data, es[i].prevHash);
    assert EntryOk(HashEntry(h), es, i);
    forall k | 0 <= k < |es| && k != i ensures EntryOk(HashEntry(h), altered, k) {
      assert EntryOk(HashEntry(h), es, k);
      if k > 0 { assert altered[..k][k - 1].hash == es[..k][k - 1].hash; }
    }
    assert altered[..i] == es[..i];
  }

  /**
   * Rehashing the altered entry to fit moves the report to the next entry, unless there is no next
   * entry or the new hash is the old one.
   */
  lemma RehashedDataReported(h: Digest, es: seq<LedgerEntry>, i: nat, d: EntryData)
    requires Chained(HashEntry(h), es) && i < |es| && d.seqNo == i
    ensures var x, y := Payload(d, es[i].prevHash), PayloadAt(es, i);
            var altered := es[i := LedgerEntry(d, es[i].prevHash, h(x))];
            if i + 1 == |es| || h(x) == h(y)
            then Chained(HashEntry(h), altered) else FirstBroken(HashEntry(h), altered, i + 1)
  {
    var altered := es[i := LedgerEntry(d, es[i].prevHash, h(Payload(d, es[i].prevHash)))];
    forall k | 0 <= k < |es| && k != i + 1 ensures EntryOk(HashEntry(h), altered, k) {
      assert EntryOk(HashEntry(h), es, k);
      if k > 0 { assert altered[..k][k - 1].hash == altered[k - 1].hash && es[..k][k - 1].hash == es[k - 1].hash; }
    }
    assert EntryOk(HashEntry(h), es, i);
    if i + 1 < |es| {
      assert EntryOk(HashEntry(h), es, i + 1);
      assert es[..i + 1][i] == es[i] && altered[..i + 1][i] == altered[i];
    }
  }

  // ----- storage -----

  /** An entry as the database gives it back: its detail has been through JSON. */
  function StoredEntry(e: LedgerEntry): LedgerEntry {
    e.(data := e.data.(detail := StoredMembers(e.data.detail)))
  }

  function StoredEntries(es: seq<LedgerEntry>): (r: seq<LedgerEntry>) {
    seq(|es|, i requires 0 <= i < |es| => StoredEntry(es[i]))
  }

  lemma StoredPayload(d: EntryData, prevHash: string)
    requires CleanData(d)
    ensures Payload(d.(detail := StoredMembers(d.detail)), prevHash) == Payload(d, prevHash)
  {
    StoredMembersClean(d.detail);
    StoredMembersMeaning(Style.Ledger, d.detail);
    CanonicalIdentifies(d.(detail := StoredMembers(d.detail)), d);
  }

  lemma StoredHead(es: seq<LedgerEntry>, i: nat)
    requires i <= |es|
    ensures Head(StoredEntries(es)[..i]) == Head(es[..i])
  {
    if i > 0 { assert StoredEntries(es)[..i][i - 1].hash == es[..i][i - 1].hash; }
  }

  lemma StoredEntryOk(h: Digest, es: seq<LedgerEntry>, i: nat)
    requires CleanEntries(es) && i < |es|
    ensures EntryOk(HashEntry(h), StoredEntries(es), i) <==> EntryOk(HashEntry(h), es, i)
  {
    StoredPayload(es[i].data, es[i].prevHash);
    StoredHead(es, i);
  }

  /** Storing the details as JSON changes no verdict, whatever undefined values they held. */
  lemma StoringKeepsChained(h: Digest, es: seq<LedgerEntry>)
    requires CleanEntries(es)
    ensures Chained(HashEntry(h), StoredEntries(es)) <==> Chained(HashEntry(h), es)
  {
    var after := StoredEntries(es);
    forall i | 0 <= i < |es| ensures EntryOk(HashEntry(h), after, i) <==> EntryOk(HashEntry(h), es, i) {
      StoredEntryOk(h, es, i);
    }
  }
}
