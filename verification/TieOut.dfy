/** The tie-out of claimed recoveries against the processor's own payout export. */
module TieOut {
  import opened Permutations
  import opened Sums
  import opened Wrappers

  datatype SettledOutcome = SettledOutcome(recovered: bool, amount: real, processorTxnId: Option<string>,
                                           invoiceId: string)

  datatype PayoutRow = PayoutRow(key: string, settledAmount: real)

  datatype ReconLine = ReconLine(key: string, ours: real, theirs: Option<real>, delta: real, isMatch: bool)

  datatype ReconResult = ReconResult(
    lines: seq<ReconLine>, oursTotal: real, theirsTotal: real, matched: nat, mismatched: nat,
    missingInPayout: nat, extraInPayout: nat, tiesOut: bool)

  function PayoutKey(p: PayoutRow): string { p.key }

  function Settled(p: PayoutRow): real { p.settledAmount }

  function ClaimKey(o: SettledOutcome): string {
    if o.processorTxnId.Some? then o.processorTxnId.value else o.invoiceId
  }

  function Claimed(o: SettledOutcome): real { o.amount }

  function IsClaim(o: SettledOutcome): bool { o.recovered && o.amount > 0.0 }

  function Claims(recovered: seq<SettledOutcome>): seq<SettledOutcome> { Where(recovered, IsClaim) }

  function Abs(x: real): real { if x < 0.0 then -x else x }

  // ----- what each key is -----

  function Ours(claims: seq<SettledOutcome>, k: string): real { KeyTotal(claims, ClaimKey, Claimed, k) }

  function Theirs(payout: seq<PayoutRow>, k: string): Option<real> {
    if k in Distinct(payout, PayoutKey) then Some(KeyTotal(payout, PayoutKey, Settled, k)) else None
  }

  function LineOf(k: string, ours: real, theirs: Option<real>, tolerance: real): ReconLine {
    var delta := ours - if theirs.Some? then theirs.value else 0.0;
    ReconLine(k, ours, theirs, delta, theirs.Some? && Abs(delta) <= tolerance)
  }

  function LineFor(claims: seq<SettledOutcome>, payout: seq<PayoutRow>, tolerance: real): string -> ReconLine {
    k => LineOf(k, Ours(claims, k), Theirs(payout, k), tolerance)
  }

  function IsMatched(l: ReconLine): bool { l.isMatch }

  function IsMismatched(l: ReconLine): bool { l.theirs.Some? && !l.isMatch }

  function IsMissing(l: ReconLine): bool { l.theirs.None? }

  function OursOf(l: ReconLine): real { l.ours }

  function TheirsOf(l: ReconLine): real { if l.theirs.Some? then l.theirs.value else 0.0 }

  function Count<T>(rows: seq<T>, p: T -> bool): nat { |Where(rows, p)| }

  function Lines(claims: seq<SettledOutcome>, payout: seq<PayoutRow>, tolerance: real): seq<ReconLine> {
    Mapped(Distinct(claims, ClaimKey), LineFor(claims, payout, tolerance))
  }

  function NotClaimed(claims: seq<SettledOutcome>): string -> bool { k => k !in Distinct(claims, ClaimKey) }

  /** The whole result, line by line and counter by counter. */
  ghost predicate Reconciles(claims: seq<SettledOutcome>, payout: seq<PayoutRow>, tolerance: real, r: ReconResult) {
    && r.lines == Lines(claims, payout, tolerance)
    && r.oursTotal == Total(r.lines, OursOf) && r.theirsTotal == Total(r.lines, TheirsOf)
    && r.matched == Count(r.lines, IsMatched) && r.mismatched == Count(r.lines, IsMismatched)
    && r.missingInPayout == Count(r.lines, IsMissing)
    && r.extraInPayout == Count(Distinct(payout, PayoutKey), NotClaimed(claims))
    && (r.tiesOut <==> r.mismatched == 0 && r.missingInPayout == 0 && Abs(r.oursTotal - r.theirsTotal) <= tolerance)
  }

  lemma CountNext<T>(rows: seq<T>, x: T, p: T -> bool)
    ensures Count(rows + [x], p) == Count(rows, p) + if p(x) then 1 else 0
  {
    assert (rows + [x])[..|rows|] == rows;
  }

  datatype Tally = Tally(ours: real, theirs: real, matched: nat, mismatched: nat, missing: nat)

  function TallyOf(lines: seq<ReconLine>): Tally {
    Tally(Total(lines, OursOf), Total(lines, TheirsOf), Count(lines, IsMatched), Count(lines, IsMismatched),
          Count(lines, IsMissing))
  }

  function TallyPlus(t: Tally, l: ReconLine): Tally {
    Tally(t.ours + l.ours, t.theirs + TheirsOf(l), t.matched + (if IsMatched(l) then 1 else 0),
          t.mismatched + (if IsMismatched(l) then 1 else 0), t.missing + if IsMissing(l) then 1 else 0)
  }

  lemma TallyNext(lines: seq<ReconLine>, l: ReconLine)
    ensures TallyOf(lines + [l]) == TallyPlus(TallyOf(lines), l)
  {
    TotalAppend(lines, l, OursOf);
    TotalAppend(lines, l, TheirsOf);
    CountNext(lines, l, IsMatched);
    CountNext(lines, l, IsMismatched);
    CountNext(lines, l, IsMissing);
  }

  /** Counts one line, and adds its amounts. */
  method AddLine(t: Tally, l: ReconLine) returns (next: Tally)
    requires l.isMatch ==> l.theirs.Some?
    ensures next == TallyPlus(t, l)
  {
    var oursTotal, theirsTotal, matched, mismatched, missing := t.ours, t.theirs, t.matched, t.mismatched, t.missing;
    if l.theirs.None? {
      missing := missing + 1;
    } else if l.isMatch {
      matched := matched + 1;
    } else {
      mismatched := mismatched + 1;
    }
    oursTotal := oursTotal + l.ours;
    if l.theirs.Some? { theirsTotal := theirsTotal + l.theirs.value; }
    next := Tally(oursTotal, theirsTotal, matched, mismatched, missing);
  }

  lemma MappedNext<A, B>(keys: seq<A>, f: A -> B, i: nat)
    requires i < |keys|
    ensures Mapped(keys[..i + 1], f) == Mapped(keys[..i], f) + [f(keys[i])]
  {
    TakeNext(keys, i);
  }

  /** One pass over the claimed keys, in order. */
  method Compare(order: seq<string>, ours: map<string, real>, theirs: map<string, real>, tolerance: real,
                 ghost lineOf: string -> ReconLine)
    returns (lines: seq<ReconLine>, t: Tally)
    requires forall k :: k in order ==>
               k in ours && LineOf(k, ours[k], if k in theirs then Some(theirs[k]) else None, tolerance) == lineOf(k)
    ensures lines == Mapped(order, lineOf) && t == TallyOf(lines)
  {
    lines, t := [], Tally(0.0, 0.0, 0, 0, 0);
    var i := 0;
    while i < |order|
      invariant i <= |order| && lines == Mapped(order[..i], lineOf) && t == TallyOf(lines)
    {
      MappedNext(order, lineOf, i);
      var k := order[i];
      var line := LineOf(k, ours[k], if k in theirs then Some(theirs[k]) else None, tolerance);
      TallyNext(lines, line);
      t := AddLine(t, line);
      lines, i := lines + [line], i + 1;
    }
    assert order[..i] == order;
  }

  method ReconcileAgainstPayout(recovered: seq<SettledOutcome>, payout: seq<PayoutRow>, tolerance: real)
    returns (r: ReconResult)
    ensures Reconciles(Claims(recovered), payout, tolerance, r)
  {
    var payoutKeys, payoutByKey := SumBy(payout, PayoutKey, Settled);
    var claims := Where(recovered, IsClaim);
    var order, oursByKey := SumBy(claims, ClaimKey, Claimed);
    var lines, t := Compare(order, oursByKey, payoutByKey, tolerance, LineFor(claims, payout, tolerance));
    var extra := Count(payoutKeys, NotClaimed(claims));
    r := ReconResult(lines, t.ours, t.theirs, t.matched, t.mismatched, t.missing, extra,
                     t.mismatched == 0 && t.missing == 0 && Abs(t.ours - t.theirs) <= tolerance);
  }

  // ----- what the result means -----

  /** Every claimed key is counted once, as matched, mismatched or missing. */
  lemma {:induction false} CountsPartition(lines: seq<ReconLine>)
    requires forall l :: l in lines ==> (l.isMatch ==> l.theirs.Some?)
    ensures Count(lines, IsMatched) + Count(lines, IsMismatched) + Count(lines, IsMissing) == |lines|
  {
    if lines != [] {
      var n := |lines| - 1;
      CountsPartition(lines[..n]);
      CountNext(lines[..n], lines[n], IsMatched);
      CountNext(lines[..n], lines[n], IsMismatched);
      CountNext(lines[..n], lines[n], IsMissing);
      assert lines == lines[..n] + [lines[n]];
    }
  }

  lemma {:induction false} MappedTotal<A>(keys: seq<A>, f: A -> ReconLine, h: ReconLine -> real, g: A -> real)
    requires forall k :: k in keys ==> h(f(k)) == g(k)
    ensures Total(Mapped(keys, f), h) == Total(keys, g)
  {
    if keys != [] {
      var n := |keys| - 1;
      MappedTotal(keys[..n], f, h, g);
      TotalAppend(Mapped(keys[..n], f), f(keys[n]), h);
    }
  }

  lemma EveryClaimCounted(claims: seq<SettledOutcome>, payout: seq<PayoutRow>, tolerance: real, r: ReconResult)
    requires Reconciles(claims, payout, tolerance, r)
    ensures r.matched + r.mismatched + r.missingInPayout == |Distinct(claims, ClaimKey)|
    ensures r.oursTotal == Total(claims, Claimed)
  {
    CountsPartition(r.lines);
    KeysAddUp(claims, ClaimKey, Claimed);
    MappedTotal(Distinct(claims, ClaimKey), LineFor(claims, payout, tolerance), OursOf,
                KeyTotals(claims, ClaimKey, Claimed));
  }

  lemma {:induction false} CountZero<T>(rows: seq<T>, p: T -> bool)
    ensures Count(rows, p) == 0 <==> forall x :: x in rows ==> !p(x)
  {
    if rows != [] {
      var n := |rows| - 1;
      CountZero(rows[..n], p);
      assert rows == rows[..n] + [rows[n]];
      CountNext(rows[..n], rows[n], p);
      if Count(rows, p) == 0 {
        forall x | x in rows ensures !p(x) {
          if x != rows[n] { assert x in rows[..n]; }
        }
      }
    }
  }

  /** A claimed key that the payout settles for exactly what is claimed. */
  ghost predicate PaidInFull(claims: seq<SettledOutcome>, payout: seq<PayoutRow>, k: string) {
    HasKey(payout, PayoutKey, k) && KeyTotal(payout, PayoutKey, Settled, k) == Ours(claims, k)
  }

  lemma LineCases(claims: seq<SettledOutcome>, payout: seq<PayoutRow>, k: string)
    ensures var l := LineFor(claims, payout, 0.0)(k);
            PaidInFull(claims, payout, k) <==> !IsMismatched(l) && !IsMissing(l)
  {
    DistinctIffPresent(payout, PayoutKey, k);
  }

  /** All lines paid in full: nothing missing, nothing off, and so equal totals. */
  lemma AllGood(lines: seq<ReconLine>)
    requires forall l :: l in lines && !IsMismatched(l) && !IsMissing(l) ==> TheirsOf(l) == OursOf(l)
    ensures Count(lines, IsMismatched) == 0 && Count(lines, IsMissing) == 0 <==>
            forall l :: l in lines ==> !IsMismatched(l) && !IsMissing(l)
    ensures (forall l :: l in lines ==> !IsMismatched(l) && !IsMissing(l)) ==>
              Total(lines, TheirsOf) == Total(lines, OursOf)
  {
    CountZero(lines, IsMismatched);
    CountZero(lines, IsMissing);
    if forall l :: l in lines ==> !IsMismatched(l) && !IsMissing(l) { TotalPointwise(lines, TheirsOf, OursOf); }
  }

  lemma MappedAll<A, B>(keys: seq<A>, f: A -> B, good: B -> bool)
    ensures (forall b :: b in Mapped(keys, f) ==> good(b)) <==> (forall k :: k in keys ==> good(f(k)))
  {
    if forall b :: b in Mapped(keys, f) ==> good(b) {
      forall k | k in keys ensures good(f(k)) {
        var i :| 0 <= i < |keys| && keys[i] == k;
        assert Mapped(keys, f)[i] in Mapped(keys, f);
      }
    }
  }

  function Good(l: ReconLine): bool { !IsMismatched(l) && !IsMissing(l) }

  /** At zero tolerance it ties out exactly when every claimed key was paid, for exactly what was claimed. */
  lemma TiesOutExactly(claims: seq<SettledOutcome>, payout: seq<PayoutRow>, r: ReconResult)
    requires Reconciles(claims, payout, 0.0, r)
    ensures r.tiesOut <==> forall k :: HasKey(claims, ClaimKey, k) ==> PaidInFull(claims, payout, k)
  {
    var keys, f := Distinct(claims, ClaimKey), LineFor(claims, payout, 0.0);
    forall k ensures k in keys <==> HasKey(claims, ClaimKey, k) { DistinctIffPresent(claims, ClaimKey, k); }
    forall k ensures PaidInFull(claims, payout, k) <==> Good(f(k)) { LineCases(claims, payout, k); }
    MappedAll(keys, f, Good);
    AllGood(r.lines);
  }

  // ----- row order -----

  lemma {:induction false} WhereMoved<T>(q: seq<T>, i: nat, keep: T -> bool)
    requires i < |q|
    ensures multiset(Where(q, keep)) ==
            multiset(Where(q[..i] + q[i + 1..], keep)) + if keep(q[i]) then multiset{q[i]} else multiset{}
  {
    var n := |q| - 1;
    if i < n {
      WhereMoved(q[..n], i, keep);
      WithoutKeepsLast(q, i);
    } else {
      assert q[..i] + q[i + 1..] == q[..n];
    }
  }

  lemma {:induction false} WherePermuted<T>(p: seq<T>, q: seq<T>, keep: T -> bool)
    requires multiset(p) == multiset(q)
    ensures multiset(Where(p, keep)) == multiset(Where(q, keep))
  {
    if p == [] {
      OnlyEmpty(q);
    } else {
      var i := LastElsewhere(p, q);
      WherePermuted(p[..|p| - 1], q[..i] + q[i + 1..], keep);
      WhereMoved(q, i, keep);
    }
  }

  function IsOne<A, B(==)>(f: A -> B, y: B): A -> real { (x: A) => if f(x) == y then 1.0 else 0.0 }

  lemma CountOfNext<B>(s: seq<B>, x: B, y: B)
    ensures multiset(s + [x])[y] == multiset(s)[y] + if x == y then 1 else 0
  {
  }

  /** How often a value occurs among the images. */
  lemma {:induction false} MappedCount<A, B>(p: seq<A>, f: A -> B, y: B)
    ensures multiset(Mapped(p, f))[y] as real == Total(p, IsOne(f, y))
  {
    if p != [] {
      var prior, last := p[..|p| - 1], p[|p| - 1];
      MappedCount(prior, f, y);
      CountOfNext(Mapped(prior, f), f(last), y);
    }
  }

  lemma ImagesAsOften<A, B>(p: seq<A>, q: seq<A>, f: A -> B, y: B)
    requires multiset(p) == multiset(q)
    ensures multiset(Mapped(p, f))[y] == multiset(Mapped(q, f))[y]
  {
    MappedCount(p, f, y);
    MappedCount(q, f, y);
    TotalPermuted(p, q, IsOne(f, y));
  }

  lemma SameCounts<B(!new)>(a: multiset<B>, b: multiset<B>)
    requires forall y :: a[y] == b[y]
    ensures a == b
  {
  }

  lemma MappedPermuted<A, B(!new)>(p: seq<A>, q: seq<A>, f: A -> B)
    requires multiset(p) == multiset(q)
    ensures multiset(Mapped(p, f)) == multiset(Mapped(q, f))
  {
    var a, b := multiset(Mapped(p, f)), multiset(Mapped(q, f));
    forall y ensures a[y] == b[y] { ImagesAsOften(p, q, f, y); }
    SameCounts(a, b);
  }

  lemma SameMembers<T>(p: seq<T>, q: seq<T>, x: T)
    requires multiset(p) == multiset(q)
    ensures x in p <==> x in q
  {
    assert x in p <==> x in multiset(p);
    assert x in q <==> x in multiset(q);
  }

  lemma SameLine(claims: seq<SettledOutcome>, claims': seq<SettledOutcome>, payout: seq<PayoutRow>,
                 payout': seq<PayoutRow>, tolerance: real, k: string)
    requires multiset(claims) == multiset(claims') && multiset(payout) == multiset(payout')
    ensures LineFor(claims, payout, tolerance)(k) == LineFor(claims', payout', tolerance)(k)
  {
    KeyTotalPermuted(claims, claims', ClaimKey, Claimed, k);
    KeyTotalPermuted(payout, payout', PayoutKey, Settled, k);
    DistinctPermuted(payout, payout', PayoutKey);
    SameMembers(Distinct(payout, PayoutKey), Distinct(payout', PayoutKey), k);
  }

  lemma SameLines(claims: seq<SettledOutcome>, claims': seq<SettledOutcome>, payout: seq<PayoutRow>,
                  payout': seq<PayoutRow>, tolerance: real)
    requires multiset(claims) == multiset(claims') && multiset(payout) == multiset(payout')
    ensures multiset(Lines(claims, payout, tolerance)) == multiset(Lines(claims', payout', tolerance))
  {
    DistinctPermuted(claims, claims', ClaimKey);
    MappedPermuted(Distinct(claims, ClaimKey), Distinct(claims', ClaimKey), LineFor(claims, payout, tolerance));
    forall k ensures LineFor(claims, payout, tolerance)(k) == LineFor(claims', payout', tolerance)(k) {
      SameLine(claims, claims', payout, payout', tolerance, k);
    }
    assert Mapped(Distinct(claims', ClaimKey), LineFor(claims, payout, tolerance))
           == Lines(claims', payout', tolerance);
  }

  lemma SameCount<T>(p: seq<T>, q: seq<T>, keep: T -> bool)
    requires multiset(p) == multiset(q)
    ensures Count(p, keep) == Count(q, keep)
  {
    WherePermuted(p, q, keep);
    SameLength(Where(p, keep), Where(q, keep));
  }

  lemma SameFigures(p: seq<ReconLine>, q: seq<ReconLine>)
    requires multiset(p) == multiset(q)
    ensures Total(p, OursOf) == Total(q, OursOf) && Total(p, TheirsOf) == Total(q, TheirsOf)
    ensures Count(p, IsMatched) == Count(q, IsMatched) && Count(p, IsMismatched) == Count(q, IsMismatched)
    ensures Count(p, IsMissing) == Count(q, IsMissing)
  {
    TotalPermuted(p, q, OursOf);
    TotalPermuted(p, q, TheirsOf);
    SameCount(p, q, IsMatched);
    SameCount(p, q, IsMismatched);
    SameCount(p, q, IsMissing);
  }

  lemma {:induction false} WherePointwise<T>(rows: seq<T>, p: T -> bool, q: T -> bool)
    requires forall x :: x in rows ==> p(x) == q(x)
    ensures Where(rows, p) == Where(rows, q)
  {
    if rows != [] { WherePointwise(rows[..|rows| - 1], p, q); }
  }

  lemma SameExtra(claims: seq<SettledOutcome>, claims': seq<SettledOutcome>, payout: seq<PayoutRow>,
                  payout': seq<PayoutRow>)
    requires multiset(claims) == multiset(claims') && multiset(payout) == multiset(payout')
    ensures Count(Distinct(payout, PayoutKey), NotClaimed(claims))
            == Count(Distinct(payout', PayoutKey), NotClaimed(claims'))
  {
    DistinctPermuted(payout, payout', PayoutKey);
    SameCount(Distinct(payout, PayoutKey), Distinct(payout', PayoutKey), NotClaimed(claims));
    DistinctPermuted(claims, claims', ClaimKey);
    forall k ensures NotClaimed(claims)(k) == NotClaimed(claims')(k) {
      SameMembers(Distinct(claims, ClaimKey), Distinct(claims', ClaimKey), k);
    }
    WherePointwise(Distinct(payout', PayoutKey), NotClaimed(claims), NotClaimed(claims'));
  }

  /** Neither the order of our rows nor of theirs changes any count, total or the verdict. */
  lemma RowOrderDoesNotMatter(recovered: seq<SettledOutcome>, recovered': seq<SettledOutcome>, payout: seq<PayoutRow>,
                              payout': seq<PayoutRow>, tolerance: real, r: ReconResult, r': ReconResult)
    requires multiset(recovered) == multiset(recovered') && multiset(payout) == multiset(payout')
    requires Reconciles(Claims(recovered), payout, tolerance, r)
            && Reconciles(Claims(recovered'), payout', tolerance, r')
    ensures r.oursTotal == r'.oursTotal && r.theirsTotal == r'.theirsTotal && r.matched == r'.matched
    ensures r.mismatched == r'.mismatched && r.missingInPayout == r'.missingInPayout
    ensures r.extraInPayout == r'.extraInPayout && r.tiesOut == r'.tiesOut
  {
    WherePermuted(recovered, recovered', IsClaim);
    SameLines(Claims(recovered), Claims(recovered'), payout, payout', tolerance);
    SameFigures(r.lines, r'.lines);
    SameExtra(Claims(recovered), Claims(recovered'), payout, payout');
  }
}
