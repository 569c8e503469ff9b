/** The rank-based AUC that decides model promotion, and the seeded train/test split. */
module Auc {
  import opened Permutations
  import opened RealArithmetic

  /** One scored sample; recovered is the label 1, not recovered the label 0. */
  datatype Prediction = Prediction(p: real, recovered: bool)

  // ----- the pairwise definition -----

  function Score(p: real, q: real): real {
    if p > q then 1.0 else if p == q then 0.5 else 0.0
  }

  /** How a positive scored p fares against all the given negatives. */
  ghost function Wins(p: real, qs: seq<real>): real {
    if qs == [] then 0.0 else Wins(p, qs[..|qs| - 1]) + Score(p, qs[|qs| - 1])
  }

  /** The Mann-Whitney statistic: every positive against every negative. */
  ghost function AllWins(ps: seq<real>, qs: seq<real>): real {
    if ps == [] then 0.0 else AllWins(ps[..|ps| - 1], qs) + Wins(ps[|ps| - 1], qs)
  }

  function ScoresOf(preds: seq<Prediction>, outcome: bool): seq<real> {
    if preds == [] then []
    else ScoresOf(preds[..|preds| - 1], outcome)
         + if preds[|preds| - 1].recovered == outcome then [preds[|preds| - 1].p] else []
  }

  function Normalized(wins: real, positives: nat, negatives: nat): real
    requires positives > 0 && negatives > 0
  {
    wins / (positives as real * negatives as real)
  }

  ghost function PairwiseAuc(preds: seq<Prediction>): real {
    var pos, neg := ScoresOf(preds, true), ScoresOf(preds, false);
    if pos == [] || neg == [] then 0.5
    else Normalized(AllWins(pos, neg), |pos|, |neg|)
  }

  // ----- counting and ranks -----

  ghost function Below(s: seq<real>, v: real): nat {
    if s == [] then 0 else Below(s[..|s| - 1], v) + if s[|s| - 1] < v then 1 else 0
  }

  ghost function Ties(s: seq<real>, v: real): nat {
    if s == [] then 0 else Ties(s[..|s| - 1], v) + if s[|s| - 1] == v then 1 else 0
  }

  /** The average 1-based rank of the values equal to v. */
  ghost function Rank(s: seq<real>, v: real): real {
    Below(s, v) as real + (Ties(s, v) as real + 1.0) / 2.0
  }

  ghost function RankSum(ps: seq<real>, all: seq<real>): real {
    if ps == [] then 0.0 else RankSum(ps[..|ps| - 1], all) + Rank(all, ps[|ps| - 1])
  }

  predicate Ascending(s: seq<real>) {
    forall i, j :: 0 <= i < j < |s| ==> s[i] <= s[j]
  }

  function Inserted(x: real, s: seq<real>): (r: seq<real>)
    ensures |r| == |s| + 1 && (forall y :: y in r <==> y == x || y in s)
  {
    if s == [] || x <= s[0] then [x] + s
    else
      assert forall y :: y in s <==> y == s[0] || y in s[1..];
      [s[0]] + Inserted(x, s[1..])
  }

  function Sorted(s: seq<real>): (r: seq<real>)
    ensures |r| == |s|
  {
    if s == [] then [] else Inserted(s[|s| - 1], Sorted(s[..|s| - 1]))
  }

  lemma {:induction false} InsertedAscending(x: real, s: seq<real>)
    requires Ascending(s)
    ensures Ascending(Inserted(x, s))
  {
    if s != [] && x > s[0] {
      InsertedAscending(x, s[1..]);
      var rest := Inserted(x, s[1..]);
      forall j | 0 <= j < |rest| ensures s[0] <= rest[j] {
        assert rest[j] in rest;
      }
    }
  }

  lemma {:induction false} SortedAscending(s: seq<real>)
    ensures Ascending(Sorted(s))
  {
    if s != [] {
      SortedAscending(s[..|s| - 1]);
      InsertedAscending(s[|s| - 1], Sorted(s[..|s| - 1]));
    }
  }

  lemma {:induction false} CountsOfConcat(s: seq<real>, t: seq<real>, v: real)
    ensures Below(s + t, v) == Below(s, v) + Below(t, v)
    ensures Ties(s + t, v) == Ties(s, v) + Ties(t, v)
  {
    if t == [] {
      assert s + t == s;
    } else {
      CountsOfConcat(s, t[..|t| - 1], v);
      assert (s + t)[..|s + t| - 1] == s + t[..|t| - 1];
    }
  }

  lemma CountsOfOne(x: real, v: real)
    ensures Below([x], v) == if x < v then 1 else 0
    ensures Ties([x], v) == if x == v then 1 else 0
  {
    assert [x][..0] == [];
  }

  lemma {:induction false} CountsOfInserted(x: real, s: seq<real>, v: real)
    ensures Below(Inserted(x, s), v) == Below(s, v) + if x < v then 1 else 0
    ensures Ties(Inserted(x, s), v) == Ties(s, v) + if x == v then 1 else 0
  {
    CountsOfOne(x, v);
    if s == [] || x <= s[0] {
      CountsOfConcat([x], s, v);
    } else {
      CountsOfInserted(x, s[1..], v);
      CountsOfConcat([s[0]], Inserted(x, s[1..]), v);
      CountsOfConcat([s[0]], s[1..], v);
      assert s == [s[0]] + s[1..];
    }
  }

  lemma {:induction false} CountsOfSorted(s: seq<real>, v: real)
    ensures Below(Sorted(s), v) == Below(s, v) && Ties(Sorted(s), v) == Ties(s, v)
  {
    if s != [] {
      CountsOfSorted(s[..|s| - 1], v);
      CountsOfInserted(s[|s| - 1], Sorted(s[..|s| - 1]), v);
    }
  }

  lemma {:induction false} UniformCounts(s: seq<real>, v: real)
    ensures (forall k :: 0 <= k < |s| ==> s[k] < v) ==> Below(s, v) == |s| && Ties(s, v) == 0
    ensures (forall k :: 0 <= k < |s| ==> s[k] == v) ==> Below(s, v) == 0 && Ties(s, v) == |s|
    ensures (forall k :: 0 <= k < |s| ==> s[k] > v) ==> Below(s, v) == 0 && Ties(s, v) == 0
  {
    if s != [] { UniformCounts(s[..|s| - 1], v); }
  }

  lemma CountsWithin(s: seq<real>, i: nat, j: nat)
    requires i < j <= |s| && forall k :: i <= k < j ==> s[k] == s[i]
    ensures Below(s[i..j], s[i]) == 0 && Ties(s[i..j], s[i]) == j - i
  {
    var block := s[i..j];
    forall k | 0 <= k < |block| ensures block[k] == s[i] { assert block[k] == s[i + k]; }
    UniformCounts(block, s[i]);
  }

  lemma CountsBefore(s: seq<real>, i: nat)
    requires Ascending(s) && i < |s| && forall k :: 0 <= k < i ==> s[k] != s[i]
    ensures Below(s[..i], s[i]) == i && Ties(s[..i], s[i]) == 0
  {
    var block := s[..i];
    forall k | 0 <= k < i ensures block[k] < s[i] { assert block[k] == s[k] && s[k] <= s[i]; }
    UniformCounts(block, s[i]);
  }

  lemma CountsAfter(s: seq<real>, i: nat, j: nat)
    requires Ascending(s) && i < j <= |s| && (j < |s| ==> s[j] != s[i])
    ensures Below(s[j..], s[i]) == 0 && Ties(s[j..], s[i]) == 0
  {
    forall k | 0 <= k < |s[j..]| ensures s[j..][k] > s[i] {
      assert s[i] <= s[j] && (k > 0 ==> s[j] <= s[j + k]);
    }
    UniformCounts(s[j..], s[i]);
  }

  lemma Rejoined(s: seq<real>, i: nat, j: nat)
    requires i <= j <= |s|
    ensures s == (s[..i] + s[i..j]) + s[j..]
  {
  }

  lemma ThreeParts(s: seq<real>, i: nat, j: nat, v: real)
    requires i <= j <= |s|
    ensures Below(s, v) == Below(s[..i], v) + Below(s[i..j], v) + Below(s[j..], v)
    ensures Ties(s, v) == Ties(s[..i], v) + Ties(s[i..j], v) + Ties(s[j..], v)
  {
    var a, b, c := s[..i], s[i..j], s[j..];
    Rejoined(s, i, j);
    CountsOfConcat(a, b, v);
    CountsOfConcat(a + b, c, v);
  }

  /** A tie block i .. j-1 of an ascending sequence has i values below it and j-i equal ones. */
  lemma BlockCounts(s: seq<real>, i: nat, j: nat)
    requires Ascending(s) && i < j <= |s|
    requires forall k :: 0 <= k < i ==> s[k] != s[i]
    requires forall k :: i <= k < j ==> s[k] == s[i]
    requires j < |s| ==> s[j] != s[i]
    ensures Below(s, s[i]) == i && Ties(s, s[i]) == j - i
  {
    ThreeParts(s, i, j, s[i]);
    CountsBefore(s, i);
    CountsWithin(s, i, j);
    CountsAfter(s, i, j);
  }

  // ----- the algorithm -----

  lemma AverageRank(i: nat, j: nat)
    requires i < j
    ensures (i as real + 1.0 + j as real) / 2.0 == i as real + ((j - i) as real + 1.0) / 2.0
  {
  }

  method RanksByValue(all: seq<real>) returns (rankOf: map<real, real>)
    requires Ascending(all)
    ensures forall v :: v in all <==> v in rankOf
    ensures forall v :: v in rankOf ==> rankOf[v] == Rank(all, v)
  {
    rankOf := map[];
    var i := 0;
    while i < |all|
      invariant i <= |all|
      invariant 0 < i < |all| ==> all[i - 1] != all[i]
      invariant forall v :: v in rankOf <==> v in all[..i]
      invariant forall v :: v in rankOf ==> rankOf[v] == Rank(all, v)
    {
      var j := i;
      while j < |all| && all[j] == all[i]
        invariant i <= j <= |all|
        invariant forall k :: i <= k < j ==> all[k] == all[i]
      {
        j := j + 1;
      }
      var avgRank := (i as real + 1.0 + j as real) / 2.0;
      forall k | 0 <= k < i ensures all[k] != all[i] {
        assert all[k] <= all[i - 1];
      }
      BlockCounts(all, i, j);
      AverageRank(i, j);
      assert forall v :: v in all[..j] <==> v in all[..i] || v == all[i] by {
        assert all[..j] == all[..i] + all[i..j] && all[i..j][0] == all[i];
      }
      rankOf := rankOf[all[i] := avgRank];
      i := j;
    }
    assert all[..|all|] == all;
  }

  ghost predicate AreScores(scores: seq<real>, preds: seq<Prediction>) {
    |scores| == |preds| && forall k :: 0 <= k < |preds| ==> scores[k] == preds[k].p
  }

  method SumOfRanks(pos: seq<real>, all: seq<real>, rankOf: map<real, real>) returns (sum: real)
    requires forall k :: 0 <= k < |pos| ==> pos[k] in rankOf && rankOf[pos[k]] == Rank(all, pos[k])
    ensures sum == RankSum(pos, all)
  {
    sum := 0.0;
    for k := 0 to |pos|
      invariant sum == RankSum(pos[..k], all)
    {
      assert pos[..k + 1][..k] == pos[..k];
      sum := sum + rankOf[pos[k]];
    }
    assert pos[..|pos|] == pos;
  }

  lemma {:induction false} SortedMembers(s: seq<real>, v: real)
    ensures v in Sorted(s) <==> v in s
  {
    if s != [] {
      SortedMembers(s[..|s| - 1], v);
      assert v in s <==> v == s[|s| - 1] || v in s[..|s| - 1];
    }
  }

  lemma {:induction false} ScoresMembers(preds: seq<Prediction>, outcome: bool, v: real)
    requires v in ScoresOf(preds, outcome)
    ensures exists k :: 0 <= k < |preds| && preds[k].p == v
  {
    var n := |preds| - 1;
    if v in ScoresOf(preds[..n], outcome) {
      ScoresMembers(preds[..n], outcome, v);
      var k :| 0 <= k < n && preds[..n][k].p == v;
      assert preds[k].p == v;
    } else {
      assert preds[n].p == v;
    }
  }

  lemma PositiveIsRanked(preds: seq<Prediction>, scores: seq<real>, v: real)
    requires AreScores(scores, preds)
    requires v in ScoresOf(preds, true)
    ensures v in Sorted(scores)
  {
    ScoresMembers(preds, true, v);
    var k :| 0 <= k < |preds| && preds[k].p == v;
    assert scores[k] == v;
    SortedMembers(scores, v);
  }

  /** 1 + 2 + ... + n. */
  function Triangle(n: nat): real { (n as real * (n as real + 1.0)) / 2.0 }

  lemma {:induction false} WinsByCounting(p: real, qs: seq<real>)
    ensures Wins(p, qs) == Below(qs, p) as real + Ties(qs, p) as real / 2.0
  {
    if qs != [] { WinsByCounting(p, qs[..|qs| - 1]); }
  }

  lemma CountsOfLast(preds: seq<Prediction>, outcome: bool, v: real)
    requires preds != []
    ensures var n, x := |preds| - 1, preds[|preds| - 1];
            && Below(ScoresOf(preds, outcome), v)
               == Below(ScoresOf(preds[..n], outcome), v) + (if x.recovered == outcome && x.p < v then 1 else 0)
            && Ties(ScoresOf(preds, outcome), v)
               == Ties(ScoresOf(preds[..n], outcome), v) + (if x.recovered == outcome && x.p == v then 1 else 0)
  {
    var n, x := |preds| - 1, preds[|preds| - 1];
    if x.recovered == outcome {
      CountsOfOne(x.p, v);
      CountsOfConcat(ScoresOf(preds[..n], outcome), [x.p], v);
    } else {
      assert ScoresOf(preds, outcome) == ScoresOf(preds[..n], outcome);
    }
  }

  /** The scores split by label. */
  lemma {:induction false} CountsByLabel(preds: seq<Prediction>, scores: seq<real>, v: real)
    requires AreScores(scores, preds)
    ensures Below(scores, v) == Below(ScoresOf(preds, true), v) + Below(ScoresOf(preds, false), v)
    ensures Ties(scores, v) == Ties(ScoresOf(preds, true), v) + Ties(ScoresOf(preds, false), v)
  {
    if preds != [] {
      var n := |preds| - 1;
      assert AreScores(scores[..n], preds[..n]);
      CountsByLabel(preds[..n], scores[..n], v);
      CountsOfLast(preds, true, v);
      CountsOfLast(preds, false, v);
    }
  }

  /** A rank among all splits into wins over the positives, one half, and wins over the negatives. */
  lemma RankSplits(preds: seq<Prediction>, scores: seq<real>, p: real)
    requires AreScores(scores, preds)
    ensures Rank(Sorted(scores), p) == Wins(p, ScoresOf(preds, true)) + 0.5 + Wins(p, ScoresOf(preds, false))
  {
    CountsOfSorted(scores, p);
    CountsByLabel(preds, scores, p);
    WinsByCounting(p, ScoresOf(preds, true));
    WinsByCounting(p, ScoresOf(preds, false));
  }

  lemma {:induction false} RankSumSplits(preds: seq<Prediction>, scores: seq<real>, ps: seq<real>)
    requires AreScores(scores, preds)
    ensures RankSum(ps, Sorted(scores))
            == AllWins(ps, ScoresOf(preds, true)) + |ps| as real / 2.0 + AllWins(ps, ScoresOf(preds, false))
  {
    if ps != [] {
      RankSumSplits(preds, scores, ps[..|ps| - 1]);
      RankSplits(preds, scores, ps[|ps| - 1]);
    }
  }

  lemma {:induction false} WinsAndLosses(ps: seq<real>, x: real)
    ensures AllWins(ps, [x]) + Wins(x, ps) == |ps| as real
  {
    if ps != [] {
      WinsAndLosses(ps[..|ps| - 1], x);
      var p := ps[|ps| - 1];
      assert [x][..0] == [];
      assert Wins(p, [x]) == Score(p, x);
    }
  }

  lemma {:induction false} WinsOfConcat(p: real, q: seq<real>, q': seq<real>)
    ensures Wins(p, q + q') == Wins(p, q) + Wins(p, q')
  {
    if q' == [] {
      assert q + q' == q;
    } else {
      WinsOfConcat(p, q, q'[..|q'| - 1]);
      assert (q + q')[..|q + q'| - 1] == q + q'[..|q'| - 1];
    }
  }

  lemma {:induction false} AllWinsAgainstConcat(ps: seq<real>, q: seq<real>, q': seq<real>)
    ensures AllWins(ps, q + q') == AllWins(ps, q) + AllWins(ps, q')
  {
    if ps != [] {
      AllWinsAgainstConcat(ps[..|ps| - 1], q, q');
      WinsOfConcat(ps[|ps| - 1], q, q');
    }
  }

  lemma AllWinsOneMore(ps: seq<real>, qs: seq<real>, x: real)
    ensures AllWins(ps, qs + [x]) == AllWins(ps, qs) + AllWins(ps, [x])
  {
    AllWinsAgainstConcat(ps, qs, [x]);
  }

  function HalfSquare(n: nat): real { (n as real * n as real) / 2.0 }

  lemma SquareOfSuccessor(n: nat)
    ensures HalfSquare(n + 1) == HalfSquare(n) + n as real + 0.5
  {
    var t := n as real;
    assert (t + 1.0) * (t + 1.0) == t * t + 2.0 * t + 1.0;
  }

  /** Among themselves, n values win half of the n * n comparisons. */
  lemma {:induction false} SelfWins(ps: seq<real>)
    ensures AllWins(ps, ps) == HalfSquare(|ps|)
  {
    if ps != [] {
      var n := |ps| - 1;
      var init, x := ps[..n], ps[n];
      SelfWins(init);
      assert ps == init + [x];
      AllWinsOneMore(init, init, x);
      WinsAndLosses(init, x);
      SquareOfSuccessor(n);
    }
  }

  lemma TriangleSplits(n: nat)
    ensures Triangle(n) == HalfSquare(n) + n as real / 2.0
  {
    var t := n as real;
    assert t * (t + 1.0) == t * t + t;
  }

  lemma RankSumIsAllWins(preds: seq<Prediction>, scores: seq<real>)
    requires AreScores(scores, preds)
    ensures var pos, neg := ScoresOf(preds, true), ScoresOf(preds, false);
            RankSum(pos, Sorted(scores)) - Triangle(|pos|) == AllWins(pos, neg)
  {
    var pos := ScoresOf(preds, true);
    RankSumSplits(preds, scores, pos);
    SelfWins(pos);
    TriangleSplits(|pos|);
  }

  method ComputeAuc(preds: seq<Prediction>) returns (auc: real)
    ensures auc == PairwiseAuc(preds)
  {
    var pos, neg := ScoresOf(preds, true), ScoresOf(preds, false);
    if pos == [] || neg == [] { return 0.5; }
    var scores := seq(|preds|, k requires 0 <= k < |preds| => preds[k].p);
    var all := Sorted(scores);
    SortedAscending(scores);
    var rankOf := RanksByValue(all);
    forall k | 0 <= k < |pos| ensures pos[k] in all {
      PositiveIsRanked(preds, scores, pos[k]);
    }
    var rankSumPos := SumOfRanks(pos, all, rankOf);
    var u := rankSumPos - Triangle(|pos|);
    RankSumIsAllWins(preds, scores);
    auc := Normalized(u, |pos|, |neg|);
  }

  // ----- range and order independence -----

  lemma {:induction false} WinsInRange(p: real, qs: seq<real>)
    ensures 0.0 <= Wins(p, qs) <= |qs| as real
  {
    if qs != [] { WinsInRange(p, qs[..|qs| - 1]); }
  }

  lemma OneMoreRow(n: nat, t: real)
    ensures (n + 1) as real * t == n as real * t + t
  {
  }

  lemma {:induction false} AllWinsInRange(ps: seq<real>, qs: seq<real>)
    ensures 0.0 <= AllWins(ps, qs) <= |ps| as real * |qs| as real
  {
    if ps != [] {
      AllWinsInRange(ps[..|ps| - 1], qs);
      WinsInRange(ps[|ps| - 1], qs);
      OneMoreRow(|ps| - 1, |qs| as real);
    }
  }

  lemma AucInRange(preds: seq<Prediction>)
    ensures 0.0 <= PairwiseAuc(preds) <= 1.0
  {
    var pos, neg := ScoresOf(preds, true), ScoresOf(preds, false);
    if pos != [] && neg != [] {
      AllWinsInRange(pos, neg);
      var d := |pos| as real * |neg| as real;
      assert d > 0.0;
      BetweenZeroAndOne(AllWins(pos, neg), d);
    }
  }

  lemma {:induction false} ScoresOfConcat(p: seq<Prediction>, q: seq<Prediction>, outcome: bool)
    ensures ScoresOf(p + q, outcome) == ScoresOf(p, outcome) + ScoresOf(q, outcome)
  {
    if q == [] {
      assert p + q == p;
    } else {
      ScoresOfConcat(p, q[..|q| - 1], outcome);
      assert (p + q)[..|p + q| - 1] == p + q[..|q| - 1];
    }
  }

  lemma {:induction false} AllWinsOfConcat(p: seq<real>, p': seq<real>, qs: seq<real>)
    ensures AllWins(p + p', qs) == AllWins(p, qs) + AllWins(p', qs)
  {
    if p' == [] {
      assert p + p' == p;
    } else {
      AllWinsOfConcat(p, p'[..|p'| - 1], qs);
      assert (p + p')[..|p + p'| - 1] == p + p'[..|p'| - 1];
    }
  }

  lemma OneWin(p: real, q: real)
    ensures Wins(p, [q]) == Score(p, q)
  {
    assert [q][..0] == [];
  }

  lemma OnePositive(p: real, qs: seq<real>)
    ensures AllWins([p], qs) == Wins(p, qs)
  {
    assert [p][..0] == [];
  }

  lemma {:induction false} WinsPermuted(p: real, qs: seq<real>, qs': seq<real>)
    requires multiset(qs) == multiset(qs')
    ensures Wins(p, qs) == Wins(p, qs')
  {
    if qs == [] {
      OnlyEmpty(qs');
    } else {
      var i := LastElsewhere(qs, qs');
      WinsPermuted(p, qs[..|qs| - 1], qs'[..i] + qs'[i + 1..]);
      WinsOfConcat(p, qs'[..i] + [qs'[i]], qs'[i + 1..]);
      WinsOfConcat(p, qs'[..i], [qs'[i]]);
      WinsOfConcat(p, qs'[..i], qs'[i + 1..]);
      OneWin(p, qs'[i]);
    }
  }

  lemma {:induction false} AllWinsPermuted(ps: seq<real>, ps': seq<real>, qs: seq<real>)
    requires multiset(ps) == multiset(ps')
    ensures AllWins(ps, qs) == AllWins(ps', qs)
  {
    if ps == [] {
      OnlyEmpty(ps');
    } else {
      var i := LastElsewhere(ps, ps');
      AllWinsPermuted(ps[..|ps| - 1], ps'[..i] + ps'[i + 1..], qs);
      AllWinsOfConcat(ps'[..i] + [ps'[i]], ps'[i + 1..], qs);
      AllWinsOfConcat(ps'[..i], [ps'[i]], qs);
      AllWinsOfConcat(ps'[..i], ps'[i + 1..], qs);
      OnePositive(ps'[i], qs);
    }
  }

  lemma {:induction false} AllWinsAgainstPermuted(ps: seq<real>, qs: seq<real>, qs': seq<real>)
    requires multiset(qs) == multiset(qs')
    ensures AllWins(ps, qs) == AllWins(ps, qs')
  {
    if ps != [] {
      AllWinsAgainstPermuted(ps[..|ps| - 1], qs, qs');
      WinsPermuted(ps[|ps| - 1], qs, qs');
    }
  }

  lemma {:induction false} ScoresPermuted(p: seq<Prediction>, q: seq<Prediction>, outcome: bool)
    requires multiset(p) == multiset(q)
    ensures multiset(ScoresOf(p, outcome)) == multiset(ScoresOf(q, outcome))
  {
    if p == [] {
      OnlyEmpty(q);
    } else {
      var i := LastElsewhere(p, q);
      var x := q[i];
      ScoresPermuted(p[..|p| - 1], q[..i] + q[i + 1..], outcome);
      ScoresOfConcat(q[..i] + [x], q[i + 1..], outcome);
      ScoresOfConcat(q[..i], [x], outcome);
      ScoresOfConcat(q[..i], q[i + 1..], outcome);
      assert [x][..0] == [];
    }
  }

  lemma CountsPermuted(p: seq<Prediction>, q: seq<Prediction>)
    requires multiset(p) == multiset(q)
    ensures |ScoresOf(p, true)| == |ScoresOf(q, true)| && |ScoresOf(p, false)| == |ScoresOf(q, false)|
    ensures AllWins(ScoresOf(p, true), ScoresOf(p, false)) == AllWins(ScoresOf(q, true), ScoresOf(q, false))
  {
    ScoresPermuted(p, q, true);
    ScoresPermuted(p, q, false);
    SameLength(ScoresOf(p, true), ScoresOf(q, true));
    SameLength(ScoresOf(p, false), ScoresOf(q, false));
    AllWinsPermuted(ScoresOf(p, true), ScoresOf(q, true), ScoresOf(p, false));
    AllWinsAgainstPermuted(ScoresOf(q, true), ScoresOf(p, false), ScoresOf(q, false));
  }

  /** The order of the predictions does not matter. */
  lemma AucPermuted(p: seq<Prediction>, q: seq<Prediction>)
    requires multiset(p) == multiset(q)
    ensures PairwiseAuc(p) == PairwiseAuc(q)
  {
    CountsPermuted(p, q);
  }

  // ----- the seeded split -----

  lemma ScaledBelow(draw: real, n: real)
    requires 0.0 <= draw < 1.0 && n > 0.0
    ensures 0.0 <= draw * n < n
  {
  }

  /** Math.floor(draw * n) for a draw in [0, 1). */
  function Pick(draw: real, n: int): (j: int)
    requires 0.0 <= draw < 1.0 && n > 0
    ensures 0 <= j < n
  {
    var t := n as real;
    ScaledBelow(draw, t);
    assert draw * t < t;
    (draw * t).Floor
  }

  function Swapped<T>(s: seq<T>, i: nat, j: nat): seq<T>
    requires i < |s| && j < |s|
  {
    s[i := s[j]][j := s[i]]
  }

  /** A pick for each position, within the positions not yet settled. */
  ghost predicate IsPicks(picks: seq<nat>) {
    forall i :: 0 <= i < |picks| ==> picks[i] <= i
  }

  /** Positions n-1 down to 1 settled in turn, each by swapping in its pick. */
  ghost function Shuffled<T>(s: seq<T>, picks: seq<nat>, n: nat): (r: seq<T>)
    requires n <= |s| == |picks| && IsPicks(picks)
    ensures |r| == |s|
    decreases n
  {
    if n <= 1 then s else Shuffled(Swapped(s, n - 1, picks[n - 1]), picks, n - 1)
  }

  function Picks(draws: seq<real>): (picks: seq<nat>)
    requires forall i :: 0 <= i < |draws| ==> 0.0 <= draws[i] < 1.0
    ensures |picks| == |draws| && IsPicks(picks)
  {
    seq(|draws|, i requires 0 <= i < |draws| => Pick(draws[i], i + 1))
  }

  method SwapElements<T>(arr: array<T>, i: nat, j: nat)
    requires i < arr.Length && j < arr.Length
    modifies arr
    ensures arr[..] == Swapped(old(arr[..]), i, j)
  {
    var tmp := arr[i];
    arr[i] := arr[j];
    arr[j] := tmp;
  }

  /** Fisher-Yates in place; draws[i] is what the generator returns in [0, 1) when position i is settled. */
  method Shuffle<T>(arr: array<T>, draws: seq<real>)
    requires |draws| == arr.Length && forall i :: 0 <= i < |draws| ==> 0.0 <= draws[i] < 1.0
    modifies arr
    ensures arr[..] == Shuffled(old(arr[..]), Picks(draws), arr.Length)
  {
    var i := arr.Length - 1;
    while i > 0
      invariant -1 <= i < arr.Length
      invariant Shuffled(arr[..], Picks(draws), i + 1) == Shuffled(old(arr[..]), Picks(draws), arr.Length)
    {
      SwapElements(arr, i, Pick(draws[i], i + 1));
      i := i - 1;
    }
  }

  lemma {:induction false} ShuffledKeepsElements<T>(s: seq<T>, picks: seq<nat>, n: nat)
    requires n <= |s| == |picks| && IsPicks(picks)
    ensures multiset(Shuffled(s, picks, n)) == multiset(s)
    decreases n
  {
    if n > 1 {
      SwapPermutes(s, n - 1, picks[n - 1]);
      ShuffledKeepsElements(Swapped(s, n - 1, picks[n - 1]), picks, n - 1);
    }
  }

  lemma {:induction false} ShuffledKeepsSettled<T>(s: seq<T>, picks: seq<nat>, n: nat, k: nat)
    requires n <= k < |s| == |picks| && IsPicks(picks)
    ensures Shuffled(s, picks, n)[k] == s[k]
    decreases n
  {
    if n > 1 { ShuffledKeepsSettled(Swapped(s, n - 1, picks[n - 1]), picks, n - 1, k); }
  }

  lemma ShuffledPermutes<T>(s: seq<T>, picks: seq<nat>, n: nat)
    requires n <= |s| == |picks| && IsPicks(picks)
    ensures multiset(Shuffled(s, picks, n)) == multiset(s)
    ensures forall k :: n <= k < |s| ==> Shuffled(s, picks, n)[k] == s[k]
  {
    ShuffledKeepsElements(s, picks, n);
    forall k | n <= k < |s| ensures Shuffled(s, picks, n)[k] == s[k] { ShuffledKeepsSettled(s, picks, n, k); }
  }

  ghost predicate AllDifferent<T>(s: seq<T>) {
    forall i, j :: 0 <= i < j < |s| ==> s[i] != s[j]
  }

  lemma LastSettled<T>(s: seq<T>, p: seq<nat>, n: nat)
    requires 1 < n <= |s| == |p| && IsPicks(p)
    ensures Shuffled(s, p, n)[n - 1] == s[p[n - 1]]
  {
    ShuffledPermutes(Swapped(s, n - 1, p[n - 1]), p, n - 1);
  }

  lemma {:induction false} AtMostOnce<T>(s: seq<T>, x: T)
    requires AllDifferent(s)
    ensures multiset(s)[x] <= 1 && (multiset(s)[x] == 1 ==> x in s)
  {
    if s != [] {
      var n := |s| - 1;
      AtMostOnce(s[..n], x);
      assert s == s[..n] + [s[n]];
    }
  }

  lemma DifferentByCounting<T>(s: seq<T>, t: seq<T>)
    requires AllDifferent(s) && multiset(s) == multiset(t)
    ensures AllDifferent(t)
  {
    forall i, j | 0 <= i < j < |t| ensures t[i] != t[j] {
      assert t == t[..j] + [t[j]] + t[j + 1..];
      if t[i] == t[j] {
        assert t[i] in t[..j] && multiset(t)[t[j]] >= 2;
        AtMostOnce(s, t[j]);
      }
    }
  }

  /** Different picks shuffle differently: no order is favoured by two sequences of draws. */
  lemma {:induction false} ShuffleIsInjective<T>(s: seq<T>, p: seq<nat>, q: seq<nat>, n: nat)
    requires n <= |s| == |p| == |q| && IsPicks(p) && IsPicks(q) && AllDifferent(s)
    requires Shuffled(s, p, n) == Shuffled(s, q, n)
    ensures forall i :: 1 <= i < n ==> p[i] == q[i]
    decreases n
  {
    if n > 1 {
      var k := n - 1;
      LastSettled(s, p, n);
      LastSettled(s, q, n);
      SwapPermutes(s, k, p[k]);
      DifferentByCounting(s, Swapped(s, k, p[k]));
      ShuffleIsInjective(Swapped(s, k, p[k]), p, q, k);
    }
  }

  /** Where the element that belongs at n-1 still waits. */
  lemma UnsettledAt<T>(s: seq<T>, t: seq<T>, n: nat) returns (j: nat)
    requires 0 < n <= |s| && AllDifferent(s) && multiset(s) == multiset(t)
    requires |s| == |t| && forall k :: n <= k < |s| ==> s[k] == t[k]
    ensures j < n && s[j] == t[n - 1]
  {
    DifferentByCounting(s, t);
    j := IndexIn(t[n - 1], t, s);
  }

  /** The pick that puts position n-1 right, and what it leaves to do. */
  lemma SettleOne<T>(s: seq<T>, t: seq<T>, n: nat) returns (j: nat)
    requires 1 < n <= |s| && AllDifferent(s) && multiset(s) == multiset(t)
    requires |s| == |t| && forall k :: n <= k < |s| ==> s[k] == t[k]
    ensures j < n && AllDifferent(Swapped(s, n - 1, j)) && multiset(Swapped(s, n - 1, j)) == multiset(t)
    ensures forall k :: n - 1 <= k < |s| ==> Swapped(s, n - 1, j)[k] == t[k]
  {
    j := UnsettledAt(s, t, n);
    SwapPermutes(s, n - 1, j);
    DifferentByCounting(s, Swapped(s, n - 1, j));
  }

  lemma {:induction false} SamePicksBelow<T>(s: seq<T>, p: seq<nat>, q: seq<nat>, n: nat)
    requires n <= |s| == |p| == |q| && IsPicks(p) && IsPicks(q) && forall i :: 0 <= i < n ==> p[i] == q[i]
    ensures Shuffled(s, p, n) == Shuffled(s, q, n)
    decreases n
  {
    if n > 1 { SamePicksBelow(Swapped(s, n - 1, p[n - 1]), p, q, n - 1); }
  }

  lemma PicksWith<T>(s: seq<T>, rest: seq<nat>, k: nat, j: nat) returns (picks: seq<nat>)
    requires k < |s| == |rest| && IsPicks(rest) && j <= k
    ensures |picks| == |rest| && IsPicks(picks) && picks[k] == j && Shuffled(s, picks, k) == Shuffled(s, rest, k)
  {
    picks := rest[k := j];
    SamePicksBelow(s, rest, picks, k);
  }

  lemma FirstAlone<T>(s: seq<T>)
    requires s != []
    ensures multiset{s[0]} == multiset(s) - multiset(s[1..])
  {
    assert s == [s[0]] + s[1..];
  }

  /** When all positions but the first agree, so does the first. */
  lemma LastOneFits<T>(s: seq<T>, t: seq<T>)
    requires |s| == |t| >= 1 && multiset(s) == multiset(t) && forall k :: 1 <= k < |s| ==> s[k] == t[k]
    ensures s == t
  {
    assert s[1..] == t[1..];
    FirstAlone(s);
    FirstAlone(t);
    assert s[0] in multiset{t[0]};
    assert s == [s[0]] + s[1..] && t == [t[0]] + t[1..];
  }

  /** Every order is reached, by exactly the picks this finds. */
  lemma {:induction false} ShuffleReachesEveryOrder<T>(s: seq<T>, t: seq<T>, n: nat) returns (picks: seq<nat>)
    requires n <= |s| && AllDifferent(s) && multiset(s) == multiset(t)
    requires |s| == |t| && forall k :: n <= k < |s| ==> s[k] == t[k]
    ensures |picks| == |s| && IsPicks(picks) && Shuffled(s, picks, n) == t
    decreases n
  {
    if n <= 1 {
      picks := seq(|s|, i => 0);
      if |s| > 0 { LastOneFits(s, t); }
    } else {
      var j := SettleOne(s, t, n);
      var next := Swapped(s, n - 1, j);
      var rest := ShuffleReachesEveryOrder(next, t, n - 1);
      picks := PicksWith(next, rest, n - 1, j);
      assert Shuffled(s, picks, n) == Shuffled(next, picks, n - 1);
    }
  }

  /** Where slice(0, k) ends on a list of n: a negative k counts from the back. */
  function SliceEnd(k: int, n: nat): (e: nat)
    ensures e <= n
  {
    if k < 0 then (if n + k < 0 then 0 else n + k) else if k > n then n else k
  }

  function Elements(s: seq<int>): set<int> { set v | v in s }

  ghost function Chosen(chosen: set<int>, upTo: int): set<int> {
    set k | k in chosen && k < upTo
  }

  lemma ChosenGrows(s: set<int>, i: int)
    ensures |Chosen(s, i + 1)| == |Chosen(s, i)| + if i in s then 1 else 0
  {
    if i in s {
      assert Chosen(s, i + 1) == Chosen(s, i) + {i};
    } else {
      assert Chosen(s, i + 1) == Chosen(s, i);
    }
  }

  ghost function Indices(n: nat): (s: seq<int>)
    ensures |s| == n && forall i :: 0 <= i < n ==> s[i] == i
  {
    seq(n, i => i)
  }

  lemma {:induction false} IndicesOnce(n: nat, v: int)
    ensures multiset(Indices(n))[v] == if 0 <= v < n then 1 else 0
  {
    if n > 0 {
      IndicesOnce(n - 1, v);
      assert Indices(n) == Indices(n - 1) + [n - 1];
    }
  }

  lemma {:induction false} TakeCounts(idx: seq<int>, k: nat, v: int)
    requires k <= |idx|
    ensures multiset(idx[..k])[v] <= multiset(idx)[v]
  {
    assert idx == idx[..k] + idx[k..];
  }

  lemma ElementsNext(s: seq<int>, v: int)
    ensures Elements(s + [v]) == Elements(s) + {v}
  {
  }

  lemma CountOfNext(s: seq<int>, v: int)
    ensures multiset(s + [v])[v] == multiset(s)[v] + 1
  {
  }

  /** The k-th of a permutation of the indices is not among the first k - 1. */
  lemma TakenNew(idx: seq<int>, n: nat, k: nat)
    requires multiset(idx) == multiset(Indices(n)) && |idx| == n && 0 < k <= n
    ensures idx[k - 1] !in idx[..k - 1]
  {
    var v := idx[k - 1];
    TakeCounts(idx, k, v);
    IndicesOnce(n, v);
    assert idx[..k] == idx[..k - 1] + [v];
    CountOfNext(idx[..k - 1], v);
  }

  lemma OneMoreElement(s: seq<int>, v: int)
    requires v !in s
    ensures |Elements(s + [v])| == |Elements(s)| + 1
  {
    ElementsNext(s, v);
  }

  lemma {:induction false} TakenSize(idx: seq<int>, n: nat, k: nat)
    requires multiset(idx) == multiset(Indices(n)) && |idx| == n && k <= n
    ensures |Elements(idx[..k])| == k
  {
    if k > 0 {
      TakenSize(idx, n, k - 1);
      TakenNew(idx, n, k);
      OneMoreElement(idx[..k - 1], idx[k - 1]);
      assert idx[..k] == idx[..k - 1] + [idx[k - 1]];
    }
  }

  /** The first k of a permutation of the indices are k different indices. */
  lemma {:induction false} TakenDistinct(idx: seq<int>, n: nat, k: nat)
    requires multiset(idx) == multiset(Indices(n)) && |idx| == n && k <= n
    ensures |Elements(idx[..k])| == k
    ensures forall v :: v in idx[..k] ==> 0 <= v < n
  {
    forall v | v in idx[..k] ensures 0 <= v < n {
      TakeCounts(idx, k, v);
      IndicesOnce(n, v);
    }
    TakenSize(idx, n, k);
  }

  /** The samples whose index is, or is not, in the set, in order. */
  function Selected<T>(samples: seq<T>, chosen: set<int>, inside: bool): seq<T> {
    if samples == [] then []
    else
      var n := |samples| - 1;
      Selected(samples[..n], chosen, inside) + if (n in chosen) == inside then [samples[n]] else []
  }

  method Partition<T>(samples: seq<T>, testIdx: set<int>) returns (train: seq<T>, test: seq<T>)
    ensures train == Selected(samples, testIdx, false) && test == Selected(samples, testIdx, true)
  {
    train, test := [], [];
    for i := 0 to |samples|
      invariant train == Selected(samples[..i], testIdx, false) && test == Selected(samples[..i], testIdx, true)
    {
      assert samples[..i + 1][..i] == samples[..i];
      if i in testIdx { test := test + [samples[i]]; } else { train := train + [samples[i]]; }
    }
    assert samples[..|samples|] == samples;
  }

  lemma SplitOneMore<T>(a: seq<T>, b: seq<T>, all: seq<T>, x: T)
    requires multiset(a) + multiset(b) == multiset(all)
    ensures multiset(a + [x]) + multiset(b + []) == multiset(all + [x])
    ensures multiset(a + []) + multiset(b + [x]) == multiset(all + [x])
  {
    assert a + [] == a && b + [] == b;
  }

  lemma {:induction false} SelectedPartition<T>(samples: seq<T>, chosen: set<int>)
    ensures multiset(Selected(samples, chosen, false)) + multiset(Selected(samples, chosen, true)) == multiset(samples)
  {
    if samples != [] {
      var n := |samples| - 1;
      SelectedPartition(samples[..n], chosen);
      assert samples == samples[..n] + [samples[n]];
      SplitOneMore(Selected(samples[..n], chosen, false), Selected(samples[..n], chosen, true), samples[..n],
                   samples[n]);
    }
  }

  lemma {:induction false} SelectedCount<T>(samples: seq<T>, chosen: set<int>)
    requires forall v :: v in chosen ==> v >= 0
    ensures |Selected(samples, chosen, true)| == |Chosen(chosen, |samples|)|
  {
    if samples == [] {
      assert Chosen(chosen, 0) == {};
    } else {
      SelectedCount(samples[..|samples| - 1], chosen);
      ChosenGrows(chosen, |samples| - 1);
    }
  }

  /** Math.round(n * fraction). */
  function TestCount(n: nat, fraction: real): int { (n as real * fraction + 0.5).Floor }

  /** The indices the test side takes: the first k of the shuffled ones. */
  ghost function TestIndices(n: nat, testFraction: real, draws: seq<real>): set<int>
    requires |draws| == n && forall i :: 0 <= i < |draws| ==> 0.0 <= draws[i] < 1.0
  {
    Elements(Shuffled(Indices(n), Picks(draws), n)[..SliceEnd(TestCount(n, testFraction), n)])
  }

  method SplitTrainTest<T>(samples: seq<T>, testFraction: real, draws: seq<real>) returns (train: seq<T>, test: seq<T>)
    requires |draws| == |samples| && forall i :: 0 <= i < |draws| ==> 0.0 <= draws[i] < 1.0
    ensures train == Selected(samples, TestIndices(|samples|, testFraction, draws), false)
    ensures test == Selected(samples, TestIndices(|samples|, testFraction, draws), true)
  {
    var n := |samples|;
    var idx := new int[n](i => i);
    assert idx[..] == Indices(n);
    Shuffle(idx, draws);
    var k := SliceEnd(TestCount(n, testFraction), n);
    assert idx[..k] == idx[..][..k];
    train, test := Partition(samples, Elements(idx[..k]));
  }

  /** Every sample lands on exactly one side, and the test side has the requested size. */
  lemma SplitIsExact<T>(samples: seq<T>, testFraction: real, draws: seq<real>)
    requires |draws| == |samples| && forall i :: 0 <= i < |draws| ==> 0.0 <= draws[i] < 1.0
    ensures var chosen := TestIndices(|samples|, testFraction, draws);
            && multiset(Selected(samples, chosen, false)) + multiset(Selected(samples, chosen, true))
              == multiset(samples)
            && |Selected(samples, chosen, true)| == SliceEnd(TestCount(|samples|, testFraction), |samples|)
  {
    var n := |samples|;
    var k, order := SliceEnd(TestCount(n, testFraction), n), Shuffled(Indices(n), Picks(draws), n);
    var chosen := TestIndices(n, testFraction, draws);
    ShuffledPermutes(Indices(n), Picks(draws), n);
    TakenDistinct(order, n, k);
    SelectedPartition(samples, chosen);
    SelectedCount(samples, chosen);
    assert Chosen(chosen, n) == chosen;
  }
}
