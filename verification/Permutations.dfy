/** Sequences with the same elements in another order. */
module Permutations {

  lemma MultisetWithout<T>(q: seq<T>, i: nat)
    requires i < |q|
    ensures multiset(q[..i] + q[i + 1..]) == multiset(q) - multiset{q[i]}
  {
    assert q == q[..i] + [q[i]] + q[i + 1..];
  }

  lemma IndexIn<T>(x: T, p: seq<T>, q: seq<T>) returns (i: nat)
    requires x in p && multiset(p) == multiset(q)
    ensures i < |q| && q[i] == x
  {
    assert x in multiset(q);
    i :| 0 <= i < |q| && q[i] == x;
  }

  lemma WithoutLast<T>(p: seq<T>)
    requires p != []
    ensures multiset(p[..|p| - 1]) == multiset(p) - multiset{p[|p| - 1]}
  {
    assert p == p[..|p| - 1] + [p[|p| - 1]];
  }

  lemma SplitAt<T>(q: seq<T>, i: nat)
    requires i < |q|
    ensures q == q[..i] + [q[i]] + q[i + 1..]
  {
  }

  /** Where the last element of p stands in a permutation q; without it the rest are permutations too. */
  lemma LastElsewhere<T>(p: seq<T>, q: seq<T>) returns (i: nat)
    requires p != [] && multiset(p) == multiset(q)
    ensures i < |q| && q[i] == p[|p| - 1]
    ensures multiset(p[..|p| - 1]) == multiset(q[..i] + q[i + 1..])
    ensures q == q[..i] + [q[i]] + q[i + 1..]
  {
    i := IndexIn(p[|p| - 1], p, q);
    MultisetWithout(q, i);
    WithoutLast(p);
    SplitAt(q, i);
  }

  /** q without its i-th element, for an i before the last, still ends in q's last element. */
  lemma WithoutKeepsLast<T>(q: seq<T>, i: nat)
    requires i < |q| - 1
    ensures var rest, n := q[..i] + q[i + 1..], |q| - 1;
            |rest| == n && rest[n - 1] == q[n] && rest[..n - 1] == q[..n][..i] + q[..n][i + 1..]
  {
    var n := |q| - 1;
    var rest, prior := q[..i] + q[i + 1..], q[..n];
    assert rest[..n - 1] == prior[..i] + prior[i + 1..];
  }

  lemma OnlyEmpty<T>(q: seq<T>)
    requires multiset(q) == multiset{}
    ensures q == []
  {
    assert |q| == |multiset(q)|;
  }

  lemma SameLength<T>(p: seq<T>, q: seq<T>)
    requires multiset(p) == multiset(q)
    ensures |p| == |q|
  {
    assert |multiset(p)| == |p| && |multiset(q)| == |q|;
  }

  lemma SwapPermutes<T>(s: seq<T>, i: nat, j: nat)
    requires i < |s| && j < |s|
    ensures multiset(s[i := s[j]][j := s[i]]) == multiset(s)
  {
  }
}
