/** Sums over rows, sums per key, and how they relate: the accounting behind every aggregation loop. */
module Sums {
  import opened Permutations
  import opened RealArithmetic

  function Total<T>(rows: seq<T>, h: T -> real): real {
    if rows == [] then 0.0 else Total(rows[..|rows| - 1], h) + h(rows[|rows| - 1])
  }

  /** The part of the total that rows with this key contribute. */
  function KeyTotal<T, K(==)>(rows: seq<T>, key: T -> K, h: T -> real, k: K): real {
    if rows == [] then 0.0
    else
      var last := rows[|rows| - 1];
      KeyTotal(rows[..|rows| - 1], key, h, k) + if key(last) == k then h(last) else 0.0
  }

  function KeyTotals<T, K(==)>(rows: seq<T>, key: T -> K, h: T -> real): K -> real {
    k => KeyTotal(rows, key, h, k)
  }

  /** The distinct keys, in order of first appearance: the iteration order of a JavaScript Map. */
  function Distinct<T, K(==)>(rows: seq<T>, key: T -> K): seq<K> {
    if rows == [] then []
    else
      var prior := Distinct(rows[..|rows| - 1], key);
      if key(rows[|rows| - 1]) in prior then prior else prior + [key(rows[|rows| - 1])]
  }

  lemma TakeNext<T>(rows: seq<T>, i: nat)
    requires i < |rows|
    ensures rows[..i + 1] != [] && rows[..i + 1][..|rows[..i + 1]| - 1] == rows[..i]
    ensures rows[..i + 1][|rows[..i + 1]| - 1] == rows[i]
  {
  }

  lemma TotalAppend<T>(rows: seq<T>, x: T, h: T -> real)
    ensures Total(rows + [x], h) == Total(rows, h) + h(x)
  {
    assert (rows + [x])[..|rows|] == rows;
  }

  lemma DistinctAppend<T, K>(rows: seq<T>, x: T, key: T -> K)
    ensures Distinct(rows + [x], key) ==
            if key(x) in Distinct(rows, key) then Distinct(rows, key) else Distinct(rows, key) + [key(x)]
  {
    assert (rows + [x])[..|rows|] == rows;
  }

  lemma KeyTotalAppend<T, K>(rows: seq<T>, x: T, key: T -> K, h: T -> real, k: K)
    ensures KeyTotal(rows + [x], key, h, k) == KeyTotal(rows, key, h, k) + if key(x) == k then h(x) else 0.0
  {
    assert (rows + [x])[..|rows|] == rows;
  }

  lemma {:induction false} TotalPointwise<T>(rows: seq<T>, f: T -> real, g: T -> real)
    requires forall x :: x in rows ==> f(x) == g(x)
    ensures Total(rows, f) == Total(rows, g)
  {
    if rows != [] { TotalPointwise(rows[..|rows| - 1], f, g); }
  }

  lemma {:induction false} TotalNonNegative<T>(rows: seq<T>, h: T -> real)
    requires forall x :: x in rows ==> h(x) >= 0.0
    ensures Total(rows, h) >= 0.0
    ensures Total(rows, h) == 0.0 ==> forall x :: x in rows ==> h(x) == 0.0
  {
    if rows != [] {
      var prior, last := rows[..|rows| - 1], rows[|rows| - 1];
      TotalNonNegative(prior, h);
      forall x | x in rows && Total(rows, h) == 0.0 ensures h(x) == 0.0 {
        if x != last { assert x in prior; }
      }
    }
  }

  lemma {:induction false} TotalMoveToEnd<T>(rows: seq<T>, i: nat, h: T -> real)
    requires i < |rows|
    ensures Total(rows, h) == Total(rows[..i] + rows[i + 1..], h) + h(rows[i])
  {
    var n, rest := |rows| - 1, rows[..i] + rows[i + 1..];
    if i < n {
      TotalMoveToEnd(rows[..n], i, h);
      WithoutKeepsLast(rows, i);
    } else {
      assert rest == rows[..n];
    }
  }

  lemma {:induction false} TotalPermuted<T>(p: seq<T>, q: seq<T>, h: T -> real)
    requires multiset(p) == multiset(q)
    ensures Total(p, h) == Total(q, h)
  {
    if p == [] {
      OnlyEmpty(q);
    } else {
      var i := LastElsewhere(p, q);
      TotalMoveToEnd(q, i, h);
      TotalPermuted(p[..|p| - 1], q[..i] + q[i + 1..], h);
    }
  }

  // ----- mapping, filtering and grouping -----

  function Mapped<A, B>(keys: seq<A>, f: A -> B): (r: seq<B>)
    ensures |r| == |keys| && forall i :: 0 <= i < |keys| ==> r[i] == f(keys[i])
  {
    if keys == [] then [] else Mapped(keys[..|keys| - 1], f) + [f(keys[|keys| - 1])]
  }

  function Where<T>(rows: seq<T>, p: T -> bool): seq<T> {
    if rows == [] then []
    else
      var prior, last := Where(rows[..|rows| - 1], p), rows[|rows| - 1];
      if p(last) then prior + [last] else prior
  }

  /** The rows with this key, in order. */
  function Having<T, K(==)>(rows: seq<T>, key: T -> K, k: K): seq<T> {
    if rows == [] then []
    else
      var prior, last := Having(rows[..|rows| - 1], key, k), rows[|rows| - 1];
      if key(last) == k then prior + [last] else prior
  }

  lemma {:induction false} HavingTotal<T, K>(rows: seq<T>, key: T -> K, k: K, h: T -> real)
    ensures Total(Having(rows, key, k), h) == KeyTotal(rows, key, h, k)
  {
    if rows != [] {
      var prior, last := rows[..|rows| - 1], rows[|rows| - 1];
      HavingTotal(prior, key, k, h);
      TotalAppend(Having(prior, key, k), last, h);
    }
  }

  lemma {:induction false} HavingNone<T, K>(rows: seq<T>, key: T -> K, k: K)
    requires k !in Distinct(rows, key)
    ensures Having(rows, key, k) == []
  {
    if rows != [] { HavingNone(rows[..|rows| - 1], key, k); }
  }

  /** The insertion-ordered map from each key to its rows. */
  method GroupBy<T, K(==)>(rows: seq<T>, key: T -> K) returns (order: seq<K>, groups: map<K, seq<T>>)
    ensures order == Distinct(rows, key)
    ensures forall k :: k in groups <==> k in order
    ensures forall k :: k in groups ==> groups[k] == Having(rows, key, k)
  {
    order, groups := [], map[];
    var i := 0;
    while i < |rows|
      invariant i <= |rows| && order == Distinct(rows[..i], key)
      invariant forall k :: k in groups <==> k in order
      invariant forall k :: k in groups ==> groups[k] == Having(rows[..i], key, k)
    {
      TakeNext(rows, i);
      var k := key(rows[i]);
      if k in groups {
        groups := groups[k := groups[k] + [rows[i]]];
      } else {
        HavingNone(rows[..i], key, k);
        order, groups := order + [k], groups[k := [rows[i]]];
      }
      i := i + 1;
    }
    assert rows[..i] == rows;
  }

  // ----- per-key totals -----

  function OnlyKey<T, K(==)>(key: T -> K, h: T -> real, k: K): T -> real {
    x => if key(x) == k then h(x) else 0.0
  }

  lemma {:induction false} KeyTotalIsTotal<T, K>(rows: seq<T>, key: T -> K, h: T -> real, k: K)
    ensures KeyTotal(rows, key, h, k) == Total(rows, OnlyKey(key, h, k))
  {
    if rows != [] { KeyTotalIsTotal(rows[..|rows| - 1], key, h, k); }
  }

  ghost predicate NoRepeats<K>(keys: seq<K>) {
    forall i, j :: 0 <= i < j < |keys| ==> keys[i] != keys[j]
  }

  ghost predicate HasKey<T, K>(rows: seq<T>, key: T -> K, k: K) {
    exists x :: x in rows && key(x) == k
  }

  lemma {:induction false} DistinctIffPresent<T, K>(rows: seq<T>, key: T -> K, k: K)
    ensures k in Distinct(rows, key) <==> HasKey(rows, key, k)
  {
    if rows != [] {
      var prior, last := rows[..|rows| - 1], rows[|rows| - 1];
      DistinctIffPresent(prior, key, k);
      assert forall x :: x in rows <==> x in prior || x == last;
      if HasKey(prior, key, k) {
        var x :| x in prior && key(x) == k;
        assert x in rows;
      }
      assert last in rows;
    }
  }

  lemma {:induction false} DistinctNoRepeats<T, K>(rows: seq<T>, key: T -> K)
    ensures NoRepeats(Distinct(rows, key))
  {
    if rows != [] { DistinctNoRepeats(rows[..|rows| - 1], key); }
  }

  lemma DistinctKeys<T, K>(rows: seq<T>, key: T -> K)
    ensures NoRepeats(Distinct(rows, key))
    ensures forall x :: x in rows ==> key(x) in Distinct(rows, key)
    ensures forall k :: k in Distinct(rows, key) <==> HasKey(rows, key, k)
  {
    DistinctNoRepeats(rows, key);
    forall k ensures k in Distinct(rows, key) <==> HasKey(rows, key, k) { DistinctIffPresent(rows, key, k); }
    forall x | x in rows ensures key(x) in Distinct(rows, key) { assert HasKey(rows, key, key(x)); }
  }

  lemma {:induction false} AbsentKeyTotal<T, K>(rows: seq<T>, key: T -> K, h: T -> real, k: K)
    requires forall x :: x in rows ==> key(x) != k
    ensures KeyTotal(rows, key, h, k) == 0.0
  {
    if rows != [] { AbsentKeyTotal(rows[..|rows| - 1], key, h, k); }
  }

  /** The insertion-ordered map from each key to the total of its rows. */
  method SumBy<T, K(==)>(rows: seq<T>, key: T -> K, h: T -> real) returns (order: seq<K>, sums: map<K, real>)
    ensures order == Distinct(rows, key)
    ensures forall k :: k in sums <==> k in order
    ensures forall k :: k in sums ==> sums[k] == KeyTotal(rows, key, h, k)
  {
    order, sums := [], map[];
    var i := 0;
    while i < |rows|
      invariant i <= |rows| && order == Distinct(rows[..i], key)
      invariant forall k :: k in sums <==> k in order
      invariant forall k :: k in sums ==> sums[k] == KeyTotal(rows[..i], key, h, k)
    {
      TakeNext(rows, i);
      DistinctKeys(rows[..i], key);
      var k := key(rows[i]);
      if k !in sums {
        AbsentKeyTotal(rows[..i], key, h, k);
        order := order + [k];
      }
      sums := sums[k := (if k in sums then sums[k] else 0.0) + h(rows[i])];
      i := i + 1;
    }
    assert rows[..i] == rows;
  }

  lemma KeyTotalPermuted<T, K>(p: seq<T>, q: seq<T>, key: T -> K, h: T -> real, k: K)
    requires multiset(p) == multiset(q)
    ensures KeyTotal(p, key, h, k) == KeyTotal(q, key, h, k)
  {
    KeyTotalIsTotal(p, key, h, k);
    KeyTotalIsTotal(q, key, h, k);
    TotalPermuted(p, q, OnlyKey(key, h, k));
  }

  /** Changing one key's amount by delta changes the total by delta. */
  lemma {:induction false} TotalChangedAt<K>(keys: seq<K>, f: K -> real, g: K -> real, k: K, delta: real)
    requires NoRepeats(keys)
    requires forall j :: j in keys ==> g(j) == f(j) + if j == k then delta else 0.0
    ensures Total(keys, g) == Total(keys, f) + if k in keys then delta else 0.0
  {
    if keys != [] {
      TotalChangedAt(keys[..|keys| - 1], f, g, k, delta);
    }
  }

  /** Conservation: the per-key totals add up to the total. */
  lemma {:induction false} KeysAddUp<T, K>(rows: seq<T>, key: T -> K, h: T -> real)
    ensures Total(rows, h) == Total(Distinct(rows, key), KeyTotals(rows, key, h))
  {
    if rows != [] {
      var prior, last := rows[..|rows| - 1], rows[|rows| - 1];
      var keys, k := Distinct(prior, key), key(last);
      KeysAddUp(prior, key, h);
      DistinctKeys(prior, key);
      TotalChangedAt(keys, KeyTotals(prior, key, h), KeyTotals(rows, key, h), k, h(last));
      if k !in keys {
        AbsentKeyTotal(prior, key, h, k);
        assert (keys + [k])[..|keys|] == keys;
      }
    }
  }

  /** A weight that depends on the key alone factors out of its total. */
  lemma {:induction false} WeightedKeyTotal<T, K>(rows: seq<T>, key: T -> K, h: T -> real, w: K -> real,
                                                      weighted: T -> real, k: K)
    requires forall x :: x in rows ==> weighted(x) == h(x) * w(key(x))
    ensures KeyTotal(rows, key, weighted, k) == KeyTotal(rows, key, h, k) * w(k)
  {
    if rows != [] {
      WeightedKeyTotal(rows[..|rows| - 1], key, h, w, weighted, k);
    }
  }

  lemma {:induction false} TotalDivided<T>(rows: seq<T>, f: T -> real, n: real, g: T -> real)
    requires n > 0.0 && forall x :: x in rows ==> g(x) == f(x) / n
    ensures Total(rows, g) == Total(rows, f) / n
  {
    if rows != [] {
      TotalDivided(rows[..|rows| - 1], f, n, g);
      SumOfQuotients(Total(rows[..|rows| - 1], f), f(rows[|rows| - 1]), n);
    }
  }

  lemma {:induction false} OnceEach<K>(keys: seq<K>, k: K)
    requires NoRepeats(keys)
    ensures multiset(keys)[k] == if k in keys then 1 else 0
  {
    if keys != [] {
      var n := |keys| - 1;
      OnceEach(keys[..n], k);
      assert keys == keys[..n] + [keys[n]];
    }
  }

  lemma SameKeysSameMultiset<K>(a: seq<K>, b: seq<K>)
    requires NoRepeats(a) && NoRepeats(b) && forall k :: k in a <==> k in b
    ensures multiset(a) == multiset(b)
  {
    forall k ensures multiset(a)[k] == multiset(b)[k] {
      OnceEach(a, k);
      OnceEach(b, k);
    }
  }

  /** The distinct keys do not depend on row order, up to order. */
  lemma DistinctPermuted<T, K>(p: seq<T>, q: seq<T>, key: T -> K)
    requires multiset(p) == multiset(q)
    ensures multiset(Distinct(p, key)) == multiset(Distinct(q, key))
  {
    DistinctKeys(p, key);
    DistinctKeys(q, key);
    forall k ensures HasKey(p, key, k) <==> HasKey(q, key, k) {
      assert forall x :: x in p <==> x in multiset(p);
      assert forall x :: x in q <==> x in multiset(q);
    }
    SameKeysSameMultiset(Distinct(p, key), Distinct(q, key));
  }
}
