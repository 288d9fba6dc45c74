/** Sums of a weight over the accounts in a map, and the set arithmetic the counting proofs use. */
module Sums {

  ghost function Sum<V>(m: map<nat, V>, f: V -> int): int
    decreases |m|
  {
    if m == map[] then 0 else
      var k :| k in m;
      assert |m - {k}| < |m| by { Shrinks(m, k); }
      f(m[k]) + Sum(m - {k}, f)
  }

  lemma Shrinks<V>(m: map<nat, V>, k: nat)
    requires k in m
    ensures |m - {k}| == |m| - 1
  {
    assert (m - {k}).Keys == m.Keys - {k};
    assert |m.Keys - {k}| == |m.Keys| - 1;
  }

  /** Any key may be taken out first. */
  lemma {:induction false} SumPick<V>(m: map<nat, V>, f: V -> int, k: nat)
    requires k in m
    ensures Sum(m, f) == f(m[k]) + Sum(m - {k}, f)
    decreases |m|
  {
    var j :| j in m && Sum(m, f) == f(m[j]) + Sum(m - {j}, f);
    if j != k {
      Shrinks(m, j);
      Shrinks(m, k);
      SumPick(m - {j}, f, k);
      SumPick(m - {k}, f, j);
      assert (m - {j}) - {k} == (m - {k}) - {j};
    }
  }

  lemma SumPut<V>(m: map<nat, V>, f: V -> int, k: nat, v: V)
    ensures Sum(m[k := v], f) == Sum(m, f) - (if k in m then f(m[k]) else 0) + f(v)
  {
    SumPick(m[k := v], f, k);
    assert m[k := v] - {k} == m - {k};
    if k in m {
      SumPick(m, f, k);
    } else {
      assert m - {k} == m;
    }
  }

  lemma SumDrop<V>(m: map<nat, V>, f: V -> int, k: nat)
    ensures Sum(m - {k}, f) == Sum(m, f) - (if k in m then f(m[k]) else 0)
  {
    if k in m {
      SumPick(m, f, k);
    } else {
      assert m - {k} == m;
    }
  }

  /** A key's contribution; absent keys contribute nothing. */
  ghost function Weight<V>(m: map<nat, V>, f: V -> int, k: nat): int {
    if k in m then f(m[k]) else 0
  }

  lemma DropWeight<V>(m: map<nat, V>, f: V -> int, k: nat)
    ensures Sum(m, f) == Weight(m, f, k) + Sum(m - {k}, f)
    ensures forall j :: Weight(m - {k}, f, j) == if j == k then 0 else Weight(m, f, j)
    ensures (m - {k}).Keys == m.Keys - {k}
  {
    SumDrop(m, f, k);
  }

  lemma EmptySum<V>(m: map<nat, V>, f: V -> int)
    requires m.Keys == {}
    ensures Sum(m, f) == 0
  {
    assert m == map[];
  }

  /** Weights that grow key by key give sums that grow. */
  lemma {:induction false} SumLe<V>(m: map<nat, V>, f: V -> int, m': map<nat, V>, f': V -> int)
    requires forall k :: Weight(m, f, k) <= Weight(m', f', k)
    ensures Sum(m, f) <= Sum(m', f')
    decreases m.Keys + m'.Keys
  {
    hide Sum, Weight;
    var keys := m.Keys + m'.Keys;
    if keys == {} {
      EmptySum(m, f);
      EmptySum(m', f');
    } else {
      var k :| k in keys;
      DropWeight(m, f, k);
      DropWeight(m', f', k);
      assert (m - {k}).Keys + (m' - {k}).Keys == keys - {k};
      SumLe(m - {k}, f, m' - {k}, f');
      assert Weight(m, f, k) <= Weight(m', f', k);
    }
  }

  lemma SumEq<V>(m: map<nat, V>, f: V -> int, m': map<nat, V>, f': V -> int)
    requires forall k :: Weight(m, f, k) == Weight(m', f', k)
    ensures Sum(m, f) == Sum(m', f')
  {
    SumLe(m, f, m', f');
    SumLe(m', f', m, f);
  }

  ghost function Restrict<V>(m: map<nat, V>, keys: set<nat>): (r: map<nat, V>)
    requires keys <= m.Keys
    ensures r.Keys == keys
    ensures forall k :: k in keys ==> r[k] == m[k]
  {
    map k | k in keys :: m[k]
  }

  /** Keys of weight zero do not matter. */
  lemma SumRestrict<V>(m: map<nat, V>, f: V -> int, keys: set<nat>)
    requires keys <= m.Keys
    requires forall k :: k in m && k !in keys ==> f(m[k]) == 0
    ensures Sum(m, f) == Sum(Restrict(m, keys), f)
  {
    hide Sum;
    SumEq(m, f, Restrict(m, keys), f);
  }

  lemma {:induction false} SumNonNegative<V>(m: map<nat, V>, f: V -> int)
    requires forall k :: k in m ==> f(m[k]) >= 0
    ensures Sum(m, f) >= 0
    ensures forall k :: k in m ==> Sum(m, f) >= f(m[k])
    decreases |m|
  {
    if m != map[] {
      forall k | k in m
        ensures Sum(m, f) >= f(m[k]) >= 0
      {
        SumPick(m, f, k);
        Shrinks(m, k);
        SumNonNegative(m - {k}, f);
      }
    }
  }

  /** A subset with as many elements is the whole set. */
  lemma {:induction false} SubsetOfSameSize(a: set<nat>, b: set<nat>)
    requires a <= b
    requires |a| == |b|
    ensures a == b
  {
    if b - a != {} {
      var x :| x in b - a;
      assert |a + {x}| == |a| + 1;
      SubsetSize(a + {x}, b);
    } else {
      assert b <= a;
    }
  }

  lemma {:induction false} SubsetSize(a: set<nat>, b: set<nat>)
    requires a <= b
    ensures |a| <= |b|
  {
    if a != {} {
      var x :| x in a;
      SubsetSize(a - {x}, b - {x});
    }
  }
}
