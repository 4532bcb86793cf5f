/** Order-independent sums over the values of a dictionary. */
module Sums {

  ghost function Sum<K(!new)>(m: map<K, real>): real {
    if m == map[] then 0.0
    else
      var k :| k in m;
      m[k] + Sum(m - {k})
  }

  /** Whichever key the definition picks first, any key can be taken out. */
  lemma {:induction false} SumRemove<K(!new)>(m: map<K, real>, k: K)
    requires k in m
    ensures Sum(m) == m[k] + Sum(m - {k})
    decreases |m|
  {
    var first: K :| first in m && Sum(m) == m[first] + Sum(m - {first});
    if first != k {
      SumRemove(m - {first}, k);
      SumRemove(m - {k}, first);
      assert m - {first} - {k} == m - {k} - {first};
    }
  }

  lemma SumUpdate<K(!new)>(m: map<K, real>, k: K, v: real)
    ensures Sum(m[k := v]) == Sum(m) - (if k in m then m[k] else 0.0) + v
  {
    SumRemove(m[k := v], k);
    if k in m {
      SumRemove(m, k);
      assert m[k := v] - {k} == m - {k};
    } else {
      assert m[k := v] - {k} == m;
    }
  }

  lemma SumSingleton<K(!new)>(k: K, v: real)
    ensures Sum(map[k := v]) == v
  {
    var m := map[k := v];
    SumRemove(m, k);
    assert m - {k} == map[];
  }

  /** A pointwise bound carries over to the sums. */
  lemma {:induction false} SumMonotone<K(!new)>(a: map<K, real>, b: map<K, real>)
    requires a.Keys == b.Keys
    requires forall k :: k in a ==> a[k] <= b[k]
    ensures Sum(a) <= Sum(b)
    decreases |a|
  {
    if a == map[] {
      assert b == map[];
    } else {
      var k :| k in a;
      SumRemove(a, k);
      SumRemove(b, k);
      SumMonotone(a - {k}, b - {k});
    }
  }

  // ----- sums over a sequence -----

  ghost function Total<T>(s: seq<T>, amount: T -> real): real {
    if s == [] then 0.0 else amount(s[0]) + Total(s[1..], amount)
  }

  lemma {:induction false} TotalAppend<T>(a: seq<T>, b: seq<T>, amount: T -> real)
    ensures Total(a + b, amount) == Total(a, amount) + Total(b, amount)
  {
    if a == [] {
      assert a + b == b;
    } else {
      assert (a + b)[1..] == a[1..] + b;
      TotalAppend(a[1..], b, amount);
    }
  }

  lemma {:induction false} TotalInsert<T>(a: seq<T>, x: T, b: seq<T>, amount: T -> real)
    ensures Total(a + [x] + b, amount) == Total(a, amount) + amount(x) + Total(b, amount)
  {
    TotalAppend(a + [x], b, amount);
    TotalAppend(a, [x], amount);
    assert [x][1..] == [];
  }

  /** Take one element out of both sides of a permutation. */
  lemma TakeHead<T>(a: seq<T>, b: seq<T>) returns (k: nat)
    requires a != [] && multiset(a) == multiset(b)
    ensures k < |b| && b[k] == a[0] && multiset(a[1..]) == multiset(b[..k] + b[k + 1..])
  {
    assert a[0] in multiset(b);
    k :| 0 <= k < |b| && b[k] == a[0];
    var left, right := b[..k], b[k + 1..];
    assert a == [a[0]] + a[1..] && b == left + [b[k]] + right;
    forall x ensures multiset(a[1..])[x] == multiset(left + right)[x] {
      assert multiset(a)[x] == multiset([a[0]])[x] + multiset(a[1..])[x];
      assert multiset(b)[x] == multiset(left)[x] + multiset([b[k]])[x] + multiset(right)[x];
    }
  }

  /** A total does not depend on the order. */
  lemma {:induction false} TotalPermutes<T>(a: seq<T>, b: seq<T>, amount: T -> real)
    requires multiset(a) == multiset(b)
    ensures Total(a, amount) == Total(b, amount)
    decreases |a|
  {
    if a == [] {
      assert |multiset(b)| == 0;
    } else {
      var k := TakeHead(a, b);
      var left, right := b[..k], b[k + 1..];
      assert b == left + [b[k]] + right;
      TotalPermutes(a[1..], left + right, amount);
      TotalInsert(left, b[k], right, amount);
      TotalAppend(left, right, amount);
    }
  }

  /** Split two orderings of the same elements at the same test: the parts agree too. */
  lemma SameParts<T(!new)>(a: seq<T>, b: seq<T>, j: nat, m: nat, early: T -> bool)
    requires multiset(a) == multiset(b) && j <= |a| && m <= |b|
    requires (forall x :: x in a[..j] ==> early(x)) && (forall x :: x in a[j..] ==> !early(x))
    requires (forall x :: x in b[..m] ==> early(x)) && (forall x :: x in b[m..] ==> !early(x))
    ensures multiset(a[..j]) == multiset(b[..m])
  {
    forall x ensures multiset(a[..j])[x] == multiset(b[..m])[x] {
      CountInPart(a, j, early, x);
      CountInPart(b, m, early, x);
    }
  }

  lemma CountInPart<T>(a: seq<T>, j: nat, early: T -> bool, x: T)
    requires j <= |a|
    requires (forall y :: y in a[..j] ==> early(y)) && (forall y :: y in a[j..] ==> !early(y))
    ensures multiset(a[..j])[x] == if early(x) then multiset(a)[x] else 0
  {
    assert a == a[..j] + a[j..];
    assert multiset(a)[x] == multiset(a[..j])[x] + multiset(a[j..])[x];
    if early(x) {
      assert x !in multiset(a[j..]);
    } else {
      assert x !in multiset(a[..j]);
    }
  }
}
