/** Sums and counts over the threads of a step system, kept as a map from thread to what it does. */
module Counting {

  ghost function Sum<K, T>(m: map<K, T>, f: T -> nat): nat
    decreases |m|
  {
    if m == map[] then 0
    else
      var k :| k in m;
      f(m[k]) + Sum(m - {k}, f)
  }

  /** Any one entry can be taken out of the sum first. */
  lemma {:induction false} SumTakeOut<K, T>(m: map<K, T>, f: T -> nat, k: K)
    requires k in m
    ensures Sum(m, f) == f(m[k]) + Sum(m - {k}, f)
    decreases |m|
  {
    var j :| j in m && Sum(m, f) == f(m[j]) + Sum(m - {j}, f);
    if j != k {
      SumTakeOut(m - {j}, f, k);
      SumTakeOut(m - {k}, f, j);
      assert (m - {j}) - {k} == (m - {k}) - {j};
    }
  }

  lemma SumSet<K, T>(m: map<K, T>, f: T -> nat, k: K, x: T)
    ensures Sum(m[k := x], f) + (if k in m then f(m[k]) else 0) == Sum(m, f) + f(x)
  {
    SumTakeOut(m[k := x], f, k);
    if k in m {
      SumTakeOut(m, f, k);
      assert m[k := x] - {k} == m - {k};
    } else {
      assert m[k := x] - {k} == m;
    }
  }

  lemma SumDrop<K, T>(m: map<K, T>, f: T -> nat, k: K)
    requires k in m
    ensures Sum(m - {k}, f) + f(m[k]) == Sum(m, f)
  {
    SumTakeOut(m, f, k);
  }

  lemma SumAtLeast<K, T>(m: map<K, T>, f: T -> nat, k: K)
    requires k in m
    ensures f(m[k]) <= Sum(m, f)
  {
    SumTakeOut(m, f, k);
  }

  lemma {:induction false} SumZero<K, T>(m: map<K, T>, f: T -> nat)
    requires forall k :: k in m ==> f(m[k]) == 0
    ensures Sum(m, f) == 0
    decreases |m|
  {
    if m != map[] {
      var k :| k in m && Sum(m, f) == f(m[k]) + Sum(m - {k}, f);
      SumZero(m - {k}, f);
    }
  }

  lemma {:induction false} SumPositive<K, T>(m: map<K, T>, f: T -> nat) returns (k: K)
    requires Sum(m, f) > 0
    ensures k in m && f(m[k]) > 0
    decreases |m|
  {
    k :| k in m && Sum(m, f) == f(m[k]) + Sum(m - {k}, f);
    if f(m[k]) == 0 {
      k := SumPositive(m - {k}, f);
    }
  }

  lemma {:induction false} SumMonotone<K, T>(m: map<K, T>, f: T -> nat, g: T -> nat)
    requires forall k :: k in m ==> f(m[k]) <= g(m[k])
    ensures Sum(m, f) <= Sum(m, g)
    decreases |m|
  {
    if m != map[] {
      var k :| k in m && Sum(m, f) == f(m[k]) + Sum(m - {k}, f);
      SumMonotone(m - {k}, f, g);
      SumTakeOut(m, g, k);
    }
  }
}
