/** Option and Result values, and sums over the values of a finite map. */
module Prelude {

  datatype Option<+T> = None | Some(value: T)

  datatype Result<+T, +E> = Ok(value: T) | Err(error: E)

  function Max(a: int, b: int): (m: int)
    ensures m >= a && m >= b && (m == a || m == b)
  {
    if a < b then b else a
  }

  function Min(a: int, b: int): (m: int)
    ensures m <= a && m <= b && (m == a || m == b)
  {
    if a < b then a else b
  }
}

/** Counting over a map: `Sum(m, f)` adds `f` over the values of `m`. */
module Sums {

  ghost function Sum<K, V>(m: map<K, V>, f: V -> nat): nat
    decreases |m|
  {
    if m == map[] then 0 else
    var k :| k in m;
    f(m[k]) + Sum(m - {k}, f)
  }

  /** The order in which `Sum` visits the keys does not matter. */
  lemma {:induction false} SumRemove<K, V>(m: map<K, V>, k: K, f: V -> nat)
    requires k in m
    ensures Sum(m, f) == f(m[k]) + Sum(m - {k}, f)
    decreases |m|
  {
    var c :| c in m && Sum(m, f) == f(m[c]) + Sum(m - {c}, f);
    if c != k {
      SumRemove(m - {c}, k, f);
      SumRemove(m - {k}, c, f);
      assert (m - {c}) - {k} == (m - {k}) - {c};
    }
  }

  /** Storing `v` under `k` replaces the contribution of `k`. */
  lemma SumUpdate<K, V>(m: map<K, V>, k: K, v: V, f: V -> nat)
    ensures Sum(m[k := v], f) + (if k in m then f(m[k]) else 0) == Sum(m, f) + f(v)
  {
    SumRemove(m[k := v], k, f);
    if k in m {
      SumRemove(m, k, f);
      assert m[k := v] - {k} == m - {k};
    } else {
      assert m[k := v] - {k} == m;
    }
  }

  /** A contribution is a lower bound of the sum. */
  lemma SumAtLeast<K, V>(m: map<K, V>, k: K, f: V -> nat)
    requires k in m
    ensures f(m[k]) <= Sum(m, f)
  {
    SumRemove(m, k, f);
  }

  /** So are two contributions together. */
  lemma SumAtLeastTwo<K, V>(m: map<K, V>, k: K, l: K, f: V -> nat)
    requires k in m && l in m && k != l
    ensures f(m[k]) + f(m[l]) <= Sum(m, f)
  {
    SumRemove(m, k, f);
    SumRemove(m - {k}, l, f);
  }

  lemma {:induction false} SumZero<K, V>(m: map<K, V>, f: V -> nat)
    requires forall k :: k in m ==> f(m[k]) == 0
    ensures Sum(m, f) == 0
    decreases |m|
  {
    if m != map[] {
      var k :| k in m && Sum(m, f) == f(m[k]) + Sum(m - {k}, f);
      SumZero(m - {k}, f);
    }
  }

  /** Equal contributions give equal sums. */
  lemma {:induction false} SumSame<K, V>(m: map<K, V>, n: map<K, V>, f: V -> nat)
    requires m.Keys == n.Keys
    requires forall k :: k in m ==> f(m[k]) == f(n[k])
    ensures Sum(m, f) == Sum(n, f)
    decreases |m|
  {
    if m == map[] {
      assert n == map[];
    } else {
      var k :| k in m && Sum(m, f) == f(m[k]) + Sum(m - {k}, f);
      SumRemove(n, k, f);
      SumSame(m - {k}, n - {k}, f);
    }
  }
}
