/** Sequences without repetition, maps without a key, and how many elements sets have. */
module Collections {

  predicate Distinct<T(==)>(xs: seq<T>) {
    forall i, j | 0 <= i < j < |xs| :: xs[i] != xs[j]
  }

  function Members<T(==)>(xs: seq<T>): set<T> {
    set x | x in xs
  }

  function Without<T>(m: map<nat, T>, k: nat): map<nat, T> {
    map x | x in m && x != k :: m[x]
  }

  lemma WithoutShrinks<T>(m: map<nat, T>, k: nat)
    requires k in m
    ensures |Without(m, k)| < |m|
  {
    assert Without(m, k).Keys == m.Keys - {k};
    assert |Without(m, k)| == |Without(m, k).Keys| && |m| == |m.Keys|;
  }

  lemma {:induction false} MembersCard<T>(xs: seq<T>)
    requires Distinct(xs)
    ensures |Members(xs)| == |xs|
  {
    if |xs| > 0 {
      var n := |xs| - 1;
      MembersCard(xs[..n]);
      assert xs[n] !in xs[..n];
      assert Members(xs) == Members(xs[..n]) + {xs[n]};
    }
  }

  lemma MiddleOut<T>(xs: seq<T>, ys: seq<T>, zs: seq<T>)
    ensures multiset(xs + ys + zs) == multiset(xs + zs) + multiset(ys)
  {
    assert multiset(xs + ys + zs) == multiset(xs) + multiset(ys) + multiset(zs);
  }

  lemma CardGrows<T>(xs: set<T>, ys: set<T>)
    requires xs <= ys
    ensures |xs| <= |ys|
  {
    assert ys == xs + (ys - xs);
  }

  lemma {:induction false} CardInjection(xs: set<nat>, ys: set<nat>, f: map<nat, nat>)
    requires xs <= f.Keys
    requires forall x | x in xs :: f[x] in ys
    requires forall x, y | x in xs && y in xs && f[x] == f[y] :: x == y
    ensures |xs| <= |ys|
  {
    if xs != {} {
      var x :| x in xs;
      CardInjection(xs - {x}, ys - {f[x]}, f);
    }
  }

  lemma Sole<T>(xs: set<T>, x: T)
    requires x in xs && |xs| <= 1
    ensures xs == {x} && |xs| == 1
  {
    assert xs == {x} + (xs - {x});
    assert |xs| == 1 + |xs - {x}|;
  }

  /** A number that no key reaches. */
  lemma {:induction false} FreshKey<T>(m: map<nat, T>) returns (k: nat)
    ensures k !in m && forall x | x in m :: x < k
    decreases |m|
  {
    k := 0;
    if m != map[] {
      var x :| x in m;
      var rest := Without(m, x);
      assert rest.Keys == m.Keys - {x};
      assert |rest| == |rest.Keys| < |m.Keys|;
      k := FreshKey(rest);
      assert forall y | y in m && y != x :: y in rest;
      if k <= x {
        k := x + 1;
      }
    } else {
      assert m.Keys == {};
    }
  }

  lemma OneMore(n: nat, b: nat)
    ensures (n + 1) * b == n * b + b
  {
  }

  lemma Overshoots(w: nat, b: nat)
    requires b > 0
    ensures w < (w / b + 1) * b
  {
  }

  lemma Overshoot(w: nat, b: nat, n: nat)
    requires 0 < b && w / b < n
    ensures w < n * b
  {
    Overshoots(w, b);
    assert n * b >= (w / b + 1) * b;
  }
}
