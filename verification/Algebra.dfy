/** Sums, products and powers over sequences, and their re-indexing by a permutation. */
module Algebra {

  // ---------- Powers ----------

  function Power(b: int, n: nat): (p: int) {
    if n == 0 then 1 else b * Power(b, n - 1)
  }

  lemma {:induction false} PowerAdd(b: int, m: nat, n: nat)
    ensures Power(b, m + n) == Power(b, m) * Power(b, n)
  {
    if m > 0 {
      PowerAdd(b, m - 1, n);
      Associate(b, Power(b, m - 1), Power(b, n));
    } else {
      assert Power(b, m) * Power(b, n) == Power(b, n);
    }
  }

  lemma Associate(a: int, b: int, c: int)
    ensures a * (b * c) == (a * b) * c
    ensures a * (b * c) == b * (a * c)
  {
  }

  lemma {:induction false} PowerSquare(b: int, n: nat)
    ensures Power(b * b, n) == Power(b, 2 * n)
  {
    if n > 0 {
      PowerSquare(b, n - 1);
      assert Power(b, 2 * n) == b * Power(b, 2 * n - 1);
      assert Power(b, 2 * n - 1) == b * Power(b, 2 * (n - 1));
      Associate(b, b, Power(b, 2 * (n - 1)));
    }
  }

  /** Square and multiply. */
  method FastPower(s: int, exponent: nat) returns (out: int)
    ensures out == Power(s, exponent)
  {
    out := 1;
    var b, n := s, exponent;
    assert Power(b, n) == 1 * Power(b, n);
    while n != 0
      invariant out * Power(b, n) == Power(s, exponent)
    {
      var half := n / 2;
      PowerSquare(b, half);
      if n % 2 != 0 {
        assert Power(b, n) == b * Power(b, 2 * half);
        Associate(out, b, Power(b, 2 * half));
        out := out * b;
      } else {
        assert n == 2 * half;
      }
      n := half;
      b := b * b;
    }
  }

  // ---------- Sums of products ----------

  /** The sum of the products of two sequences, from left to right. */
  function Dot(a: seq<int>, b: seq<int>): (s: int)
    requires |a| == |b|
  {
    if a == [] then 0 else Dot(a[..|a| - 1], b[..|b| - 1]) + a[|a| - 1] * b[|b| - 1]
  }

  lemma DotSnoc(a: seq<int>, b: seq<int>, i: nat)
    requires |a| == |b| && i < |a|
    ensures Dot(a[..i + 1], b[..i + 1]) == Dot(a[..i], b[..i]) + a[i] * b[i]
  {
    assert a[..i + 1][..i] == a[..i] && b[..i + 1][..i] == b[..i];
  }

  /** A sum of products is linear in its second factor. */
  lemma {:induction false} DotLinear(a: seq<int>, u: seq<int>, v: seq<int>, w: seq<int>, x: int, y: int)
    requires |a| == |u| == |v| == |w|
    requires forall i | 0 <= i < |a| :: w[i] == x * u[i] + y * v[i]
    ensures Dot(a, w) == x * Dot(a, u) + y * Dot(a, v)
  {
    if a != [] {
      var n := |a| - 1;
      DotLinear(a[..n], u[..n], v[..n], w[..n], x, y);
      Distribute(a[n], x, u[n], y, v[n]);
      var du, dv := Dot(a[..n], u[..n]), Dot(a[..n], v[..n]);
      assert x * (du + a[n] * u[n]) == x * du + x * (a[n] * u[n]);
      assert y * (dv + a[n] * v[n]) == y * dv + y * (a[n] * v[n]);
    }
  }

  lemma Distribute(a: int, x: int, u: int, y: int, v: int)
    ensures a * (x * u + y * v) == x * (a * u) + y * (a * v)
  {
    assert a * (x * u + y * v) == a * (x * u) + a * (y * v);
    Associate(a, x, u);
    Associate(a, y, v);
  }

  lemma {:induction false} DotCommutes(a: seq<int>, b: seq<int>)
    requires |a| == |b|
    ensures Dot(a, b) == Dot(b, a)
  {
    if a != [] {
      DotCommutes(a[..|a| - 1], b[..|b| - 1]);
    }
  }

  // ---------- Folding over an index sequence ----------

  datatype Fold = Adding | Multiplying

  function Unit(f: Fold): (u: int) { if f == Adding then 0 else 1 }

  function Combine(f: Fold, a: int, b: int): (c: int) { if f == Adding then a + b else a * b }

  /** The terms at the listed indices, added or multiplied from left to right. */
  function Over(f: Fold, terms: seq<int>, indices: seq<nat>): (t: int)
    requires forall i | 0 <= i < |indices| :: indices[i] < |terms|
  {
    if indices == [] then Unit(f)
    else
      var n := |indices| - 1;
      Combine(f, Over(f, terms, indices[..n]), terms[indices[n]])
  }

  lemma Swapped(f: Fold, a: int, b: int, c: int)
    ensures Combine(f, Combine(f, a, b), c) == Combine(f, Combine(f, a, c), b)
  {
    Associate(a, b, c);
    assert a * b * c == a * (b * c) && a * c * b == a * (c * b);
  }

  /** Taking one index out takes its term out. */
  lemma {:induction false} TakeOut(f: Fold, terms: seq<int>, indices: seq<nat>, k: nat)
    requires (forall i | 0 <= i < |indices| :: indices[i] < |terms|) && k < |indices|
    ensures Over(f, terms, indices)
      == Combine(f, Over(f, terms, indices[..k] + indices[k + 1..]), terms[indices[k]])
  {
    var n := |indices| - 1;
    var without := indices[..k] + indices[k + 1..];
    if k == n {
      assert without == indices[..n];
    } else {
      TakeOut(f, terms, indices[..n], k);
      assert without[..n - 1] == indices[..n][..k] + indices[..n][k + 1..];
      assert without[n - 1] == indices[n];
      Swapped(f, Over(f, terms, without[..n - 1]), terms[indices[k]], terms[indices[n]]);
    }
  }

  lemma Without(q: seq<nat>, k: nat)
    requires k < |q|
    ensures multiset(q[..k] + q[k + 1..]) == multiset(q) - multiset{q[k]}
  {
    assert q == q[..k] + [q[k]] + q[k + 1..];
  }

  lemma Find(q: seq<nat>, x: nat) returns (k: nat)
    requires x in multiset(q)
    ensures k < |q| && q[k] == x
  {
    k :| k < |q| && q[k] == x;
  }

  /** Only the multiset of indices matters. */
  lemma {:induction false} OverReordered(f: Fold, terms: seq<int>, p: seq<nat>, q: seq<nat>)
    requires multiset(p) == multiset(q)
    requires (forall i | 0 <= i < |p| :: p[i] < |terms|) && (forall i | 0 <= i < |q| :: q[i] < |terms|)
    ensures Over(f, terms, p) == Over(f, terms, q)
  {
    assert |multiset(p)| == |multiset(q)|;
    if p != [] {
      var n := |p| - 1;
      Without(p, n);
      assert p[..n] + p[n + 1..] == p[..n];
      var k := Find(q, p[n]);
      Without(q, k);
      hide Over;
      OverReordered(f, terms, p[..n], q[..k] + q[k + 1..]);
      TakeOut(f, terms, q, k);
      TakeOut(f, terms, p, n);
    }
  }

  // ---------- Permutations ----------

  function Iota(n: nat): (s: seq<nat>)
    ensures |s| == n && forall i | 0 <= i < n :: s[i] == i
  {
    seq(n, i => i)
  }

  /** Each index below the length, exactly once. */
  ghost predicate IsPermutation(perm: seq<nat>) { multiset(perm) == multiset(Iota(|perm|)) }

  lemma PermutationRange(perm: seq<nat>, i: nat)
    requires IsPermutation(perm) && i < |perm|
    ensures perm[i] < |perm|
  {
    assert perm[i] in multiset(perm);
    assert perm[i] in Iota(|perm|);
  }

  lemma PermutationDistinct(perm: seq<nat>, i: nat, j: nat)
    requires IsPermutation(perm) && i < j < |perm|
    ensures perm[i] != perm[j]
  {
    if perm[i] == perm[j] {
      var x := perm[i];
      PermutationRange(perm, i);
      TwiceIn(perm, i, j);
      OnceInIota(|perm|, x);
      assert false;
    }
  }

  lemma TwiceIn<T>(s: seq<T>, i: nat, j: nat)
    requires i < j < |s| && s[i] == s[j]
    ensures multiset(s)[s[i]] >= 2
  {
    assert s == s[..i] + [s[i]] + s[i + 1..j] + [s[j]] + s[j + 1..];
    assert multiset(s) == multiset(s[..i]) + multiset{s[i]} + multiset(s[i + 1..j]) + multiset{s[j]}
      + multiset(s[j + 1..]);
  }

  predicate Distinct(s: seq<nat>) { forall i, j | 0 <= i < j < |s| :: s[i] != s[j] }

  lemma OnceIn(s: seq<nat>, k: nat)
    requires k < |s| && Distinct(s)
    ensures multiset(s)[s[k]] == 1
  {
    assert s == s[..k] + [s[k]] + s[k + 1..];
    assert s[k] !in s[..k] && s[k] !in s[k + 1..];
  }

  lemma {:induction false} OnceInIota(n: nat, x: nat)
    requires x < n
    ensures multiset(Iota(n))[x] == 1
  {
    var s := Iota(n);
    assert s == s[..n - 1] + [s[n - 1]];
    assert s[..n - 1] == Iota(n - 1);
    if x < n - 1 {
      OnceInIota(n - 1, x);
    } else {
      NotInIota(n - 1, x);
    }
  }

  lemma NotInIota(n: nat, x: nat)
    requires x >= n
    ensures multiset(Iota(n))[x] == 0
  {
    assert x !in Iota(n);
  }

  /** A sum or product re-indexed by a permutation is unchanged. */
  lemma Reindexed(f: Fold, terms: seq<int>, perm: seq<nat>)
    requires IsPermutation(perm) && |perm| == |terms|
    ensures forall i | 0 <= i < |perm| :: perm[i] < |terms|
    ensures Over(f, terms, perm) == Over(f, terms, Iota(|terms|))
  {
    forall i | 0 <= i < |perm| ensures perm[i] < |terms| {
      PermutationRange(perm, i);
    }
    OverReordered(f, terms, perm, Iota(|terms|));
  }

  /** A sum of products whose second factor is picked by indices is a sum over those indices. */
  lemma {:induction false} DotIsOver(a: seq<int>, b: seq<int>, terms: seq<int>, indices: seq<nat>)
    requires |a| == |b| == |indices| && forall i | 0 <= i < |indices| :: indices[i] < |terms|
    requires forall i | 0 <= i < |a| :: a[i] * b[i] == terms[indices[i]]
    ensures Dot(a, b) == Over(Adding, terms, indices)
  {
    if a != [] {
      var n := |a| - 1;
      DotIsOver(a[..n], b[..n], terms, indices[..n]);
    }
  }
}
