/** Why the product argument is about a permutation: values whose differences multiply to the public product, for enough
    points, are the positions and their powers in some order. */
module PermutationSoundness {
  import opened Algebra
  import opened Groups
  import opened Polynomials
  import BayerGroth

  // ---------- Counting ----------

  lemma DistinctIsPermutation(s: seq<nat>)
    requires Distinct(s) && forall i | 0 <= i < |s| :: s[i] < |s|
    ensures IsPermutation(s)
  {
    var all: multiset<nat> := multiset(Iota(|s|));
    forall x: nat
      ensures multiset(s)[x] <= all[x]
    {
      if x in s {
        var k :| 0 <= k < |s| && s[k] == x;
        OnceIn(s, k);
        OnceInIota(|s|, x);
      }
    }
    assert multiset(s) <= all;
    var rest := all - multiset(s);
    assert all == multiset(s) + rest;
    assert |rest| == |all| - |multiset(s)| == 0;
    assert rest == multiset{};
  }

  /** More values than places: two share one. */
  lemma Collide(f: seq<nat>, n: nat) returns (i: nat, j: nat)
    requires |f| == n + 1 && forall k | 0 <= k <= n :: f[k] < n
    ensures i < j < |f| && f[i] == f[j]
  {
    var g := f[..n];
    if Distinct(g) {
      DistinctIsPermutation(g);
      assert f[n] in multiset(Iota(n)) by {
        assert Iota(n)[f[n]] == f[n];
      }
      i := Find(g, f[n]);
      j := n;
    } else {
      i, j :| 0 <= i < j < n && g[i] == g[j];
    }
  }

  // ---------- Factors as differences ----------

  /** y times one value plus another, less what the point takes away. */
  function Mixed(pi: seq<Scalar>, chi: seq<Scalar>, y: Scalar): (s: seq<Scalar>)
    requires |pi| == |chi|
    ensures |s| == |pi| && forall i | 0 <= i < |s| :: s[i] == y * pi[i] + chi[i]
  {
    seq(|pi|, i requires 0 <= i < |pi| => y * pi[i] + chi[i])
  }

  function PublicMixed(x: Scalar, y: Scalar, n: nat): (s: seq<Scalar>)
    ensures |s| == n && forall i | 0 <= i < n :: s[i] == y * (i + 1) + Power(x, i + 1)
  {
    seq(n, i requires 0 <= i < n => y * (i + 1) + Power(x, i + 1))
  }

  lemma {:induction false} OverIsGaps(terms: seq<int>, a: seq<int>, z: int)
    requires |terms| == |a| && forall i | 0 <= i < |a| :: terms[i] == a[i] - z
    ensures Over(Multiplying, terms, Iota(|a|)) == Gaps(a, z)
  {
    if a != [] {
      var n := |a| - 1;
      OverIsGaps(terms[..n], a[..n], z);
      assert Iota(n + 1)[..n] == Iota(n);
      BayerGroth.PrefixProduct(terms, terms[..n], n);
    }
  }

  /** At every point the values' differences multiply to the public ones'. */
  predicate GapsAgree(q: nat, pi: seq<Scalar>, chi: seq<Scalar>, x: Scalar, y: Scalar, zs: seq<Scalar>)
    requires q > 0 && |pi| == |chi|
  {
    forall k | 0 <= k < |zs| :: Same(q, Gaps(PublicMixed(x, y, |pi|), zs[k]), Gaps(Mixed(pi, chi, y), zs[k]))
  }

  /** The product equation at one point, in these terms. */
  lemma ProductIsGaps(q: nat, pi: seq<Scalar>, chi: seq<Scalar>, x: Scalar, y: Scalar, z: Scalar, a: seq<Scalar>)
    requires q > 0 && |pi| == |chi| == |a| && forall i | 0 <= i < |a| :: Same(q, a[i], y * pi[i] + chi[i] - z)
    requires Same(q, Over(Multiplying, a, Iota(|a|)), Over(Multiplying, BayerGroth.Factors(x, y, z, |a|), Iota(|a|)))
    ensures Same(q, Gaps(PublicMixed(x, y, |pi|), z), Gaps(Mixed(pi, chi, y), z))
  {
    hide Power, Over, Gaps, Same;
    var n := |a|;
    OverIsGaps(BayerGroth.Factors(x, y, z, n), PublicMixed(x, y, n), z);
    var exact := seq(n, i requires 0 <= i < n => Mixed(pi, chi, y)[i] - z);
    OverIsGaps(exact, Mixed(pi, chi, y), z);
    SameTerms(q, a, exact);
    SameTwice(q, Over(Multiplying, a, Iota(n)), Gaps(PublicMixed(x, y, n), z), Gaps(Mixed(pi, chi, y), z));
  }

  lemma {:induction false} SameTerms(q: nat, a: seq<int>, b: seq<int>)
    requires q > 0 && |a| == |b| && forall i | 0 <= i < |a| :: Same(q, a[i], b[i])
    ensures Same(q, Over(Multiplying, a, Iota(|a|)), Over(Multiplying, b, Iota(|a|)))
  {
    hide Same;
    if a != [] {
      var n := |a| - 1;
      SameTerms(q, a[..n], b[..n]);
      assert Iota(n + 1)[..n] == Iota(n);
      BayerGroth.PrefixProduct(a, a[..n], n);
      BayerGroth.PrefixProduct(b, b[..n], n);
      SameProducts(q, Over(Multiplying, a[..n], Iota(n)), Over(Multiplying, b[..n], Iota(n)), a[n], b[n]);
    } else {
      assert Same(q, 1, 1) by { Reflexive(q, 1); }
    }
  }

  // ---------- Finding the permutation ----------

  /** Enough answered points: one more y than places, and for each as many z as places. */
  predicate Answered(q: nat, pi: seq<Scalar>, chi: seq<Scalar>, x: Scalar, ys: seq<Scalar>, zss: seq<seq<Scalar>>)
    requires q > 0
  {
    && |pi| == |chi| && |ys| == |zss| == |pi| + 1 && Apart(q, ys)
    && forall k | 0 <= k < |ys| :: |zss[k]| >= |pi| && Apart(q, zss[k]) && GapsAgree(q, pi, chi, x, ys[k], zss[k])
  }

  /** The place `i` holds the j-th public value, for this y. */
  predicate Matches(q: nat, pi: seq<Scalar>, chi: seq<Scalar>, x: Scalar, y: Scalar, i: nat, j: nat)
    requires q > 0
  {
    i < |pi| == |chi| && Same(q, y * pi[i] + chi[i], y * (j + 1) + Power(x, j + 1))
  }

  /** For one y, some place holds the j-th public value. */
  lemma PlaceFor(q: nat, pi: seq<Scalar>, chi: seq<Scalar>, x: Scalar, y: Scalar, zs: seq<Scalar>, j: nat)
    returns (i: nat)
    requires PrimeOrder(q) && |pi| == |chi| <= |zs| && Apart(q, zs) && GapsAgree(q, pi, chi, x, y, zs) && j < |pi|
    ensures Matches(q, pi, chi, x, y, i, j)
  {
    hide PrimeOrder, Gaps, Power;
    i := SharedElement(q, PublicMixed(x, y, |pi|), Mixed(pi, chi, y), zs, j);
  }

  /** Two different y at the same place pin both of its values. */
  lemma MatchedTwice(q: nat, pi: seq<Scalar>, chi: seq<Scalar>, x: Scalar, y: Scalar, y': Scalar, i: nat, j: nat)
    requires PrimeOrder(q) && !Same(q, y, y') && Matches(q, pi, chi, x, y, i, j) && Matches(q, pi, chi, x, y', i, j)
    ensures i < |pi| == |chi| && Same(q, pi[i], j + 1) && Same(q, chi[i], Power(x, j + 1))
  {
    hide PrimeOrder, Same, Power;
    PrimeIsPositive(q);
    TwoPin(q, y, y', pi[i], chi[i], j + 1, Power(x, j + 1));
  }

  lemma TwoPin(q: nat, y: Scalar, y': Scalar, p: Scalar, c: Scalar, j: Scalar, w: Scalar)
    requires PrimeOrder(q) && !Same(q, y, y') && Same(q, y * p + c, y * j + w) && Same(q, y' * p + c, y' * j + w)
    ensures Same(q, p, j) && Same(q, c, w)
  {
    hide PrimeOrder, Same;
    PrimeIsPositive(q);
    SameSums(q, y * p + c, y * j + w, y' * p + c, y' * j + w);
    var d := y - y';
    assert y * p + c - (y' * p + c) == d * p && y * j + w - (y' * j + w) == d * j by {
      assert d * p == y * p - y' * p && d * j == y * j - y' * j;
    }
    ZeroDifference(q, d * p, d * j);
    assert d * p - d * j == d * (p - j);
    ZeroDifference(q, y, y');
    ZeroProduct(q, d, p - j);
    ZeroDifference(q, p, j);
    SameMultiples(q, p, j, y);
    SameSums(q, y * p + c, y * j + w, y * p, y * j);
  }

  /** Each position and its power are held somewhere. */
  lemma HeldSomewhere(q: nat, pi: seq<Scalar>, chi: seq<Scalar>, x: Scalar, ys: seq<Scalar>, zss: seq<seq<Scalar>>,
                      j: nat)
    returns (i: nat)
    requires PrimeOrder(q) && Answered(q, pi, chi, x, ys, zss) && j < |pi|
    ensures i < |pi| && Same(q, pi[i], j + 1) && Same(q, chi[i], Power(x, j + 1))
  {
    hide PrimeOrder, GapsAgree, Matches, Power, Same, Apart;
    PrimeIsPositive(q);
    var n := |pi|;
    var f: seq<nat> := [];
    while |f| <= n
      invariant |f| <= n + 1 && forall k | 0 <= k < |f| :: f[k] < n && Matches(q, pi, chi, x, ys[k], f[k], j)
      decreases n + 1 - |f|
    {
      var k := |f|;
      var at := PlaceFor(q, pi, chi, x, ys[k], zss[k], j);
      MatchedIsPlace(q, pi, chi, x, ys[k], at, j);
      f := f + [at];
    }
    var k, l := Collide(f, n);
    i := f[k];
    AreApart(q, ys, k, l);
    MatchedTwice(q, pi, chi, x, ys[k], ys[l], i, j);
  }

  lemma MatchedIsPlace(q: nat, pi: seq<Scalar>, chi: seq<Scalar>, x: Scalar, y: Scalar, i: nat, j: nat)
    requires q > 0 && Matches(q, pi, chi, x, y, i, j)
    ensures i < |pi|
  {
  }

  lemma AreApart(q: nat, s: seq<int>, i: nat, j: nat)
    requires q > 0 && Apart(q, s) && i < j < |s|
    ensures !Same(q, s[i], s[j])
  {
  }

  lemma SmallAreApart(q: nat, p: Scalar, i: nat, j: nat)
    requires i < q && j < q && Same(q, p, i) && Same(q, p, j)
    ensures i == j
  {
    Residue(q, 0, i);
    Residue(q, 0, j);
  }

  /** The committed values are the positions, from one, and their powers, permuted. */
  predicate ArePermuted(q: nat, pi: seq<Scalar>, chi: seq<Scalar>, x: Scalar, perm: seq<nat>)
    requires q > 0
  {
    && |pi| == |chi| == |perm|
    && forall i | 0 <= i < |perm| ::
      perm[i] < |perm| && Same(q, pi[i], perm[i] + 1) && Same(q, chi[i], Power(x, perm[i] + 1))
  }

  lemma PermutationHeld(q: nat, pi: seq<Scalar>, chi: seq<Scalar>, x: Scalar, ys: seq<Scalar>, zss: seq<seq<Scalar>>)
    returns (perm: seq<nat>)
    requires PrimeOrder(q) && q > |pi| && Answered(q, pi, chi, x, ys, zss)
    ensures IsPermutation(perm) && ArePermuted(q, pi, chi, x, perm)
  {
    hide PrimeOrder, Answered, Power, Same, IsPermutation;
    var n := |pi|;
    AnsweredSizes(q, pi, chi, x, ys, zss);
    var places: seq<nat> := [];
    while |places| < n
      invariant |places| <= n && forall j | 0 <= j < |places| ::
        places[j] < n && Same(q, pi[places[j]], j + 1) && Same(q, chi[places[j]], Power(x, j + 1))
    {
      var i := HeldSomewhere(q, pi, chi, x, ys, zss, |places|);
      places := places + [i];
    }
    forall i, j | 0 <= i < j < n
      ensures places[i] != places[j]
    {
      if places[i] == places[j] {
        SmallAreApart(q, pi[places[i]], i + 1, j + 1);
      }
    }
    DistinctIsPermutation(places);
    perm := Inverted(places);
  }

  lemma AnsweredSizes(q: nat, pi: seq<Scalar>, chi: seq<Scalar>, x: Scalar, ys: seq<Scalar>, zss: seq<seq<Scalar>>)
    requires q > 0 && Answered(q, pi, chi, x, ys, zss)
    ensures |pi| == |chi|
  {
  }

  /** The inverse of a permutation. */
  lemma Inverted(places: seq<nat>) returns (perm: seq<nat>)
    requires IsPermutation(places)
    ensures IsPermutation(perm) && |perm| == |places|
    ensures forall i | 0 <= i < |perm| :: perm[i] < |places| && places[perm[i]] == i
  {
    var n := |places|;
    perm := [];
    while |perm| < n
      invariant |perm| <= n && forall i | 0 <= i < |perm| :: perm[i] < n && places[perm[i]] == i
    {
      assert |perm| in multiset(Iota(n)) by {
        assert Iota(n)[|perm|] == |perm|;
      }
      var j := Find(places, |perm|);
      perm := perm + [j];
    }
    forall i, j | 0 <= i < j < n
      ensures perm[i] != perm[j]
    {
      assert places[perm[i]] == i && places[perm[j]] == j;
    }
    DistinctIsPermutation(perm);
  }
}
