/** Why the product argument convinces: a recurrence answered from fixed openings under enough challenges
    multiplies up. */
module ProductSoundness {
  import opened Algebra
  import opened Groups
  import opened Polynomials

  /** One set of answers: the factors on the line d + x a, the recurrence's cross terms on the line s + x w, the ends
      tied to the first factor and to the claimed product. */
  predicate Follows(q: nat, d: seq<Scalar>, a: seq<Scalar>, s: seq<Scalar>, w: seq<Scalar>, x: Scalar,
                    aTilde: seq<Scalar>, bTilde: seq<Scalar>, product: Scalar)
    requires q > 0
  {
    var n := |a|;
    && n > 0 && |d| == |s| == |w| == |aTilde| == |bTilde| == n
    && (forall i | 0 <= i < n :: Same(q, aTilde[i], d[i] + x * a[i]))
    && (forall i | 0 <= i < n - 1 :: Same(q, x * bTilde[i + 1] - bTilde[i] * aTilde[i + 1], s[i] + x * w[i]))
    && Same(q, bTilde[0], aTilde[0]) && Same(q, bTilde[n - 1], x * product)
  }

  /** The recurrence unrolled: what x^i times the i-th answer is, as a polynomial in the challenge x. */
  function Chain(d: seq<Scalar>, a: seq<Scalar>, s: seq<Scalar>, w: seq<Scalar>, i: nat): (p: Poly)
    requires i < |a| && |d| == |a| == |s| == |w|
    ensures |p| == i + 2
  {
    if i == 0 then [d[0], a[0]]
    else
      var t := Times(Chain(d, a, s, w, i - 1), d[i], a[i]);
      var u := t[i - 1 := t[i - 1] + s[i - 1]];
      u[i := u[i] + w[i - 1]]
  }

  lemma {:induction false} ChainLast(d: seq<Scalar>, a: seq<Scalar>, s: seq<Scalar>, w: seq<Scalar>, i: nat)
    requires i < |a| && |d| == |a| == |s| == |w|
    ensures Chain(d, a, s, w, i)[i + 1] == Over(Multiplying, a, Iota(i + 1))
  {
    assert Iota(i + 1)[..i] == Iota(i);
    if i > 0 {
      ChainLast(d, a, s, w, i - 1);
      TimesLast(Chain(d, a, s, w, i - 1), d[i], a[i]);
    } else {
      assert Over(Multiplying, a, Iota(0)) == 1;
    }
  }

  lemma ChainStepEval(d: seq<Scalar>, a: seq<Scalar>, s: seq<Scalar>, w: seq<Scalar>, i: nat, x: Scalar)
    requires 0 < i < |a| && |d| == |a| == |s| == |w|
    ensures var e, p := Eval(Chain(d, a, s, w, i - 1), x), Power(x, i - 1);
      Eval(Chain(d, a, s, w, i), x) == (d[i] + x * a[i]) * e + s[i - 1] * p + w[i - 1] * (x * p)
  {
    hide Eval, Times;
    var c := Chain(d, a, s, w, i - 1);
    var t := Times(c, d[i], a[i]);
    var u := t[i - 1 := t[i - 1] + s[i - 1]];
    TimesEval(c, d[i], a[i], x);
    RaisedEval(t, i - 1, s[i - 1], x);
    RaisedEval(u, i, w[i - 1], x);
    assert d[i] + a[i] * x == d[i] + x * a[i];
  }

  lemma {:induction false} ChainFollows(q: nat, d: seq<Scalar>, a: seq<Scalar>, s: seq<Scalar>, w: seq<Scalar>,
                                        x: Scalar, aTilde: seq<Scalar>, bTilde: seq<Scalar>, product: Scalar, i: nat)
    requires q > 0 && Follows(q, d, a, s, w, x, aTilde, bTilde, product) && i < |a|
    ensures Same(q, Power(x, i) * bTilde[i], Eval(Chain(d, a, s, w, i), x))
  {
    hide Same, Eval;
    if i == 0 {
      FirstInChain(d, a, s, w, x);
      Transitive(q, bTilde[0], aTilde[0], d[0] + x * a[0]);
      assert Power(x, 0) * bTilde[0] == bTilde[0];
    } else {
      ChainFollows(q, d, a, s, w, x, aTilde, bTilde, product, i - 1);
      ChainStepEval(d, a, s, w, i, x);
      assert Same(q, x * bTilde[i - 1 + 1] - bTilde[i - 1] * aTilde[i - 1 + 1], s[i - 1] + x * w[i - 1]);
      ChainStep(q, Power(x, i - 1), x, bTilde[i - 1], bTilde[i], aTilde[i], Eval(Chain(d, a, s, w, i - 1), x),
                d[i] + x * a[i],
                s[i - 1], w[i - 1]);
    }
  }

  lemma FirstInChain(d: seq<Scalar>, a: seq<Scalar>, s: seq<Scalar>, w: seq<Scalar>, x: Scalar)
    requires |d| == |a| == |s| == |w| > 0
    ensures Eval(Chain(d, a, s, w, 0), x) == d[0] + x * a[0]
  {
    var p := [d[0], a[0]];
    assert p[1..] == [a[0]] && [a[0]][1..] == [];
    assert Eval([a[0]], x) == a[0] + x * Eval([], x);
  }

  lemma ChainStep(q: nat, p: int, x: int, b0: int, b1: int, at: int, e: int, f: int, s: int, w: int)
    requires q > 0 && Same(q, x * b1 - b0 * at, s + x * w) && Same(q, p * b0, e) && Same(q, at, f)
    ensures Same(q, x * p * b1, f * e + s * p + w * (x * p))
  {
    hide Same;
    CrossAdded(q, x * b1, b0 * at, s + x * w, p);
    SameProducts(q, p * b0, e, at, f);
    var m := s * p + w * (x * p);
    Reflexive(q, m);
    SameSums(q, m, m, p * b0 * at, e * f);
    ChainAlgebra(p, x, b0, b1, at, s, w);
    assert e * f == f * e;
    Transitive(q, x * p * b1, m + p * b0 * at, m + e * f);
  }

  lemma CrossAdded(q: nat, a: int, b: int, c: int, p: int)
    requires q > 0 && Same(q, a - b, c)
    ensures Same(q, p * a, p * (c + b))
  {
    hide Same;
    Reflexive(q, b);
    SameSums(q, a - b, c, b, b);
    SameMultiples(q, a, c + b, p);
  }

  lemma ChainAlgebra(p: int, x: int, b0: int, b1: int, at: int, s: int, w: int)
    ensures p * (x * b1) == x * p * b1
    ensures p * (s + x * w + b0 * at) == s * p + w * (x * p) + p * b0 * at
  {
    Associate(x, p, b1);
    Associate(w, x, p);
    Associate(p, b0, at);
    Associate(p, x, w);
    assert p * (s + x * w + b0 * at) == p * s + p * (x * w) + p * (b0 * at) by { Spread(p, s, x * w, b0 * at); }
  }

  lemma Spread(p: int, a: int, b: int, c: int)
    ensures p * (a + b + c) == p * a + p * b + p * c
  {
  }

  lemma ClaimedIsRoot(q: nat, d: seq<Scalar>, a: seq<Scalar>, s: seq<Scalar>, w: seq<Scalar>, x: Scalar,
                      aTilde: seq<Scalar>, bTilde: seq<Scalar>, product: Scalar)
    requires q > 0 && Follows(q, d, a, s, w, x, aTilde, bTilde, product)
    ensures var c := Chain(d, a, s, w, |a| - 1);
      IsZero(q, Eval(c[|a| := c[|a|] + -product], x))
  {
    hide Same, Eval, Chain, IsZero;
    var n := |a|;
    var c := Chain(d, a, s, w, n - 1);
    ChainFollows(q, d, a, s, w, x, aTilde, bTilde, product, n - 1);
    RaisedEval(c, n, -product, x);
    var p := Power(x, n - 1);
    SameMultiples(q, bTilde[n - 1], x * product, p);
    assert p * (x * product) == product * Power(x, n) by {
      Associate(p, x, product);
      assert p * x == Power(x, n);
      assert Power(x, n) * product == product * Power(x, n);
    }
    SameTwice(q, p * bTilde[n - 1], Eval(c, x), product * Power(x, n));
    ZeroDifference(q, Eval(c, x), product * Power(x, n));
    assert -product * Power(x, n) == -(product * Power(x, n));
    assert IsZero(q, Eval(c, x) - product * Power(x, n)) by { ZeroIs(q, Eval(c, x) - product * Power(x, n)); }
  }

  lemma ZeroIs(q: nat, a: int)
    requires q > 0 && a % q == 0
    ensures IsZero(q, a)
  {
  }

  /** Answered under one more challenge than there are factors, the claimed product is the factors' product. */
  lemma FactorsMultiply(q: nat, d: seq<Scalar>, a: seq<Scalar>, s: seq<Scalar>, w: seq<Scalar>, xs: seq<Scalar>,
                        aTildes: seq<seq<Scalar>>, bTildes: seq<seq<Scalar>>, product: Scalar)
    requires PrimeOrder(q) && |a| > 0 && |d| == |a| == |s| == |w|
    requires |xs| == |aTildes| == |bTildes| == |a| + 1 && Apart(q, xs)
    requires forall k | 0 <= k < |xs| :: Follows(q, d, a, s, w, xs[k], aTildes[k], bTildes[k], product)
    ensures Same(q, Over(Multiplying, a, Iota(|a|)), product)
  {
    hide PrimeOrder, Follows, Chain, Eval, Over, Same;
    PrimeIsPositive(q);
    var n := |a|;
    var c := Chain(d, a, s, w, n - 1);
    var p := c[n := c[n] + -product];
    forall k | 0 <= k < |xs|
      ensures IsZero(q, Eval(p, xs[k]))
    {
      ClaimedIsRoot(q, d, a, s, w, xs[k], aTildes[k], bTildes[k], product);
    }
    FewRoots(q, p, xs);
    ChainLast(d, a, s, w, n - 1);
    ZeroDifference(q, Over(Multiplying, a, Iota(n)), product);
    assert IsZero(q, p[n]);
  }
}
