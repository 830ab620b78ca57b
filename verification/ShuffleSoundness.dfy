/** Why an accepted shuffle is a shuffle: from enough accepted answers to one prover's first messages, either the
    permutation and the masks, or two different openings of one of its commitments. */
module ShuffleSoundness {
  import opened Algebra
  import opened Groups
  import opened BayerGroth
  import opened Polynomials
  import opened PermutationSoundness

  /** Each card of `next` is, modulo the group order, a card of `prev` masked again under the key. */
  ghost predicate ShuffledModulo(q: nat, key: Point, prev: Deck, next: Deck, perm: seq<nat>, rho: seq<Scalar>)
    requires q > 0
  {
    && |prev| == |next| == |perm| == |rho| && IsPermutation(perm)
    && (forall i | 0 <= i < |perm| :: perm[i] < |prev|)
    && (forall i | 0 <= i < |perm| ::
          SameCard(q, next[i], Card(prev[perm[i]].c1 + rho[i], prev[perm[i]].c2 + key * rho[i])))
  }

  // ---------- Masks from re-encryptions ----------

  /** The weighted predecessor is a re-encryption, by one mask, of the successor under the exponents. */
  predicate Reencrypts(q: nat, key: Point, prev: Deck, next: Deck, x: Scalar, e: seq<Scalar>, tau: Scalar)
    requires q > 0
  {
    && |prev| == |next| == |e|
    && Same(q, Dot(Firsts(prev), Weights(x, |prev|)), tau + Dot(Firsts(next), e))
    && Same(q, Dot(Seconds(prev), Weights(x, |prev|)), key * tau + Dot(Seconds(next), e))
  }

  function Less(u: seq<int>, v: seq<int>): (d: seq<int>)
    requires |u| == |v|
    ensures |d| == |u| && forall i | 0 <= i < |d| :: d[i] == u[i] - v[i]
  {
    seq(|u|, i requires 0 <= i < |u| => u[i] - v[i])
  }

  function Beyond(key: Point, first: seq<int>, second: seq<int>): (d: seq<int>)
    requires |first| == |second|
    ensures |d| == |first| && forall i | 0 <= i < |d| :: d[i] == second[i] - key * first[i]
  {
    seq(|first|, i requires 0 <= i < |first| => second[i] - key * first[i])
  }

  /** What the second coordinate of each card changes by beyond the key's share of the first. */
  function Excess(key: Point, prev: Deck, next: Deck, perm: seq<nat>): (d: seq<int>)
    requires |prev| == |next| == |perm| && forall i | 0 <= i < |perm| :: perm[i] < |prev|
    ensures |d| == |next|
  {
    Beyond(key, Less(Firsts(next), Picked(Firsts(prev), perm)), Less(Seconds(next), Picked(Seconds(prev), perm)))
  }

  lemma {:induction false} DotSame(q: nat, a: seq<int>, e: seq<int>, f: seq<int>)
    requires q > 0 && |a| == |e| == |f| && forall i | 0 <= i < |e| :: Same(q, e[i], f[i])
    ensures Same(q, Dot(a, e), Dot(a, f))
  {
    hide Same;
    if a != [] {
      var n := |a| - 1;
      DotSame(q, a[..n], e[..n], f[..n]);
      SameMultiples(q, e[n], f[n], a[n]);
      SameSums(q, Dot(a[..n], e[..n]), Dot(a[..n], f[..n]), a[n] * e[n], a[n] * f[n]);
    } else {
      Reflexive(q, 0);
    }
  }

  lemma LessDot(u: seq<int>, v: seq<int>, a: seq<int>)
    requires |u| == |v| == |a|
    ensures Dot(Less(u, v), a) == Dot(u, a) - Dot(v, a)
  {
    hide Dot;
    forall i | 0 <= i < |u|
      ensures Less(u, v)[i] == 1 * u[i] + -1 * v[i]
    {
    }
    LinearFirst(a, u, v, Less(u, v), 1, -1);
  }

  lemma BeyondDot(key: Point, first: seq<int>, second: seq<int>, a: seq<int>)
    requires |first| == |second| == |a|
    ensures Dot(Beyond(key, first, second), a) == Dot(second, a) - key * Dot(first, a)
  {
    hide Dot;
    var d := Beyond(key, first, second);
    forall i | 0 <= i < |d|
      ensures d[i] == 1 * second[i] + -key * first[i]
    {
      Negated(key, first[i]);
    }
    LinearFirst(a, second, first, d, 1, -key);
    Negated(key, Dot(first, a));
  }

  lemma Negated(a: int, b: int)
    ensures -a * b == -(a * b)
  {
  }

  /** The excesses' sum under the permuted weights, from the four sums. */
  lemma ExcessDot(key: Point, prev: Deck, next: Deck, perm: seq<nat>, w: seq<int>)
    requires |prev| == |next| == |perm| == |w| && IsPermutation(perm) && forall i | 0 <= i < |perm| :: perm[i] < |prev|
    ensures Dot(Excess(key, prev, next, perm), Picked(w, perm))
      == Dot(Seconds(next), Picked(w, perm)) - Dot(Seconds(prev), w)
         - key * (Dot(Firsts(next), Picked(w, perm)) - Dot(Firsts(prev), w))
  {
    hide Dot, IsPermutation, Less, Beyond, Picked;
    var pw := Picked(w, perm);
    var a, b := Picked(Firsts(prev), perm), Picked(Seconds(prev), perm);
    LessDot(Firsts(next), a, pw);
    LessDot(Seconds(next), b, pw);
    BeyondDot(key, Less(Firsts(next), a), Less(Seconds(next), b), pw);
    DotPermuted(Firsts(prev), w, perm);
    DotPermuted(Seconds(prev), w, perm);
  }

  lemma LinearFirst(a: seq<int>, u: seq<int>, v: seq<int>, w: seq<int>, x: int, y: int)
    requires |a| == |u| == |v| == |w| && forall i | 0 <= i < |a| :: w[i] == x * u[i] + y * v[i]
    ensures Dot(w, a) == x * Dot(u, a) + y * Dot(v, a)
  {
    hide Dot;
    DotLinear(a, u, v, w, x, y);
    DotCommutes(a, u);
    DotCommutes(a, v);
    DotCommutes(a, w);
  }

  /** The excesses, placed by the power that weighs them, as a polynomial without constant. */
  function ExcessPoly(d: seq<int>, inverse: seq<nat>): (p: Poly)
    requires |inverse| == |d| && forall k | 0 <= k < |d| :: inverse[k] < |d|
    ensures |p| == |d| + 1 && p[0] == 0 && forall k | 0 <= k < |d| :: p[k + 1] == d[inverse[k]]
  {
    [0] + seq(|d|, k requires 0 <= k < |d| => d[inverse[k]])
  }

  lemma {:induction false} EvalIsDot(c: seq<int>, x: int)
    ensures Eval(c, x) * x == Dot(c, Weights(x, |c|))
    decreases |c|
  {
    hide Power, Eval, Dot;
    if c != [] {
      var n := |c| - 1;
      EvalIsDot(c[..n], x);
      EvalSnoc(c, x);
      WeightedSnoc(c, x);
      LastTerm(Eval(c[..n], x), c[n], x, n);
    } else {
      NothingToSum(x);
    }
  }

  lemma NothingToSum(x: int)
    ensures Eval([], x) * x == 0 == Dot([], Weights(x, 0))
  {
  }

  lemma WeightedSnoc(c: seq<int>, x: int)
    requires c != []
    ensures Dot(c, Weights(x, |c|)) == Dot(c[..|c| - 1], Weights(x, |c| - 1)) + c[|c| - 1] * Power(x, |c|)
  {
    hide Power;
    assert Weights(x, |c|)[..|c| - 1] == Weights(x, |c| - 1);
  }

  lemma LastTerm(e: int, c: int, x: int, n: nat)
    ensures (e + c * Power(x, n)) * x == e * x + c * Power(x, n + 1)
  {
    assert (e + c * Power(x, n)) * x == e * x + c * Power(x, n) * x;
    NextPower(c, x, n);
  }

  lemma NextPower(c: int, x: int, n: nat)
    ensures c * Power(x, n) * x == c * Power(x, n + 1)
  {
    Associate(c, Power(x, n), x);
    assert Power(x, n) * x == x * Power(x, n);
  }

  lemma {:induction false} EvalSnoc(c: seq<int>, x: int)
    requires c != []
    ensures Eval(c, x) == Eval(c[..|c| - 1], x) + c[|c| - 1] * Power(x, |c| - 1)
  {
    var n := |c| - 1;
    if n == 0 {
      assert c[1..] == [] && c[..0] == [];
    } else {
      EvalSnoc(c[1..], x);
      assert c[1..][..n - 1] == c[..n][1..];
      var e, p := Eval(c[..n][1..], x), Power(x, n - 1);
      assert x * (e + c[n] * p) == x * e + x * (c[n] * p);
      Associate(c[n], x, p);
    }
  }

  /** Each re-encryption makes its base a root. */
  lemma BaseIsRoot(q: nat, key: Point, prev: Deck, next: Deck, perm: seq<nat>, inverse: seq<nat>, x: Scalar,
                   e: seq<Scalar>, tau: Scalar)
    requires q > 0 && Reencrypts(q, key, prev, next, x, e, tau) && IsPermutation(perm) && |perm| == |prev| == |inverse|
    requires forall i | 0 <= i < |perm| :: perm[i] < |prev| && Same(q, e[i], Power(x, perm[i] + 1))
    requires forall k | 0 <= k < |inverse| :: inverse[k] < |perm| && perm[inverse[k]] == k
    ensures IsZero(q, Eval(ExcessPoly(Excess(key, prev, next, perm), inverse), x))
  {
    hide Dot, IsPermutation, Same, Power, Eval, Excess, ExcessPoly, Picked, Weights;
    var n := |prev|;
    var d := Excess(key, prev, next, perm);
    var w := Weights(x, n);
    var pw := Picked(w, perm);
    ExcessDot(key, prev, next, perm, w);
    PolyIsDot(d, perm, inverse, x);
    forall i | 0 <= i < n
      ensures Same(q, e[i], pw[i])
    {
      assert pw[i] == w[perm[i]] == Power(x, perm[i] + 1);
    }
    DotSame(q, Firsts(next), e, pw);
    DotSame(q, Seconds(next), e, pw);
    Cancels(q, key, tau, Dot(Firsts(prev), w), Dot(Firsts(next), e), Dot(Firsts(next), pw), Dot(Seconds(prev), w),
            Dot(Seconds(next), e), Dot(Seconds(next), pw));
  }

  lemma PolyIsDot(d: seq<int>, perm: seq<nat>, inverse: seq<nat>, x: Scalar)
    requires |d| == |perm| == |inverse| && IsPermutation(perm) && forall i | 0 <= i < |perm| :: perm[i] < |d|
    requires forall k | 0 <= k < |inverse| :: inverse[k] < |perm| && perm[inverse[k]] == k
    ensures Eval(ExcessPoly(d, inverse), x) == Dot(d, Picked(Weights(x, |d|), perm))
  {
    hide Dot, Eval, Power;
    var p := ExcessPoly(d, inverse);
    var c := p[1..];
    assert Eval(p, x) == Eval(c, x) * x by { ConstantFree(p, x); }
    EvalIsDot(c, x);
    forall i | 0 <= i < |d|
      ensures Picked(c, perm)[i] == d[i]
    {
      InverseBack(perm, inverse, i);
    }
    assert Picked(c, perm) == d;
    DotPermuted(c, Weights(x, |d|), perm);
  }

  lemma ConstantFree(p: Poly, x: int)
    requires p != [] && p[0] == 0
    ensures Eval(p, x) == Eval(p[1..], x) * x
  {
  }

  lemma InverseBack(perm: seq<nat>, inverse: seq<nat>, i: nat)
    requires |perm| == |inverse| && IsPermutation(perm) && i < |perm| && perm[i] < |perm|
    requires forall k | 0 <= k < |inverse| :: inverse[k] < |perm| && perm[inverse[k]] == k
    ensures inverse[perm[i]] == i
  {
    var j := inverse[perm[i]];
    if j < i {
      PermutationDistinct(perm, j, i);
    } else if i < j {
      PermutationDistinct(perm, i, j);
    }
  }

  lemma Cancels(q: nat, key: int, tau: int, p1: int, e1: int, n1: int, p2: int, e2: int, n2: int)
    requires q > 0 && Same(q, p1, tau + e1) && Same(q, p2, key * tau + e2) && Same(q, e1, n1) && Same(q, e2, n2)
    ensures IsZero(q, n2 - p2 - key * (n1 - p1))
  {
    hide Same;
    Flip(q, e1, n1);
    Flip(q, e2, n2);
    SameSums(q, n1, e1, p1, tau + e1);
    SameSums(q, n2, e2, p2, key * tau + e2);
    SameMultiples(q, n1 - p1, -tau, key);
    assert key * -tau == -(key * tau);
    SameSums(q, n2 - p2, -(key * tau), key * (n1 - p1), -(key * tau));
    assert IsZero(q, n2 - p2 - key * (n1 - p1)) by { SameAsNothing(q, n2 - p2 - key * (n1 - p1)); }
  }

  lemma SameAsNothing(q: nat, a: int)
    requires q > 0 && Same(q, a, 0)
    ensures IsZero(q, a)
  {
  }

  /** Re-encryptions under one more base than there are cards: every card was masked under the key. */
  lemma MasksFound(q: nat, key: Point, prev: Deck, next: Deck, perm: seq<nat>, xs: seq<Scalar>, es: seq<seq<Scalar>>,
                   taus: seq<Scalar>) returns (rho: seq<Scalar>)
    requires PrimeOrder(q) && |prev| == |next| == |perm| && IsPermutation(perm)
    requires |xs| == |es| == |taus| == |prev| + 1 && Apart(q, xs)
    requires forall i | 0 <= i < |perm| :: perm[i] < |prev|
    requires forall k | 0 <= k < |xs| :: Reencrypts(q, key, prev, next, xs[k], es[k], taus[k])
    requires forall k, i | 0 <= k < |xs| && 0 <= i < |perm| ::
      |es[k]| == |perm| && Same(q, es[k][i], Power(xs[k], perm[i] + 1))
    ensures ShuffledModulo(q, key, prev, next, perm, rho)
  {
    hide PrimeOrder, IsPermutation, Reencrypts, Same, Power, Eval, Excess, ExcessPoly;
    PrimeIsPositive(q);
    var inverse := Inverted(perm);
    var d := Excess(key, prev, next, perm);
    var p := ExcessPoly(d, inverse);
    forall k | 0 <= k < |xs|
      ensures IsZero(q, Eval(p, xs[k]))
    {
      BaseIsRoot(q, key, prev, next, perm, inverse, xs[k], es[k], taus[k]);
    }
    FewRoots(q, p, xs);
    rho := seq(|perm|, i requires 0 <= i < |perm| => next[i].c1 - prev[perm[i]].c1);
    forall i | 0 <= i < |perm|
      ensures SameCard(q, next[i], Card(prev[perm[i]].c1 + rho[i], prev[perm[i]].c2 + key * rho[i]))
    {
      InverseBack(perm, inverse, i);
      assert p[perm[i] + 1] == d[inverse[perm[i]]];
      MaskOf(q, key, prev, next, perm, i);
    }
  }

  /** Without excess a card is masked by what its first coordinate changed by. */
  lemma MaskOf(q: nat, key: Point, prev: Deck, next: Deck, perm: seq<nat>, i: nat)
    requires q > 0 && |prev| == |next| == |perm| && (forall k | 0 <= k < |perm| :: perm[k] < |prev|) && i < |perm|
    requires IsZero(q, Excess(key, prev, next, perm)[i])
    ensures var r := next[i].c1 - prev[perm[i]].c1;
      SameCard(q, next[i], Card(prev[perm[i]].c1 + r, prev[perm[i]].c2 + key * r))
  {
    hide Same;
    var r := next[i].c1 - prev[perm[i]].c1;
    ZeroDifference(q, next[i].c2, prev[perm[i]].c2 + key * r);
    Reflexive(q, next[i].c1);
  }
}
