/** Polynomials over the scalars, constant coefficient first, and what their roots say about their coefficients. */
module Polynomials {
  import opened Algebra
  import opened Groups

  type Poly = seq<int>

  function Eval(p: Poly, x: int): (v: int) { if p == [] then 0 else p[0] + x * Eval(p[1..], x) }

  /** Pairwise different modulo the group order. */
  predicate Apart(q: nat, s: seq<int>)
    requires q > 0
  {
    forall i, j | 0 <= i < j < |s| :: !Same(q, s[i], s[j])
  }

  // ---------- Dividing by a linear factor ----------

  /** The quotient of `p` by x - r. */
  function Divided(p: Poly, r: int): (d: Poly)
    requires p != []
    ensures |d| == |p| - 1
  {
    if |p| == 1 then [] else [Eval(p[1..], r)] + Divided(p[1..], r)
  }

  lemma {:induction false} DivisionLeavesValue(p: Poly, r: int, x: int)
    requires p != []
    ensures Eval(p, x) == (x - r) * Eval(Divided(p, r), x) + Eval(p, r)
  {
    hide Eval, Divided;
    var t := p[1..];
    Horner(p, x);
    Horner(p, r);
    DividedStep(p, r, x);
    if t == [] {
      NothingLeft(x);
      NothingLeft(r);
      DivisionAlgebra(p[0], x, r, 0, 0, 0);
    } else {
      DivisionLeavesValue(t, r, x);
      DivisionAlgebra(p[0], x, r, Eval(Divided(t, r), x), Eval(t, r), Eval(t, x));
    }
  }

  lemma Horner(p: Poly, x: int)
    requires p != []
    ensures Eval(p, x) == p[0] + x * Eval(p[1..], x)
  {
  }

  lemma NothingLeft(x: int)
    ensures Eval([], x) == 0
  {
  }

  lemma DividedStep(p: Poly, r: int, x: int)
    requires p != []
    ensures Eval(Divided(p, r), x)
      == if p[1..] == [] then 0 else Eval(p[1..], r) + x * Eval(Divided(p[1..], r), x)
  {
    if p[1..] != [] {
      assert Divided(p, r)[1..] == Divided(p[1..], r);
      Horner(Divided(p, r), x);
    }
  }

  lemma DivisionAlgebra(a: int, x: int, r: int, e: int, v: int, t: int)
    requires t == (x - r) * e + v
    ensures a + x * t == (x - r) * (v + x * e) + (a + r * v)
  {
    assert x * t == x * ((x - r) * e) + x * v;
    assert (x - r) * (v + x * e) == (x - r) * v + (x - r) * (x * e);
    Associate(x, x - r, e);
  }

  /** A coefficient from the quotient's two neighbours; the constant one from the value at the root as well. */
  lemma {:induction false} FromQuotient(p: Poly, r: int, i: nat)
    requires i < |p|
    ensures p[i]
      == (if i == 0 then Eval(p, r) else Divided(p, r)[i - 1]) - r * (if i < |p| - 1 then Divided(p, r)[i] else 0)
  {
    if i > 0 {
      FromQuotient(p[1..], r, i - 1);
      assert p[1..][i - 1] == p[i];
    }
  }

  lemma ZeroCombination(q: nat, a: int, b: int, r: int)
    requires q > 0 && IsZero(q, a) && IsZero(q, b)
    ensures IsZero(q, a - r * b)
  {
    SameMultiples(q, b, 0, r);
    SameSums(q, a, 0, r * b, 0);
  }

  /** A polynomial of fewer than `n` degrees vanishes at `n` different points only when all its coefficients do. */
  lemma {:induction false} FewRoots(q: nat, p: Poly, roots: seq<int>)
    requires PrimeOrder(q) && |roots| >= |p| && Apart(q, roots)
    requires forall i | 0 <= i < |roots| :: IsZero(q, Eval(p, roots[i]))
    ensures forall i | 0 <= i < |p| :: IsZero(q, p[i])
    decreases |p|
  {
    hide Eval, Divided, PrimeOrder, IsZero, Same;
    PrimeIsPositive(q);
    if p != [] {
      var n := |roots| - 1;
      var r := roots[n];
      var d := Divided(p, r);
      forall i | 0 <= i < n
        ensures IsZero(q, Eval(d, roots[i]))
      {
        RootOfQuotient(q, p, r, roots[i]);
      }
      FewRoots(q, d, roots[..n]);
      forall i: nat | i < |p|
        ensures IsZero(q, p[i])
      {
        FromQuotient(p, r, i);
        NothingIsZero(q);
        ZeroCombination(q, if i == 0 then Eval(p, r) else d[i - 1], if i < |p| - 1 then d[i] else 0, r);
      }
    }
  }

  lemma NothingIsZero(q: nat)
    ensures q > 0 ==> IsZero(q, 0)
  {
  }

  lemma RootOfQuotient(q: nat, p: Poly, r: int, x: int)
    requires PrimeOrder(q) && p != [] && IsZero(q, Eval(p, r)) && IsZero(q, Eval(p, x)) && !Same(q, x, r)
    ensures IsZero(q, Eval(Divided(p, r), x))
  {
    hide Eval, Divided, PrimeOrder;
    PrimeIsPositive(q);
    DivisionLeavesValue(p, r, x);
    var e := Eval(Divided(p, r), x);
    SameSums(q, Eval(p, x), 0, Eval(p, r), 0);
    ZeroDifference(q, x, r);
    ZeroProduct(q, x - r, e);
  }

  // ---------- Building polynomials ----------

  /** `p` times a + b x. */
  function Times(p: Poly, a: int, b: int): (t: Poly)
    ensures |t| == |p| + 1
  {
    if p == [] then [0]
    else
      var t := Times(p[1..], a, b);
      [a * p[0]] + t[0 := t[0] + b * p[0]]
  }

  lemma {:induction false} TimesEval(p: Poly, a: int, b: int, x: int)
    ensures Eval(Times(p, a, b), x) == (a + b * x) * Eval(p, x)
  {
    hide Eval;
    if p == [] {
      NothingLeft(x);
      Horner([0], x);
      assert Times(p, a, b) == [0] && [0][1..] == p;
    } else {
      var t := Times(p[1..], a, b);
      TimesEval(p[1..], a, b, x);
      var u := t[0 := t[0] + b * p[0]];
      FirstRaised(t, b * p[0], x);
      Horner(Times(p, a, b), x);
      Horner(p, x);
      assert Times(p, a, b)[1..] == u;
      TimesAlgebra(p[0], Eval(p[1..], x), a, b, x, Eval(t, x));
    }
  }

  lemma FirstRaised(t: Poly, v: int, x: int)
    requires t != []
    ensures Eval(t[0 := t[0] + v], x) == Eval(t, x) + v
  {
    assert t[0 := t[0] + v][1..] == t[1..];
  }

  lemma TimesAlgebra(c: int, e: int, a: int, b: int, x: int, t: int)
    requires t == (a + b * x) * e
    ensures a * c + x * (t + b * c) == (a + b * x) * (c + x * e)
  {
    var f := a + b * x;
    assert x * (t + b * c) == x * (f * e) + x * (b * c);
    assert f * (c + x * e) == f * c + f * (x * e);
    Associate(x, f, e);
    assert f * c == a * c + b * x * c;
    Associate(x, b, c);
    Associate(b, x, c);
  }

  lemma {:induction false} TimesLast(p: Poly, a: int, b: int)
    requires p != []
    ensures Times(p, a, b)[|p|] == b * p[|p| - 1]
  {
    if |p| > 1 {
      TimesLast(p[1..], a, b);
    } else {
      assert Times(p[1..], a, b) == [0];
    }
  }

  lemma {:induction false} RaisedEval(p: Poly, i: nat, v: int, x: int)
    requires i < |p|
    ensures Eval(p[i := p[i] + v], x) == Eval(p, x) + v * Power(x, i)
  {
    hide Eval;
    var r, t := p[i := p[i] + v], p[1..];
    if i == 0 {
      FirstRaised(p, v, x);
    } else {
      RaisedEval(t, i - 1, v, x);
      assert r[1..] == t[i - 1 := t[i - 1] + v];
      Horner(r, x);
      Horner(p, x);
      RaisedAlgebra(x, Eval(t, x), v, Power(x, i - 1));
    }
  }

  lemma RaisedAlgebra(x: int, e: int, v: int, p: int)
    ensures x * (e + v * p) == x * e + v * (x * p)
  {
    Associate(x, v, p);
  }

  function Minus(p: Poly, r: Poly): (d: Poly)
    requires |p| == |r|
    ensures |d| == |p| && forall i | 0 <= i < |d| :: d[i] == p[i] - r[i]
  {
    seq(|p|, i requires 0 <= i < |p| => p[i] - r[i])
  }

  lemma {:induction false} MinusEval(p: Poly, r: Poly, x: int)
    requires |p| == |r|
    ensures Eval(Minus(p, r), x) == Eval(p, x) - Eval(r, x)
  {
    hide Eval;
    if p != [] {
      MinusEval(p[1..], r[1..], x);
      assert Minus(p, r)[1..] == Minus(p[1..], r[1..]);
      Horner(p, x);
      Horner(r, x);
      Horner(Minus(p, r), x);
      MinusAlgebra(x, Eval(p[1..], x), Eval(r[1..], x));
    } else {
      NothingLeft(x);
    }
  }

  lemma MinusAlgebra(x: int, a: int, b: int)
    ensures x * (a - b) == x * a - x * b
  {
  }

  lemma {:induction false} ZeroLastEval(p: Poly, x: int)
    requires p != [] && p[|p| - 1] == 0
    ensures Eval(p, x) == Eval(p[..|p| - 1], x)
  {
    var n := |p| - 1;
    if n > 0 {
      ZeroLastEval(p[1..], x);
      assert p[1..][..n - 1] == p[..n][1..];
    } else {
      assert p[1..] == [];
    }
  }

  lemma {:induction false} ZeroEval(q: nat, p: Poly, x: int)
    requires q > 0 && forall i | 0 <= i < |p| :: IsZero(q, p[i])
    ensures IsZero(q, Eval(p, x))
  {
    if p != [] {
      ZeroEval(q, p[1..], x);
      SameMultiples(q, Eval(p[1..], x), 0, x);
      SameSums(q, p[0], 0, x * Eval(p[1..], x), 0);
    }
  }

  // ---------- Products of differences ----------

  /** The product of all `a[i]` - x. */
  function Gaps(a: seq<int>, x: int): (g: int) {
    if a == [] then 1 else Gaps(a[..|a| - 1], x) * (a[|a| - 1] - x)
  }

  /** The same product as a polynomial in x. */
  function FromRoots(a: seq<int>): (p: Poly)
    ensures |p| == |a| + 1
  {
    if a == [] then [1] else Times(FromRoots(a[..|a| - 1]), a[|a| - 1], -1)
  }

  lemma {:induction false} FromRootsEval(a: seq<int>, x: int)
    ensures Eval(FromRoots(a), x) == Gaps(a, x)
  {
    if a == [] {
      assert Eval([1], x) == 1;
    } else {
      var n := |a| - 1;
      FromRootsEval(a[..n], x);
      TimesEval(FromRoots(a[..n]), a[n], -1, x);
    }
  }

  lemma {:induction false} FromRootsLast(a: seq<int>)
    ensures FromRoots(a)[|a|] == Power(-1, |a|)
  {
    if a != [] {
      var n := |a| - 1;
      FromRootsLast(a[..n]);
      TimesLast(FromRoots(a[..n]), a[n], -1);
    }
  }

  /** Two products of as many differences that agree at that many points agree everywhere. */
  lemma AgreeEverywhere(q: nat, a: seq<int>, b: seq<int>, points: seq<int>, x: int)
    requires PrimeOrder(q) && |a| == |b| <= |points| && Apart(q, points)
    requires forall i | 0 <= i < |points| :: Same(q, Gaps(a, points[i]), Gaps(b, points[i]))
    ensures Same(q, Gaps(a, x), Gaps(b, x))
  {
    hide Eval, PrimeOrder, Gaps, FromRoots, Same;
    PrimeIsPositive(q);
    var p := Minus(FromRoots(a), FromRoots(b));
    FromRootsLast(a);
    FromRootsLast(b);
    var d := p[..|a|];
    forall i | 0 <= i < |points|
      ensures IsZero(q, Eval(d, points[i]))
    {
      DifferenceEval(q, a, b, points[i]);
    }
    FewRoots(q, d, points);
    ZeroEval(q, d, x);
    DifferenceEval(q, a, b, x);
  }

  lemma DifferenceEval(q: nat, a: seq<int>, b: seq<int>, x: int)
    requires q > 0 && |a| == |b|
    ensures IsZero(q, Eval(Minus(FromRoots(a), FromRoots(b))[..|a|], x)) <==> Same(q, Gaps(a, x), Gaps(b, x))
  {
    hide Eval, Gaps, FromRoots, Same;
    FromRootsLast(a);
    FromRootsLast(b);
    var p := Minus(FromRoots(a), FromRoots(b));
    ZeroLastEval(p, x);
    MinusEval(FromRoots(a), FromRoots(b), x);
    FromRootsEval(a, x);
    FromRootsEval(b, x);
    ZeroDifference(q, Gaps(a, x), Gaps(b, x));
  }

  /** A vanishing product has a vanishing difference. */
  lemma {:induction false} VanishingGap(q: nat, a: seq<int>, x: int) returns (i: nat)
    requires PrimeOrder(q) && IsZero(q, Gaps(a, x))
    ensures i < |a| && Same(q, a[i], x)
  {
    hide PrimeOrder;
    PrimeIsPositive(q);
    OneIsNotZero(q);
    var n := |a| - 1;
    ZeroProduct(q, Gaps(a[..n], x), a[n] - x);
    if IsZero(q, a[n] - x) {
      ZeroDifference(q, a[n], x);
      i := n;
    } else {
      i := VanishingGap(q, a[..n], x);
    }
  }

  lemma OneIsNotZero(q: nat)
    requires PrimeOrder(q)
    ensures !IsZero(q, 1)
  {
  }

  lemma {:induction false} GapAtElement(q: nat, a: seq<int>, i: nat)
    requires q > 0 && i < |a|
    ensures IsZero(q, Gaps(a, a[i]))
  {
    var n := |a| - 1;
    var g, d := Gaps(a[..n], a[i]), a[n] - a[i];
    if i == n {
      assert g * d == 0;
    } else {
      GapAtElement(q, a[..n], i);
      SameMultiples(q, g, 0, d);
    }
  }

  /** So every element of one is, up to the group order, an element of the other. */
  lemma SharedElement(q: nat, a: seq<int>, b: seq<int>, points: seq<int>, i: nat) returns (j: nat)
    requires PrimeOrder(q) && |a| == |b| <= |points| && Apart(q, points) && i < |a|
    requires forall k | 0 <= k < |points| :: Same(q, Gaps(a, points[k]), Gaps(b, points[k]))
    ensures j < |b| && Same(q, b[j], a[i])
  {
    hide PrimeOrder, Gaps;
    PrimeIsPositive(q);
    AgreeEverywhere(q, a, b, points, a[i]);
    GapAtElement(q, a, i);
    j := VanishingGap(q, b, a[i]);
  }
}
