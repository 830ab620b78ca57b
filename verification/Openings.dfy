/** Openings of commitments: what two answers to different challenges give away. */
module Openings {
  import opened Algebra
  import opened Groups

  // ---------- Inverses ----------

  /** A common divisor as a combination of both numbers. */
  lemma {:induction false} Bezout(a: nat, b: nat) returns (s: int, t: int, g: nat, m: nat, n: nat)
    requires a > 0
    ensures g > 0 && s * a + t * b == g && a == g * m && b == g * n
    decreases b
  {
    if b == 0 {
      s, t, g, m, n := 1, 0, a, 1, 0;
    } else {
      var k, r := a / b, a % b;
      var s', t', m', n';
      s', t', g, m', n' := Bezout(b, r);
      s, t, m, n := t', s' - t' * k, k * m' + n', m';
      BezoutStep(a, b, k, r, s', t', g, m', n');
    }
  }

  lemma BezoutStep(a: int, b: int, k: int, r: int, s: int, t: int, g: int, m: int, n: int)
    requires a == k * b + r && s * b + t * r == g && b == g * m && r == g * n
    ensures t * a + (s - t * k) * b == g && a == g * (k * m + n)
  {
    assert t * a == t * (k * b) + t * r;
    assert (s - t * k) * b == s * b - t * k * b;
    Associate(t, k, b);
    assert g * (k * m + n) == g * (k * m) + g * n;
    Associate(k, g, m);
    assert g * (k * m) == k * (g * m);
  }

  /** Modulo a prime every scalar but zero has an inverse. */
  lemma Invertible(q: nat, d: Scalar) returns (u: Scalar)
    requires PrimeOrder(q) && !IsZero(q, d)
    ensures Same(q, u * d, 1)
  {
    var e := d % q;
    var s, t, g, m, n := Bezout(q, e);
    UnitDivisor(q, e, g, m, n);
    u := t;
    InverseFrom(q, d, e, s, t);
  }

  lemma InverseFrom(q: nat, d: Scalar, e: Scalar, s: Scalar, t: Scalar)
    requires q > 0 && e == d % q && s * q + t * e == 1
    ensures Same(q, t * d, 1)
  {
    var k := d / q;
    assert d == q * k + e;
    assert t * d == 1 + q * (t * k - s) by {
      assert t * (q * k + e) == t * (q * k) + t * e;
      Associate(t, q, k);
      assert q * (t * k - s) == q * (t * k) - q * s;
      assert s * q == q * s;
    }
    MultipleApart(q, 1, t * d, t * k - s);
  }

  lemma UnitDivisor(q: nat, e: nat, g: nat, m: nat, n: nat)
    requires PrimeOrder(q) && 0 < e < q && g > 0 && q == g * m && e == g * n
    ensures g == 1
  {
    hide PrimeOrder;
    Positive(g, n, e);
    Positive(g, m, q);
    AtLeastOnce(g, n);
    Below(q, g);
    MultipleIsZero(q, 1);
    ZeroProduct(q, g, m);
    AtLeastModulus(q, m);
    AtLeastOnce(m, g - 1);
    assert g * m == m + m * (g - 1);
  }

  lemma Positive(g: nat, n: nat, e: nat)
    requires e == g * n && e > 0
    ensures n > 0 && g > 0
  {
  }

  lemma Below(q: nat, g: nat)
    requires 0 < g < q
    ensures !IsZero(q, g)
  {
  }

  lemma AtLeastModulus(q: nat, m: nat)
    requires q > 0 && m > 0 && IsZero(q, m)
    ensures m >= q
  {
  }

  lemma HasInverse(q: nat, d: Scalar)
    requires PrimeOrder(q) && !IsZero(q, d)
    ensures exists u :: IsInverse(q, u, d)
  {
    var u := Invertible(q, d);
    assert IsInverse(q, u, d);
  }

  predicate IsInverse(q: nat, u: Scalar, d: Scalar)
    requires q > 0
  {
    Same(q, u * d, 1)
  }

  ghost function Inverse(q: nat, d: Scalar): (u: Scalar)
    requires PrimeOrder(q) && !IsZero(q, d)
    ensures IsInverse(q, u, d)
  {
    HasInverse(q, d);
    var u :| IsInverse(q, u, d);
    u
  }

  // ---------- Openings ----------

  /** What a vector commitment was made of. */
  datatype Opening = Opening(v: seq<Scalar>, r: Scalar)

  predicate Opens(par: Parameters, c: Point, o: Opening)
    requires par.q > 0
  {
    |o.v| == |par.bases| && Same(par.q, c, VectorCommit(par, o.v, o.r))
  }

  function Combined(a: Scalar, o: Opening, b: Scalar, p: Opening): (c: Opening)
    requires |o.v| == |p.v|
    ensures |c.v| == |o.v| && forall i | 0 <= i < |c.v| :: c.v[i] == a * o.v[i] + b * p.v[i]
  {
    Opening(seq(|o.v|, i requires 0 <= i < |o.v| => a * o.v[i] + b * p.v[i]), a * o.r + b * p.r)
  }

  lemma CombinedOpens(par: Parameters, c: Point, o: Opening, d: Point, p: Opening, a: Scalar, b: Scalar)
    requires par.q > 0 && Opens(par, c, o) && Opens(par, d, p)
    ensures Opens(par, a * c + b * d, Combined(a, o, b, p))
  {
    hide Dot, Same;
    var w := Combined(a, o, b, p);
    DotLinear(par.bases, o.v, p.v, w.v, a, b);
    var x, y := Dot(par.bases, o.v), Dot(par.bases, p.v);
    assert VectorCommit(par, w.v, w.r) == a * (par.h * o.r + x) + b * (par.h * p.r + y) by {
      Distribute(par.h, a, o.r, b, p.r);
      assert a * (par.h * o.r + x) == a * (par.h * o.r) + a * x;
      assert b * (par.h * p.r + y) == b * (par.h * p.r) + b * y;
    }
    SameMultiples(par.q, c, par.h * o.r + x, a);
    SameMultiples(par.q, d, par.h * p.r + y, b);
    SameSums(par.q, a * c, a * (par.h * o.r + x), b * d, b * (par.h * p.r + y));
  }

  lemma OpensAlso(par: Parameters, c: Point, d: Point, o: Opening)
    requires par.q > 0 && Opens(par, c, o) && Same(par.q, c, d)
    ensures Opens(par, d, o)
  {
  }

  // ---------- Two answers ----------

  /** Answers to the challenges x and y: the line through them. */
  ghost function Slope(q: nat, x: Scalar, o: Opening, y: Scalar, p: Opening): (s: Opening)
    requires PrimeOrder(q) && !Same(q, x, y) && |o.v| == |p.v|
    ensures |s.v| == |o.v|
  {
    ZeroDifference(q, x, y);
    var u := Inverse(q, x - y);
    Combined(u, o, -u, p)
  }

  ghost function Start(q: nat, x: Scalar, o: Opening, y: Scalar, p: Opening): (s: Opening)
    requires PrimeOrder(q) && !Same(q, x, y) && |o.v| == |p.v|
    ensures |s.v| == |o.v|
  {
    Combined(1, o, -x, Slope(q, x, o, y, p))
  }

  /** From answers to two challenges about c and g, openings of both: the start and the slope of the line. */
  lemma TwoAnswersOpen(par: Parameters, c: Point, g: Point, x: Scalar, o: Opening, y: Scalar, p: Opening)
    requires PrimeOrder(par.q) && !Same(par.q, x, y) && Opens(par, c + g * x, o) && Opens(par, c + g * y, p)
    ensures Opens(par, g, Slope(par.q, x, o, y, p)) && Opens(par, c, Start(par.q, x, o, y, p))
  {
    hide Opens, PrimeOrder, Same;
    PrimeIsPositive(par.q);
    AnswersAreWide(par, c + g * x, o);
    AnswersAreWide(par, c + g * y, p);
    ZeroDifference(par.q, x, y);
    var u := Inverse(par.q, x - y);
    CombinedOpens(par, c + g * x, o, c + g * y, p, u, -u);
    assert u * (c + g * x) + -u * (c + g * y) == g * (u * (x - y)) by {
      SlopeAlgebra(u, c, g, x, y);
    }
    assert Same(par.q, u * (x - y), 1);
    SameMultiples(par.q, u * (x - y), 1, g);
    var s := Slope(par.q, x, o, y, p);
    OpensAlso(par, g * (u * (x - y)), g, s);
    CombinedOpens(par, c + g * x, o, g, s, 1, -x);
    assert 1 * (c + g * x) + -x * g == c;
  }

  lemma AnswersAreWide(par: Parameters, c: Point, o: Opening)
    requires par.q > 0 && Opens(par, c, o)
    ensures |o.v| == |par.bases|
  {
  }

  lemma SlopeAlgebra(u: int, c: int, g: int, x: int, y: int)
    ensures u * (c + g * x) + -u * (c + g * y) == g * (u * (x - y))
  {
    assert u * (c + g * x) == u * c + u * (g * x);
    assert -u * (c + g * y) == -(u * c) - u * (g * y);
    Associate(u, g, x);
    Associate(u, g, y);
    assert g * (u * (x - y)) == g * (u * x) - g * (u * y) by {
      assert u * (x - y) == u * x - u * y;
    }
  }

  /** The answer the line gives to a third challenge. */
  function OnLine(start: Opening, slope: Opening, x: Scalar): (o: Opening)
    requires |start.v| == |slope.v|
    ensures |o.v| == |start.v|
  {
    Combined(1, start, x, slope)
  }

  lemma LineOpens(par: Parameters, c: Point, g: Point, start: Opening, slope: Opening, x: Scalar)
    requires par.q > 0 && Opens(par, c, start) && Opens(par, g, slope)
    ensures Opens(par, c + g * x, OnLine(start, slope, x))
  {
    hide Opens;
    AnswersAreWide(par, c, start);
    AnswersAreWide(par, g, slope);
    CombinedOpens(par, c, start, g, slope, 1, x);
    assert 1 * c + x * g == c + g * x;
  }

  // ---------- Comparing ----------

  /** Two openings side by side. */
  datatype Pair = Pair(one: Opening, two: Opening)

  /** Both open the same point. */
  predicate OpenTogether(par: Parameters, p: Pair)
    requires par.q > 0
  {
    && |p.one.v| == |p.two.v| == |par.bases|
    && Same(par.q, VectorCommit(par, p.one.v, p.one.r), VectorCommit(par, p.two.v, p.two.r))
  }

  predicate SameVectors(q: nat, a: seq<Scalar>, b: seq<Scalar>)
    requires q > 0
  {
    |a| == |b| && forall i | 0 <= i < |a| :: Same(q, a[i], b[i])
  }

  lemma BothOpen(par: Parameters, c: Point, o: Opening, p: Opening)
    requires par.q > 0 && Opens(par, c, o) && Opens(par, c, p)
    ensures OpenTogether(par, Pair(o, p))
  {
  }
}
