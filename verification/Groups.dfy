/** The shuffle's group: scalars are integers modulo the group order, and a point is the scalar its generator is
    multiplied by, which loses nothing in a cyclic group. Every observation goes through the residue. */
module Groups {
  import opened Algebra
  import opened Bytes

  type Scalar = int
  type Point = int

  /** Equal residues: how points and scalars are compared. */
  predicate Same(q: nat, a: int, b: int)
    requires q > 0
  {
    a % q == b % q
  }

  predicate IsZero(q: nat, a: int)
    requires q > 0
  {
    a % q == 0
  }

  /** The order has no zero divisors. */
  ghost predicate PrimeOrder(q: nat) {
    q > 1 && forall a: int, b: int {:trigger a * b} :: (a * b) % q == 0 ==> a % q == 0 || b % q == 0
  }

  // ---------- Residues ----------

  lemma AtLeastOnce(bound: nat, m: int)
    ensures m >= 1 ==> bound * m >= bound
    ensures m <= -1 ==> bound * m <= 0 - bound
  {
  }

  lemma Residue(bound: nat, q: int, r: nat)
    requires r < bound
    ensures (bound * q + r) % bound == r && (bound * q + r) / bound == q
  {
    var n := bound * q + r;
    var d, e := n / bound, n % bound;
    assert bound * (q - d) == e - r by {
      assert n == bound * d + e;
      assert bound * (q - d) == bound * q - bound * d;
    }
    AtLeastOnce(bound, q - d);
  }

  lemma SameResidue(bound: nat, a: int, m: int)
    requires bound > 0
    ensures (a + bound * m) % bound == a % bound
  {
    var q, r := a / bound, a % bound;
    assert a + bound * m == bound * (q + m) + r by {
      assert bound * (q + m) == bound * q + bound * m;
    }
    Residue(bound, q + m, r);
  }

  /** Congruent numbers differ by a multiple of the modulus. */
  lemma Quotient(q: nat, a: int, b: int) returns (m: int)
    requires q > 0 && Same(q, a, b)
    ensures b - a == q * m
  {
    m := b / q - a / q;
    assert a == q * (a / q) + a % q && b == q * (b / q) + b % q;
    assert q * m == q * (b / q) - q * (a / q);
  }

  lemma MultipleIsZero(q: nat, m: int)
    requires q > 0
    ensures (q * m) % q == 0
  {
    Residue(q, m, 0);
  }

  lemma ZeroDifference(q: nat, a: int, b: int)
    requires q > 0
    ensures (a - b) % q == 0 <==> Same(q, a, b)
  {
    var m := (a - b) / q;
    if (a - b) % q == 0 {
      assert a == b + q * m;
      SameResidue(q, b, m);
    }
    if Same(q, a, b) {
      var k := Quotient(q, b, a);
      MultipleIsZero(q, k);
    }
  }

  lemma Reflexive(q: nat, a: int)
    requires q > 0
    ensures Same(q, a, a)
  {
  }

  lemma Flip(q: nat, a: int, b: int)
    requires q > 0 && Same(q, a, b)
    ensures Same(q, b, a)
  {
  }

  lemma Transitive(q: nat, a: int, b: int, c: int)
    requires q > 0 && Same(q, a, b) && Same(q, b, c)
    ensures Same(q, a, c)
  {
  }

  lemma SameTwice(q: nat, a: int, b: int, c: int)
    requires q > 0 && Same(q, a, b) && Same(q, a, c)
    ensures Same(q, b, c)
  {
  }

  lemma MultipleApart(q: nat, a: int, b: int, m: int)
    requires q > 0 && b == a + q * m
    ensures Same(q, a, b)
  {
    SameResidue(q, a, m);
  }

  lemma SameSums(q: nat, a: int, a': int, b: int, b': int)
    requires q > 0 && Same(q, a, a') && Same(q, b, b')
    ensures Same(q, a + b, a' + b') && Same(q, a - b, a' - b')
  {
    hide Same;
    var u := Quotient(q, a, a');
    var v := Quotient(q, b, b');
    assert q * (u + v) == q * u + q * v && q * (u - v) == q * u - q * v;
    MultipleApart(q, a + b, a' + b', u + v);
    MultipleApart(q, a - b, a' - b', u - v);
  }

  lemma SameMultiples(q: nat, a: int, a': int, c: int)
    requires q > 0 && Same(q, a, a')
    ensures Same(q, a * c, a' * c) && Same(q, c * a, c * a')
  {
    hide Same;
    var u := Quotient(q, a, a');
    assert a' * c == a * c + q * (u * c) by {
      assert (a + q * u) * c == a * c + q * u * c;
      Associate(q, u, c);
    }
    MultipleApart(q, a * c, a' * c, u * c);
    assert c * a == a * c && c * a' == a' * c;
  }

  lemma SameProducts(q: nat, a: int, a': int, b: int, b': int)
    requires q > 0 && Same(q, a, a') && Same(q, b, b')
    ensures Same(q, a * b, a' * b')
  {
    SameMultiples(q, a, a', b);
    SameMultiples(q, b, b', a');
  }

  lemma PrimeIsPositive(q: nat)
    requires PrimeOrder(q)
    ensures q > 1
  {
  }

  /** A product vanishes only with one of its factors. */
  lemma ZeroProduct(q: nat, a: int, b: int)
    requires PrimeOrder(q) && IsZero(q, a * b)
    ensures IsZero(q, a) || IsZero(q, b)
  {
  }

  datatype Card = Card(c1: Point, c2: Point)

  type Deck = seq<Card>

  /** Commitment bases: one generator for randomness and one for each deck position. */
  datatype Parameters = Parameters(q: nat, h: Point, bases: seq<Point>)

  predicate SameCard(q: nat, c: Card, d: Card)
    requires q > 0
  {
    Same(q, c.c1, d.c1) && Same(q, c.c2, d.c2)
  }

  function Commit(par: Parameters, m: Scalar, r: Scalar): (c: Point) { m + par.h * r }

  function VectorCommit(par: Parameters, ms: seq<Scalar>, r: Scalar): (c: Point)
    requires |ms| == |par.bases|
  {
    par.h * r + Dot(par.bases, ms)
  }

  function Firsts(d: Deck): (s: seq<int>)
    ensures |s| == |d| && forall i | 0 <= i < |d| :: s[i] == d[i].c1
  {
    seq(|d|, i requires 0 <= i < |d| => d[i].c1)
  }

  function Seconds(d: Deck): (s: seq<int>)
    ensures |s| == |d| && forall i | 0 <= i < |d| :: s[i] == d[i].c2
  {
    seq(|d|, i requires 0 <= i < |d| => d[i].c2)
  }

  /** The product of the cards raised to the exponents. */
  function CipherProduct(d: Deck, exponents: seq<Scalar>): (c: Card)
    requires |d| == |exponents|
  {
    Card(Dot(Firsts(d), exponents), Dot(Seconds(d), exponents))
  }

  // ---------- Their loops ----------

  method ComputeVectorCommit(par: Parameters, ms: seq<Scalar>, r: Scalar) returns (sum: Point)
    requires |ms| == |par.bases|
    ensures sum == VectorCommit(par, ms, r)
  {
    sum := par.h * r;
    for i := 0 to |ms|
      invariant sum == par.h * r + Dot(par.bases[..i], ms[..i])
    {
      DotSnoc(par.bases, ms, i);
      sum := sum + par.bases[i] * ms[i];
    }
    assert par.bases[..|ms|] == par.bases && ms[..|ms|] == ms;
  }

  method ComputeCipherProduct(d: Deck, exponents: seq<Scalar>) returns (out: Card)
    requires |d| == |exponents|
    ensures out == CipherProduct(d, exponents)
  {
    out := Card(0, 0);
    ghost var f, s := Firsts(d), Seconds(d);
    for i := 0 to |d|
      invariant out == Card(Dot(f[..i], exponents[..i]), Dot(s[..i], exponents[..i]))
    {
      DotSnoc(f, exponents, i);
      DotSnoc(s, exponents, i);
      out := Card(out.c1 + d[i].c1 * exponents[i], out.c2 + d[i].c2 * exponents[i]);
    }
    assert f[..|d|] == f && s[..|d|] == s && exponents[..|d|] == exponents;
  }

  // ---------- Transcripts ----------

  /** What has been hashed so far. Points and scalars enter by their canonical residue. */
  datatype Transcript = Bound(binding: bytes) | Appended(before: Transcript, tag: string, items: seq<int>)

  /** The hash of a transcript under a domain and an index, as a scalar. */
  type Oracle = (Transcript, string, nat) -> Scalar

  function Residues(q: nat, s: seq<int>): (r: seq<int>)
    requires q > 0
    ensures |r| == |s| && forall i | 0 <= i < |s| :: r[i] == s[i] % q
  {
    seq(|s|, i requires 0 <= i < |s| => s[i] % q)
  }

  /** The cards' coordinates, one after another. */
  function Flattened(d: Deck): (s: seq<int>) {
    if d == [] then [] else [d[0].c1, d[0].c2] + Flattened(d[1..])
  }

  function Append(q: nat, t: Transcript, tag: string, items: seq<int>): (r: Transcript)
    requires q > 0
  {
    Appended(t, tag, Residues(q, items))
  }
}
