/** The shuffle argument: a multi-exponentiation argument and a product argument over one committed permutation. */
module BayerGroth {
  import opened Algebra
  import opened Bytes
  import opened Groups

  datatype MultiArg = MultiArg(
    cAlpha: Point, cBeta: Point, ct0: Card, ct1: Card,
    oAlpha: seq<Scalar>, oR: Scalar, beta: Scalar, oBeta: Scalar, tau: Scalar)

  datatype ProductArg = ProductArg(
    cD: Point, cSmall: Point, cCapital: Point,
    aTilde: seq<Scalar>, bTilde: seq<Scalar>, rTilde: Scalar, sTilde: Scalar)

  datatype Proof = Proof(cPi: Point, cXPi: Point, multi: MultiArg, product: ProductArg)

  /** Everything the prover draws at random. */
  datatype Coins = Coins(
    wPi: Scalar, wXPi: Scalar,
    alpha: seq<Scalar>, beta: Scalar, wAlpha: Scalar, wBeta: Scalar, tau0: Scalar,
    d: seq<Scalar>, wD: Scalar, small: seq<Scalar>, wSmall: Scalar, wCapital: Scalar)

  // ---------- Challenges ----------

  function ShuffleTranscript(q: nat, key: Point, prev: Deck, next: Deck, cPi: Point, binding: bytes): (t: Transcript)
    requires q > 0
  {
    Append(q,
           Append(q, Append(q, Append(q, Bound(binding), "apk", [key]), "prev", Flattened(prev)), "next",
                  Flattened(next)),
           "c_pi", [cPi])
  }

  function BaseChallenge(o: Oracle, t: Transcript): (x: Scalar) { o(t, "ziffle/BG12/x/v2", 0) }

  function SecondTranscript(q: nat, t: Transcript, cXPi: Point): (s: Transcript)
    requires q > 0
  {
    Append(q, t, "c_xpi", [cXPi])
  }

  function MultiChallenge(q: nat, o: Oracle, t: Transcript, cAlpha: Point, cBeta: Point, ct0: Card,
                          ct1: Card): (x: Scalar)
    requires q > 0
  {
    o(Append(q, Append(q, Append(q, Append(q, t, "c_alpha", [cAlpha]), "c_beta", [cBeta]), "ct_mxp0", [ct0.c1, ct0.c2]),
             "ct_mxp1", [ct1.c1, ct1.c2]), "ziffle/BG12/multiexp/x/v2", 0)
  }

  function ProductChallenge(q: nat, o: Oracle, t: Transcript, cD: Point, cSmall: Point, cCapital: Point): (x: Scalar)
    requires q > 0
  {
    o(Append(q, Append(q, Append(q, t, "c_d", [cD]), "c_sdelta", [cSmall]), "c_cdelta", [cCapital]),
      "ziffle/BG12/product/x/v2", 0)
  }

  // ---------- What the verifier checks ----------

  /** The powers x, x^2, .., x^n that weigh the predecessor deck. */
  function Weights(x: Scalar, n: nat): (w: seq<Scalar>)
    ensures |w| == n && forall i | 0 <= i < n :: w[i] == Power(x, i + 1)
  {
    seq(n, i requires 0 <= i < n => Power(x, i + 1))
  }

  predicate Sized(par: Parameters, prev: Deck, next: Deck) {
    par.q > 0 && |prev| == |next| == |par.bases|
  }

  /** The multi-exponentiation equations: the anchor to the weighted predecessor, both openings and the response. */
  predicate MultiEquations(par: Parameters, key: Point, prev: Deck, next: Deck, cXPi: Point, a: MultiArg,
                           xBase: Scalar, x: Scalar)
    requires Sized(par, prev, next)
  {
    && |a.oAlpha| == |prev|
    && SameCard(par.q, CipherProduct(prev, Weights(xBase, |prev|)), a.ct1)
    && Same(par.q, cXPi * x + a.cAlpha, VectorCommit(par, a.oAlpha, a.oR))
    && Same(par.q, a.cBeta, Commit(par, a.beta, a.oBeta))
    && Responds(par.q, key, next, a, x)
  }

  /** They hold under the challenge the transcript gives. */
  predicate MultiHolds(o: Oracle, par: Parameters, key: Point, prev: Deck, next: Deck, cXPi: Point, a: MultiArg,
                       xBase: Scalar, t: Transcript)
    requires Sized(par, prev, next)
  {
    MultiEquations(par, key, prev, next, cXPi, a, xBase, MultiChallenge(par.q, o, t, a.cAlpha, a.cBeta, a.ct0, a.ct1))
  }

  /** Both ciphertext commitments combine to the re-encryption the opened exponents give. */
  predicate Responds(q: nat, key: Point, next: Deck, a: MultiArg, x: Scalar)
    requires q > 0 && |next| == |a.oAlpha|
  {
    var p := CipherProduct(next, a.oAlpha);
    SameCard(q, Card(a.ct0.c1 + a.ct1.c1 * x, a.ct0.c2 + a.ct1.c2 * x), Card(a.tau + p.c1, a.beta + key * a.tau + p.c2))
  }

  /** The factors y i + x^i - z whose product the permutation must reproduce. */
  function Factors(x: Scalar, y: Scalar, z: Scalar, n: nat): (f: seq<int>)
    ensures |f| == n && forall i | 0 <= i < n :: f[i] == y * (i + 1) + Power(x, i + 1) - z
  {
    seq(n, i requires 0 <= i < n => y * (i + 1) + Power(x, i + 1) - z)
  }

  /** The committed recurrence as the verifier recomputes it: nothing in the last place. */
  function Steps(x: Scalar, aTilde: seq<Scalar>, bTilde: seq<Scalar>): (v: seq<Scalar>)
    requires |aTilde| == |bTilde|
    ensures |v| == |aTilde|
    ensures forall i | 0 <= i < |v| - 1 :: v[i] == x * bTilde[i + 1] - bTilde[i] * aTilde[i + 1]
    ensures |v| > 0 ==> v[|v| - 1] == 0
  {
    seq(|aTilde|, i requires 0 <= i < |aTilde| =>
      if i == |aTilde| - 1 then 0 else x * bTilde[i + 1] - bTilde[i] * aTilde[i + 1])
  }

  /** The product equations: both boundary checks, the opened factors and the opened recurrence. */
  predicate ProductEquations(par: Parameters, cPi: Point, cXPi: Point, a: ProductArg, xBase: Scalar, y: Scalar,
                             z: Scalar, x: Scalar)
    requires par.q > 0 && |par.bases| > 0
  {
    var n := |par.bases|;
    && |a.aTilde| == n && |a.bTilde| == n
    && Same(par.q, a.bTilde[0], a.aTilde[0])
    && Same(par.q, a.bTilde[n - 1], x * Over(Multiplying, Factors(xBase, y, z, n), Iota(n)))
    && Same(par.q, a.cD + (cPi * y + cXPi + VectorCommit(par, Constant(-z, n), 0)) * x,
            VectorCommit(par, a.aTilde, a.rTilde))
    && Same(par.q, a.cSmall + a.cCapital * x, VectorCommit(par, Steps(x, a.aTilde, a.bTilde), a.sTilde))
  }

  predicate ProductHolds(o: Oracle, par: Parameters, cPi: Point, cXPi: Point, a: ProductArg, xBase: Scalar, y: Scalar,
                         z: Scalar, t: Transcript)
    requires par.q > 0 && |par.bases| > 0
  {
    ProductEquations(par, cPi, cXPi, a, xBase, y, z, ProductChallenge(par.q, o, t, a.cD, a.cSmall, a.cCapital))
  }

  function Constant(c: Scalar, n: nat): (s: seq<Scalar>)
    ensures |s| == n && forall i | 0 <= i < n :: s[i] == c
  {
    seq(n, i => c)
  }

  /** The whole verifier: no card may lose its mask, and every equation of both arguments holds. */
  predicate Verifies(o: Oracle, par: Parameters, key: Point, prev: Deck, next: Deck, proof: Proof, binding: bytes)
    requires Sized(par, prev, next) && |prev| > 0
  {
    var t := ShuffleTranscript(par.q, key, prev, next, proof.cPi, binding);
    var s := SecondTranscript(par.q, t, proof.cXPi);
    var x, y, z := BaseChallenge(o, t), o(s, "ziffle/BG12/yz/v2", 0), o(s, "ziffle/BG12/yz/v2", 1);
    && (forall i | 0 <= i < |next| :: !IsZero(par.q, next[i].c1))
    && MultiHolds(o, par, key, prev, next, proof.cXPi, proof.multi, x, s)
    && ProductHolds(o, par, proof.cPi, proof.cXPi, proof.product, x, y, z, s)
  }

  // ---------- The statement ----------

  /** `next` is `prev` permuted and masked again under the key. */
  ghost predicate Shuffled(key: Point, prev: Deck, next: Deck, perm: seq<nat>, rho: seq<Scalar>) {
    && |prev| == |next| == |perm| == |rho| && IsPermutation(perm)
    && (forall i | 0 <= i < |perm| :: perm[i] < |prev|)
    && (forall i | 0 <= i < |perm| ::
          next[i] == Card(prev[perm[i]].c1 + rho[i], prev[perm[i]].c2 + key * rho[i]))
  }

  function Picked(s: seq<int>, perm: seq<nat>): (t: seq<int>)
    requires forall i | 0 <= i < |perm| :: perm[i] < |s|
    ensures |t| == |perm| && forall i | 0 <= i < |perm| :: t[i] == s[perm[i]]
  {
    seq(|perm|, i requires 0 <= i < |perm| => s[perm[i]])
  }

  function Product(a: seq<int>, b: seq<int>): (p: seq<int>)
    requires |a| == |b|
    ensures |p| == |a| && forall i | 0 <= i < |a| :: p[i] == a[i] * b[i]
  {
    seq(|a|, i requires 0 <= i < |a| => a[i] * b[i])
  }

  /** Permuting both factors of a sum of products leaves it alone. */
  lemma DotPermuted(a: seq<int>, b: seq<int>, perm: seq<nat>)
    requires |a| == |b| == |perm| && IsPermutation(perm) && forall i | 0 <= i < |perm| :: perm[i] < |a|
    ensures Dot(Picked(a, perm), Picked(b, perm)) == Dot(a, b)
  {
    var terms := Product(a, b);
    DotIsOver(Picked(a, perm), Picked(b, perm), terms, perm);
    DotIsOver(a, b, terms, Iota(|a|));
    Reindexed(Adding, terms, perm);
  }

  /** One coordinate of a masked, permuted deck: the mask's contribution separates. */
  lemma MaskedDot(prev: seq<int>, next: seq<int>, perm: seq<nat>, rho: seq<Scalar>, key: int, w: seq<Scalar>)
    requires |prev| == |next| == |perm| == |rho| == |w| && IsPermutation(perm)
    requires forall i | 0 <= i < |perm| :: perm[i] < |prev| && next[i] == prev[perm[i]] + key * rho[i]
    ensures Dot(next, Picked(w, perm)) == Dot(prev, w) + key * Dot(rho, Picked(w, perm))
  {
    var e := Picked(w, perm);
    DotCommutes(next, e);
    DotCommutes(rho, e);
    forall i | 0 <= i < |next| ensures next[i] == 1 * Picked(prev, perm)[i] + key * rho[i] {
    }
    DotLinear(e, Picked(prev, perm), rho, next, 1, key);
    DotCommutes(e, Picked(prev, perm));
    DotPermuted(prev, w, perm);
  }

  // ---------- The multi-exponentiation argument ----------

  /** The anchor: re-encrypting the permuted deck with the cancelled masks gives the weighted predecessor. */
  lemma AnchorHolds(key: Point, prev: Deck, next: Deck, perm: seq<nat>, rho: seq<Scalar>, x: Scalar, xpi: seq<Scalar>)
    requires Shuffled(key, prev, next, perm, rho)
    requires |xpi| == |perm| && forall i | 0 <= i < |perm| :: xpi[i] == Power(x, perm[i] + 1)
    ensures var c := CipherProduct(next, xpi);
      var r := -Dot(rho, xpi);
      CipherProduct(prev, Weights(x, |prev|)) == Card(r + c.c1, key * r + c.c2)
  {
    hide Power, Dot, IsPermutation;
    var w := Weights(x, |prev|);
    WeightsPicked(x, |prev|, perm, xpi);
    MaskedDot(Firsts(prev), Firsts(next), perm, rho, 1, w);
    MaskedDot(Seconds(prev), Seconds(next), perm, rho, key, w);
    Cancel(key, Dot(rho, xpi), Dot(Seconds(prev), w));
  }

  lemma WeightsPicked(x: Scalar, n: nat, perm: seq<nat>, xpi: seq<Scalar>)
    requires |xpi| == |perm| && (forall i | 0 <= i < |perm| :: perm[i] < n)
    requires forall i | 0 <= i < |perm| :: xpi[i] == Power(x, perm[i] + 1)
    ensures xpi == Picked(Weights(x, n), perm)
  {
    hide Power;
  }

  lemma Cancel(key: int, r: int, d: int)
    ensures d == key * -r + (d + key * r)
  {
  }

  lemma OpeningHolds(par: Parameters, u: seq<Scalar>, v: seq<Scalar>, w: seq<Scalar>, ru: Scalar, rv: Scalar, x: Scalar)
    requires |u| == |v| == |w| == |par.bases|
    requires forall i | 0 <= i < |u| :: w[i] == u[i] + x * v[i]
    ensures VectorCommit(par, w, ru + x * rv) == VectorCommit(par, u, ru) + VectorCommit(par, v, rv) * x
  {
    forall i | 0 <= i < |u| ensures w[i] == 1 * u[i] + x * v[i] {
    }
    DotLinear(par.bases, u, v, w, 1, x);
    Associate(par.h, x, rv);
    assert par.h * (ru + x * rv) == par.h * ru + par.h * (x * rv);
    assert (par.h * rv + Dot(par.bases, v)) * x == x * (par.h * rv) + x * Dot(par.bases, v);
  }

  lemma ResponseHolds(q: nat, key: Point, next: Deck, coins: Coins, xpi: seq<Scalar>, r: Scalar, a: MultiArg, x: Scalar)
    requires q > 0 && |next| == |coins.alpha| == |xpi| == |a.oAlpha|
    requires forall i | 0 <= i < |xpi| :: a.oAlpha[i] == coins.alpha[i] + x * xpi[i]
    requires a.beta == coins.beta && a.tau == coins.tau0 + x * r
    requires var c := CipherProduct(next, coins.alpha);
      a.ct0 == Card(coins.tau0 + c.c1, coins.beta + key * coins.tau0 + c.c2)
    requires var c := CipherProduct(next, xpi); a.ct1 == Card(r + c.c1, key * r + c.c2)
    ensures Responds(q, key, next, a, x)
  {
    hide CipherProduct;
    CombinedCiphers(key, next, coins.alpha, xpi, a.oAlpha, coins.beta, coins.tau0, r, x);
  }

  lemma CombinedCiphers(key: Point, next: Deck, alpha: seq<Scalar>, xpi: seq<Scalar>, oAlpha: seq<Scalar>, beta: Scalar,
                        tau0: Scalar, r: Scalar, x: Scalar)
    requires |next| == |alpha| == |xpi| == |oAlpha|
    requires forall i | 0 <= i < |alpha| :: oAlpha[i] == alpha[i] + x * xpi[i]
    ensures var a, c, p := CipherProduct(next, alpha), CipherProduct(next, xpi), CipherProduct(next, oAlpha);
      && tau0 + a.c1 + (r + c.c1) * x == tau0 + x * r + p.c1
      && beta + key * tau0 + a.c2 + (key * r + c.c2) * x == beta + key * (tau0 + x * r) + p.c2
  {
    forall i | 0 <= i < |alpha| ensures oAlpha[i] == 1 * alpha[i] + x * xpi[i] {
    }
    DotLinear(Firsts(next), alpha, xpi, oAlpha, 1, x);
    DotLinear(Seconds(next), alpha, xpi, oAlpha, 1, x);
    var c := CipherProduct(next, xpi);
    assert (r + c.c1) * x == x * r + x * c.c1;
    assert (key * r + c.c2) * x == x * (key * r) + x * c.c2;
    Associate(key, x, r);
    assert key * (tau0 + x * r) == key * tau0 + key * (x * r);
  }

  /** x times one vector added to another, entry by entry. */
  method Respond(u: seq<Scalar>, v: seq<Scalar>, x: Scalar) returns (w: seq<Scalar>)
    requires |u| == |v|
    ensures |w| == |u| && forall i | 0 <= i < |u| :: w[i] == u[i] + x * v[i]
  {
    var response := new Scalar[|u|](_ => 0);
    for i := 0 to |u|
      invariant forall k | 0 <= k < i :: response[k] == u[k] + x * v[k]
    {
      response[i] := u[i] + x * v[i];
    }
    w := response[..];
  }

  method Aggregate(rho: seq<Scalar>, xpi: seq<Scalar>) returns (sum: Scalar)
    requires |rho| == |xpi|
    ensures sum == -Dot(rho, xpi)
  {
    sum := 0;
    for i := 0 to |rho|
      invariant sum == Dot(rho[..i], xpi[..i])
    {
      DotSnoc(rho, xpi, i);
      sum := sum + rho[i] * xpi[i];
    }
    assert rho[..|rho|] == rho && xpi[..|rho|] == xpi;
    sum := -sum;
  }

  /** Whatever deck, permutation, masks and coins: the argument made here satisfies every equation of its verifier. */
  method ProveMulti(o: Oracle, par: Parameters, key: Point, prev: Deck, next: Deck, perm: seq<nat>, rho: seq<Scalar>,
                    xBase: Scalar, xpi: seq<Scalar>, wXPi: Scalar, coins: Coins, t: Transcript) returns (a: MultiArg)
    requires Sized(par, prev, next) && Shuffled(key, prev, next, perm, rho) && |coins.alpha| == |prev|
    requires |xpi| == |perm| && forall i | 0 <= i < |perm| :: xpi[i] == Power(xBase, perm[i] + 1)
    ensures MultiHolds(o, par, key, prev, next, VectorCommit(par, xpi, wXPi), a, xBase, t)
  {
    hide Shuffled, VectorCommit, CipherProduct, Weights, MultiChallenge, Power, Dot;
    var alpha := coins.alpha;
    ShuffledSizes(key, prev, next, perm, rho);
    var cAlpha := ComputeVectorCommit(par, alpha, coins.wAlpha);
    var cBeta := Commit(par, coins.beta, coins.wBeta);
    var c := ComputeCipherProduct(next, alpha);
    var ct0 := Card(coins.tau0 + c.c1, coins.beta + key * coins.tau0 + c.c2);
    var rhoAgg := Aggregate(rho, xpi);
    c := ComputeCipherProduct(next, xpi);
    var ct1 := Card(rhoAgg + c.c1, key * rhoAgg + c.c2);
    var x := MultiChallenge(par.q, o, t, cAlpha, cBeta, ct0, ct1);
    var oAlpha := Respond(alpha, xpi, x);
    a := MultiArg(cAlpha, cBeta, ct0, ct1, oAlpha, coins.wAlpha + x * wXPi, coins.beta, coins.wBeta,
                  coins.tau0 + x * rhoAgg);
    MultiCompletes(o, par, key, prev, next, perm, rho, xBase, xpi, wXPi, coins, t, a);
  }

  /** The honest argument, spelled out, satisfies its equations. */
  lemma MultiCompletes(o: Oracle, par: Parameters, key: Point, prev: Deck, next: Deck, perm: seq<nat>, rho: seq<Scalar>,
                       xBase: Scalar, xpi: seq<Scalar>, wXPi: Scalar, coins: Coins, t: Transcript, a: MultiArg)
    requires Sized(par, prev, next) && Shuffled(key, prev, next, perm, rho) && |coins.alpha| == |prev|
    requires |xpi| == |perm| == |prev| == |rho| && forall i | 0 <= i < |perm| :: xpi[i] == Power(xBase, perm[i] + 1)
    requires a.cAlpha == VectorCommit(par, coins.alpha, coins.wAlpha)
    requires a.cBeta == Commit(par, coins.beta, coins.wBeta) && a.beta == coins.beta && a.oBeta == coins.wBeta
    requires var c := CipherProduct(next, coins.alpha);
      a.ct0 == Card(coins.tau0 + c.c1, coins.beta + key * coins.tau0 + c.c2)
    requires var c, r := CipherProduct(next, xpi), -Dot(rho, xpi); a.ct1 == Card(r + c.c1, key * r + c.c2)
    requires var x := MultiChallenge(par.q, o, t, a.cAlpha, a.cBeta, a.ct0, a.ct1);
      && |a.oAlpha| == |prev| && (forall i | 0 <= i < |prev| :: a.oAlpha[i] == coins.alpha[i] + x * xpi[i])
      && a.oR == coins.wAlpha + x * wXPi && a.tau == coins.tau0 + x * -Dot(rho, xpi)
    ensures MultiHolds(o, par, key, prev, next, VectorCommit(par, xpi, wXPi), a, xBase, t)
  {
    hide Shuffled, VectorCommit, CipherProduct, Weights, MultiChallenge, Power, Dot, Commit, Responds;
    var x := MultiChallenge(par.q, o, t, a.cAlpha, a.cBeta, a.ct0, a.ct1);
    AnchorHolds(key, prev, next, perm, rho, xBase, xpi);
    OpeningHolds(par, coins.alpha, xpi, a.oAlpha, coins.wAlpha, wXPi, x);
    ResponseHolds(par.q, key, next, coins, xpi, -Dot(rho, xpi), a, x);
  }

  lemma ShuffledSizes(key: Point, prev: Deck, next: Deck, perm: seq<nat>, rho: seq<Scalar>)
    requires Shuffled(key, prev, next, perm, rho)
    ensures |prev| == |next| == |perm| == |rho| && forall i | 0 <= i < |perm| :: perm[i] < |prev|
  {
  }

  method VerifyMulti(o: Oracle, par: Parameters, key: Point, prev: Deck, next: Deck, cXPi: Point, a: MultiArg,
                     xBase: Scalar, t: Transcript) returns (ok: bool)
    requires Sized(par, prev, next) && |a.oAlpha| == |prev|
    ensures ok <==> MultiHolds(o, par, key, prev, next, cXPi, a, xBase, t)
  {
    var n, x := |prev|, MultiChallenge(par.q, o, t, a.cAlpha, a.cBeta, a.ct0, a.ct1);
    var powers := new Scalar[n](_ => 0);
    for i := 0 to n
      invariant forall k | 0 <= k < i :: powers[k] == Power(xBase, k + 1)
    {
      var power := FastPower(xBase, i + 1);
      powers[i] := power;
    }
    var xs := powers[..];
    assert xs == Weights(xBase, n);
    var anchor := ComputeCipherProduct(prev, xs);
    if !SameCard(par.q, anchor, a.ct1) {
      return false;
    }
    var response := ComputeVectorCommit(par, a.oAlpha, a.oR);
    if !Same(par.q, cXPi * x + a.cAlpha, response) {
      return false;
    }
    if !Same(par.q, a.cBeta, Commit(par, a.beta, a.oBeta)) {
      return false;
    }
    var p := ComputeCipherProduct(next, a.oAlpha);
    var lhs := Card(a.ct0.c1 + a.ct1.c1 * x, a.ct0.c2 + a.ct1.c2 * x);
    var rhs := Card(a.tau + p.c1, a.beta + key * a.tau + p.c2);
    return SameCard(par.q, lhs, rhs);
  }

  // ---------- The product argument ----------

  /** The committed values, permuted factors first: a[i] = y pi[i] + xpi[i] - z. */
  lemma FactorsPermuted(xBase: Scalar, y: Scalar, z: Scalar, perm: seq<nat>, a: seq<Scalar>)
    requires IsPermutation(perm) && |a| == |perm|
    requires forall i | 0 <= i < |perm| :: a[i] == y * (perm[i] + 1) + Power(xBase, perm[i] + 1) - z
    ensures Over(Multiplying, a, Iota(|a|)) == Over(Multiplying, Factors(xBase, y, z, |perm|), Iota(|perm|))
  {
    hide Power, Over, IsPermutation;
    var f := Factors(xBase, y, z, |perm|);
    Reindexed(Multiplying, f, perm);
    FactorsPicked(xBase, y, z, perm, a);
    PickedProduct(f, perm);
  }

  lemma FactorsPicked(xBase: Scalar, y: Scalar, z: Scalar, perm: seq<nat>, a: seq<Scalar>)
    requires |a| == |perm| && forall i | 0 <= i < |perm| :: perm[i] < |perm|
    requires forall i | 0 <= i < |perm| :: a[i] == y * (perm[i] + 1) + Power(xBase, perm[i] + 1) - z
    ensures a == Picked(Factors(xBase, y, z, |perm|), perm)
  {
    hide Power;
  }

  lemma {:induction false} PickedProduct(f: seq<int>, perm: seq<nat>)
    requires forall i | 0 <= i < |perm| :: perm[i] < |f|
    ensures Over(Multiplying, Picked(f, perm), Iota(|perm|)) == Over(Multiplying, f, perm)
  {
    if perm != [] {
      var n := |perm| - 1;
      PickedProduct(f, perm[..n]);
      assert Iota(n + 1)[..n] == Iota(n);
      PrefixProduct(Picked(f, perm), Picked(f, perm[..n]), n);
    }
  }

  lemma {:induction false} PrefixProduct(a: seq<int>, b: seq<int>, n: nat)
    requires n <= |a| && n <= |b| && a[..n] == b[..n]
    ensures Over(Multiplying, a, Iota(n)) == Over(Multiplying, b, Iota(n))
  {
    if n > 0 {
      assert Iota(n)[..n - 1] == Iota(n - 1);
      assert a[..n][..n - 1] == a[..n - 1] && b[..n][..n - 1] == b[..n - 1];
      assert a[n - 1] == a[..n][n - 1] && b[n - 1] == b[..n][n - 1];
      PrefixProduct(a, b, n - 1);
    }
  }

  /** Opening the blinded factors: the constant vector of -z shifts the combined commitment. */
  lemma FactorsOpen(par: Parameters, pi: seq<Scalar>, xpi: seq<Scalar>, a: seq<Scalar>, d: seq<Scalar>,
                    aTilde: seq<Scalar>, wPi: Scalar, wXPi: Scalar, wD: Scalar, x: Scalar, y: Scalar, z: Scalar)
    requires |pi| == |xpi| == |a| == |d| == |aTilde| == |par.bases|
    requires forall i | 0 <= i < |a| :: a[i] == y * pi[i] + xpi[i] - z && aTilde[i] == x * a[i] + d[i]
    ensures VectorCommit(par, d, wD)
      + (VectorCommit(par, pi, wPi) * y + VectorCommit(par, xpi, wXPi) + VectorCommit(par, Constant(-z, |a|), 0)) * x
      == VectorCommit(par, aTilde, x * (y * wPi + wXPi) + wD)
  {
    var n, g := |a|, par.bases;
    var mz := Constant(-z, n);
    var s := Sum(xpi, mz);
    forall i | 0 <= i < n
      ensures s[i] == 1 * xpi[i] + 1 * mz[i] && a[i] == y * pi[i] + 1 * s[i] && aTilde[i] == x * a[i] + 1 * d[i]
    {
    }
    DotLinear(g, xpi, mz, s, 1, 1);
    DotLinear(g, pi, s, a, y, 1);
    DotLinear(g, a, d, aTilde, x, 1);
    BlindingAlgebra(par.h, Dot(g, d), Dot(g, pi), Dot(g, xpi), Dot(g, mz), wPi, wXPi, wD, x, y);
  }

  function Sum(a: seq<int>, b: seq<int>): (s: seq<int>)
    requires |a| == |b|
    ensures |s| == |a| && forall i | 0 <= i < |a| :: s[i] == a[i] + b[i]
  {
    seq(|a|, i requires 0 <= i < |a| => a[i] + b[i])
  }

  lemma BlindingAlgebra(h: int, d: int, p: int, w: int, m: int, wPi: int, wXPi: int, wD: int, x: int, y: int)
    ensures h * wD + d + ((h * wPi + p) * y + (h * wXPi + w) + (h * 0 + m)) * x
      == h * (x * (y * wPi + wXPi) + wD) + (x * (y * p + (w + m)) + d)
  {
    assert (h * wPi + p) * y == h * (y * wPi) + y * p by {
      Associate(h, y, wPi);
    }
    var k, e := y * wPi + wXPi, y * p + (w + m);
    assert (h * wPi + p) * y + (h * wXPi + w) + (h * 0 + m) == h * k + e by {
      assert h * k == h * (y * wPi) + h * wXPi;
    }
    assert (h * k + e) * x == h * (x * k) + x * e by {
      Associate(h, x, k);
    }
    assert h * (x * k + wD) == h * (x * k) + h * wD;
  }

  /** One step of the recurrence: the cross terms are exactly what the two delta commitments hold. */
  lemma StepAlgebra(x: int, a1: int, b0: int, b1: int, d1: int, s0: int, s1: int, at: int, bt0: int, bt1: int)
    requires b1 == b0 * a1 && at == d1 + x * a1 && bt0 == s0 + x * b0 && bt1 == s1 + x * b1
    ensures x * bt1 - bt0 * at == -s0 * d1 + x * (s1 - a1 * s0 - b0 * d1)
  {
    assert bt0 * at == s0 * d1 + s0 * (x * a1) + x * b0 * d1 + x * b0 * (x * a1);
    assert x * b0 * (x * a1) == x * (x * b1) by {
      Associate(x * b0, x, a1);
      assert x * b0 * (x * a1) == x * (x * b0 * a1);
      assert x * b0 * a1 == x * (b0 * a1);
    }
    assert x * b0 * d1 == x * (b0 * d1);
    assert s0 * (x * a1) == x * (a1 * s0) by {
      Associate(s0, x, a1);
    }
    assert x * bt1 == x * s1 + x * (x * b1);
    assert x * (s1 - a1 * s0 - b0 * d1) == x * s1 - x * (a1 * s0) - x * (b0 * d1);
  }

  /** The running products b[i] = a[0] .. a[i]. */
  predicate RunningProducts(a: seq<Scalar>, b: seq<Scalar>) {
    |a| == |b| && (|a| > 0 ==> b[0] == a[0]) && forall i | 0 < i < |a| :: b[i] == b[i - 1] * a[i]
  }

  lemma {:induction false} RunningIsOver(a: seq<Scalar>, b: seq<Scalar>, i: nat)
    requires RunningProducts(a, b) && i < |a|
    ensures b[i] == Over(Multiplying, a, Iota(i + 1))
  {
    assert Iota(i + 1)[..i] == Iota(i);
    if i == 0 {
      assert Over(Multiplying, a, []) == 1;
      assert Over(Multiplying, a, Iota(1)) == 1 * a[0];
    } else {
      RunningIsOver(a, b, i - 1);
    }
  }

  method Running(a: seq<Scalar>) returns (b: seq<Scalar>)
    requires |a| > 0
    ensures RunningProducts(a, b)
  {
    var products := new Scalar[|a|](_ => 0);
    products[0] := a[0];
    for i := 1 to |a|
      invariant products[0] == a[0] && forall k | 0 < k < i :: products[k] == products[k - 1] * a[k]
    {
      products[i] := products[i - 1] * a[i];
    }
    b := products[..];
  }

  /** y pi[i] + xpi[i] - z. */
  method Combine3(pi: seq<Scalar>, xpi: seq<Scalar>, y: Scalar, z: Scalar) returns (a: seq<Scalar>)
    requires |pi| == |xpi|
    ensures |a| == |pi| && forall i | 0 <= i < |pi| :: a[i] == y * pi[i] + xpi[i] - z
  {
    var values := new Scalar[|pi|](_ => 0);
    for i := 0 to |pi|
      invariant forall k | 0 <= k < i :: values[k] == y * pi[k] + xpi[k] - z
    {
      values[i] := y * pi[i] + xpi[i] - z;
    }
    a := values[..];
  }

  /** The blinded deltas: the first repeats d[0], the last is zero, the others are drawn. */
  predicate Deltas(coins: Coins, s: seq<Scalar>) {
    |s| == |coins.d| && |s| >= 2 && s[0] == coins.d[0] && s[|s| - 1] == 0
  }

  method DrawDeltas(coins: Coins) returns (s: seq<Scalar>)
    requires |coins.d| == |coins.small| >= 2
    ensures Deltas(coins, s)
  {
    var n := |coins.d|;
    var deltas := new Scalar[n](_ => 0);
    deltas[0] := coins.d[0];
    for i := 1 to n - 1
      invariant deltas[0] == coins.d[0] && deltas[n - 1] == 0
    {
      deltas[i] := coins.small[i];
    }
    s := deltas[..];
  }

  /** What the two delta commitments hold, and nothing in the last place. */
  predicate SmallVector(s: seq<Scalar>, d: seq<Scalar>, v: seq<Scalar>) {
    |v| == |s| == |d| > 0 && v[|v| - 1] == 0 && forall i | 0 <= i < |v| - 1 :: v[i] == -s[i] * d[i + 1]
  }

  predicate CapitalVector(a: seq<Scalar>, b: seq<Scalar>, s: seq<Scalar>, d: seq<Scalar>, v: seq<Scalar>) {
    && |v| == |a| == |b| == |s| == |d| > 0 && v[|v| - 1] == 0
    && forall i | 0 <= i < |v| - 1 :: v[i] == s[i + 1] - a[i + 1] * s[i] - b[i] * d[i + 1]
  }

  method CommitDeltas(a: seq<Scalar>, b: seq<Scalar>, s: seq<Scalar>, d: seq<Scalar>)
    returns (v: seq<Scalar>, w: seq<Scalar>)
    requires |a| == |b| == |s| == |d| > 0
    ensures SmallVector(s, d, v) && CapitalVector(a, b, s, d, w)
  {
    var n := |a|;
    var values := new Scalar[n](_ => 0);
    for i := 0 to n - 1
      invariant values[n - 1] == 0 && forall k | 0 <= k < i :: values[k] == -s[k] * d[k + 1]
    {
      values[i] := -s[i] * d[i + 1];
    }
    v := values[..];
    for i := 0 to n - 1
      invariant values[n - 1] == 0 && forall k | 0 <= k < i :: values[k] == s[k + 1] - a[k + 1] * s[k] - b[k] * d[k + 1]
    {
      values[i] := s[i + 1] - a[i + 1] * s[i] - b[i] * d[i + 1];
    }
    w := values[..];
  }

  /** The opened recurrence is the combination of the two delta vectors. */
  lemma StepsCombine(a: seq<Scalar>, b: seq<Scalar>, s: seq<Scalar>, d: seq<Scalar>, v: seq<Scalar>, w: seq<Scalar>,
                     aTilde: seq<Scalar>, bTilde: seq<Scalar>, x: Scalar, i: nat)
    requires RunningProducts(a, b) && SmallVector(s, d, v) && CapitalVector(a, b, s, d, w)
    requires |aTilde| == |bTilde| == |a| && i < |a|
    requires forall k | 0 <= k < |a| :: aTilde[k] == d[k] + x * a[k] && bTilde[k] == s[k] + x * b[k]
    ensures Steps(x, aTilde, bTilde)[i] == v[i] + x * w[i]
  {
    if i < |a| - 1 {
      assert b[i + 1] == b[i + 1 - 1] * a[i + 1];
      StepAlgebra(x, a[i + 1], b[i], b[i + 1], d[i + 1], s[i], s[i + 1], aTilde[i + 1], bTilde[i], bTilde[i + 1]);
    }
  }

  /** The honest product argument: blinded factors, running products and deltas. */
  predicate HonestProduct(o: Oracle, par: Parameters, pi: seq<Scalar>, xpi: seq<Scalar>, wPi: Scalar, wXPi: Scalar,
                          y: Scalar, z: Scalar, coins: Coins, t: Transcript, a: seq<Scalar>, b: seq<Scalar>,
                          s: seq<Scalar>, v: seq<Scalar>, w: seq<Scalar>, arg: ProductArg)
    requires par.q > 0
  {
    var n, x := |par.bases|, ProductChallenge(par.q, o, t, arg.cD, arg.cSmall, arg.cCapital);
    && |pi| == |xpi| == |a| == |coins.d| == |arg.aTilde| == |arg.bTilde| == n >= 2
    && RunningProducts(a, b) && Deltas(coins, s) && SmallVector(s, coins.d, v) && CapitalVector(a, b, s, coins.d, w)
    && (forall i | 0 <= i < n :: a[i] == y * pi[i] + xpi[i] - z)
    && arg.cD == VectorCommit(par, coins.d, coins.wD) && arg.cSmall == VectorCommit(par, v, coins.wSmall)
    && arg.cCapital == VectorCommit(par, w, coins.wCapital)
    && (forall k | 0 <= k < n :: arg.aTilde[k] == coins.d[k] + x * a[k])
    && (forall k | 0 <= k < n :: arg.bTilde[k] == s[k] + x * b[k])
    && arg.rTilde == x * (y * wPi + wXPi) + coins.wD && arg.sTilde == coins.wSmall + x * coins.wCapital
  }

  lemma ProductCompletes(o: Oracle, par: Parameters, perm: seq<nat>, pi: seq<Scalar>, xpi: seq<Scalar>, wPi: Scalar,
                         wXPi: Scalar, xBase: Scalar, y: Scalar, z: Scalar, coins: Coins, t: Transcript,
                         a: seq<Scalar>, b: seq<Scalar>, s: seq<Scalar>, v: seq<Scalar>, w: seq<Scalar>,
                         arg: ProductArg)
    requires par.q > 0 && IsPermutation(perm) && |perm| == |pi|
    requires HonestProduct(o, par, pi, xpi, wPi, wXPi, y, z, coins, t, a, b, s, v, w, arg)
    requires forall i | 0 <= i < |perm| :: pi[i] == perm[i] + 1 && xpi[i] == Power(xBase, perm[i] + 1)
    ensures ProductHolds(o, par, VectorCommit(par, pi, wPi), VectorCommit(par, xpi, wXPi), arg, xBase, y, z, t)
  {
    hide VectorCommit, Dot, Power, Over, IsPermutation, ProductChallenge, Steps, Factors;
    var n, x := |par.bases|, ProductChallenge(par.q, o, t, arg.cD, arg.cSmall, arg.cCapital);
    FactorsPermuted(xBase, y, z, perm, a);
    RunningIsOver(a, b, n - 1);
    forall k | 0 <= k < n ensures arg.aTilde[k] == x * a[k] + coins.d[k] {
    }
    FactorsOpen(par, pi, xpi, a, coins.d, arg.aTilde, wPi, wXPi, coins.wD, x, y, z);
    forall i | 0 <= i < n ensures Steps(x, arg.aTilde, arg.bTilde)[i] == v[i] + x * w[i] {
      StepsCombine(a, b, s, coins.d, v, w, arg.aTilde, arg.bTilde, x, i);
    }
    OpeningHolds(par, v, w, Steps(x, arg.aTilde, arg.bTilde), coins.wSmall, coins.wCapital, x);
  }

  /** Whatever permutation and coins: the argument made here satisfies every equation of its verifier. */
  method ProveProduct(o: Oracle, par: Parameters, ghost perm: seq<nat>, pi: seq<Scalar>, xpi: seq<Scalar>, wPi: Scalar,
                      wXPi: Scalar, ghost xBase: Scalar, y: Scalar, z: Scalar, coins: Coins,
                      t: Transcript) returns (arg: ProductArg)
    requires par.q > 0 && IsPermutation(perm)
      && |perm| == |pi| == |xpi| == |par.bases| == |coins.d| == |coins.small| >= 2
    requires forall i | 0 <= i < |perm| :: pi[i] == perm[i] + 1 && xpi[i] == Power(xBase, perm[i] + 1)
    ensures ProductHolds(o, par, VectorCommit(par, pi, wPi), VectorCommit(par, xpi, wXPi), arg, xBase, y, z, t)
  {
    hide VectorCommit, Dot, Power, IsPermutation, ProductChallenge, ProductHolds, RunningProducts, SmallVector,
      CapitalVector, Deltas;
    var d := coins.d;
    var cD := ComputeVectorCommit(par, d, coins.wD);
    var s := DrawDeltas(coins);
    DeltaSizes(coins, s);
    var a := Combine3(pi, xpi, y, z);
    var b := Running(a);
    RunningSizes(a, b);
    var v, w := CommitDeltas(a, b, s, d);
    VectorSizes(a, b, s, d, v, w);
    var cSmall := ComputeVectorCommit(par, v, coins.wSmall);
    var cCapital := ComputeVectorCommit(par, w, coins.wCapital);
    var x := ProductChallenge(par.q, o, t, cD, cSmall, cCapital);
    var aTilde := Respond(d, a, x);
    var bTilde := Respond(s, b, x);
    arg := ProductArg(cD, cSmall, cCapital, aTilde, bTilde, x * (y * wPi + wXPi) + coins.wD,
                      coins.wSmall + x * coins.wCapital);
    ProductCompletes(o, par, perm, pi, xpi, wPi, wXPi, xBase, y, z, coins, t, a, b, s, v, w, arg);
  }

  lemma DeltaSizes(coins: Coins, s: seq<Scalar>)
    requires Deltas(coins, s)
    ensures |s| == |coins.d|
  {
  }

  lemma RunningSizes(a: seq<Scalar>, b: seq<Scalar>)
    requires RunningProducts(a, b)
    ensures |a| == |b|
  {
  }

  lemma VectorSizes(a: seq<Scalar>, b: seq<Scalar>, s: seq<Scalar>, d: seq<Scalar>, v: seq<Scalar>, w: seq<Scalar>)
    requires SmallVector(s, d, v) && CapitalVector(a, b, s, d, w)
    ensures |v| == |w| == |d|
  {
  }

  method VerifyProduct(o: Oracle, par: Parameters, cPi: Point, cXPi: Point, a: ProductArg, xBase: Scalar, y: Scalar,
                       z: Scalar, t: Transcript) returns (ok: bool)
    requires par.q > 0 && |par.bases| == |a.aTilde| == |a.bTilde| > 0
    ensures ok <==> ProductHolds(o, par, cPi, cXPi, a, xBase, y, z, t)
  {
    hide ProductChallenge, VectorCommit, Power, Over, Same, Steps, Factors, Iota;
    var n, x := |par.bases|, ProductChallenge(par.q, o, t, a.cD, a.cSmall, a.cCapital);
    if !Same(par.q, a.bTilde[0], a.aTilde[0]) {
      return false;
    }
    var product := PublicProduct(xBase, y, z, n);
    if !Same(par.q, a.bTilde[n - 1], x * product) {
      return false;
    }
    var mz := seq(n, _ => -z);
    assert mz == Constant(-z, n);
    var cMZ := ComputeVectorCommit(par, mz, 0);
    var cA := cPi * y + cXPi;
    var factors := ComputeVectorCommit(par, a.aTilde, a.rTilde);
    if !Same(par.q, a.cD + (cA + cMZ) * x, factors) {
      return false;
    }
    var v := ComputeSteps(x, a.aTilde, a.bTilde);
    var steps := ComputeVectorCommit(par, v, a.sTilde);
    return Same(par.q, a.cSmall + a.cCapital * x, steps);
  }

  method PublicProduct(x: Scalar, y: Scalar, z: Scalar, n: nat) returns (product: Scalar)
    ensures product == Over(Multiplying, Factors(x, y, z, n), Iota(n))
  {
    hide Power;
    product := 1;
    ghost var f := Factors(x, y, z, n);
    for i := 1 to n + 1
      invariant product == Over(Multiplying, f, Iota(i - 1))
    {
      assert Iota(i)[..i - 1] == Iota(i - 1);
      var power := FastPower(x, i);
      product := product * (y * i + power - z);
    }
  }

  method ComputeSteps(x: Scalar, aTilde: seq<Scalar>, bTilde: seq<Scalar>) returns (v: seq<Scalar>)
    requires |aTilde| == |bTilde| > 0
    ensures v == Steps(x, aTilde, bTilde)
  {
    var n := |aTilde|;
    var values := new Scalar[n](_ => 0);
    for i := 0 to n - 1
      invariant values[n - 1] == 0
      invariant forall k | 0 <= k < i :: values[k] == x * bTilde[k + 1] - bTilde[k] * aTilde[k + 1]
    {
      values[i] := x * bTilde[i + 1] - bTilde[i] * aTilde[i + 1];
    }
    v := values[..];
  }

  // ---------- The whole argument ----------

  predicate Drawn(coins: Coins, n: nat) { |coins.alpha| == |coins.d| == |coins.small| == n }

  /** For every deck size, permutation, masks, coins and challenges the proof of an honest shuffle verifies. */
  method Prove(o: Oracle, par: Parameters, key: Point, perm: seq<nat>, prev: Deck, next: Deck, rho: seq<Scalar>,
               coins: Coins, binding: bytes) returns (proof: Proof)
    requires Sized(par, prev, next) && Shuffled(key, prev, next, perm, rho) && |prev| >= 2 && Drawn(coins, |prev|)
    requires forall i | 0 <= i < |next| :: !IsZero(par.q, next[i].c1)
    ensures Verifies(o, par, key, prev, next, proof, binding)
  {
    hide MultiHolds, ProductHolds, VectorCommit, ShuffleTranscript, SecondTranscript, BaseChallenge, Power,
      IsPermutation;
    var n := |prev|;
    var indices := new Scalar[n](_ => 0);
    for i := 0 to n
      invariant forall k | 0 <= k < i :: indices[k] == perm[k] + 1
    {
      indices[i] := perm[i] + 1;
    }
    var pi := indices[..];
    var cPi := ComputeVectorCommit(par, pi, coins.wPi);
    var t := ShuffleTranscript(par.q, key, prev, next, cPi, binding);
    var x := BaseChallenge(o, t);
    var powers := new Scalar[n](_ => 0);
    for i := 0 to n
      invariant forall k | 0 <= k < i :: powers[k] == Power(x, perm[k] + 1)
    {
      var power := FastPower(x, perm[i] + 1);
      powers[i] := power;
    }
    var xpi := powers[..];
    var cXPi := ComputeVectorCommit(par, xpi, coins.wXPi);
    var s := SecondTranscript(par.q, t, cXPi);
    var y, z := o(s, "ziffle/BG12/yz/v2", 0), o(s, "ziffle/BG12/yz/v2", 1);
    var multi := ProveMulti(o, par, key, prev, next, perm, rho, x, xpi, coins.wXPi, coins, s);
    var product := ProveProduct(o, par, perm, pi, xpi, coins.wPi, coins.wXPi, x, y, z, coins, s);
    proof := Proof(cPi, cXPi, multi, product);
  }

  method Verify(o: Oracle, par: Parameters, key: Point, prev: Deck, next: Deck, proof: Proof, binding: bytes)
    returns (ok: bool)
    requires Sized(par, prev, next) && |prev| > 0
    requires |proof.multi.oAlpha| == |prev| == |proof.product.aTilde| == |proof.product.bTilde|
    ensures ok <==> Verifies(o, par, key, prev, next, proof, binding)
  {
    hide MultiHolds, ProductHolds, ShuffleTranscript, SecondTranscript, BaseChallenge;
    for i := 0 to |next|
      invariant forall k | 0 <= k < i :: !IsZero(par.q, next[k].c1)
    {
      if IsZero(par.q, next[i].c1) {
        return false;
      }
    }
    var t := ShuffleTranscript(par.q, key, prev, next, proof.cPi, binding);
    var x := BaseChallenge(o, t);
    var s := SecondTranscript(par.q, t, proof.cXPi);
    var y, z := o(s, "ziffle/BG12/yz/v2", 0), o(s, "ziffle/BG12/yz/v2", 1);
    ok := VerifyMulti(o, par, key, prev, next, proof.cXPi, proof.multi, x, s);
    if ok {
      ok := VerifyProduct(o, par, proof.cPi, proof.cXPi, proof.product, x, y, z, s);
    }
  }
}
