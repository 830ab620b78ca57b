/** Special soundness of the shuffle argument. A prover whose first messages are kept and whose challenges are drawn
    again answers a tree of them; either every card of the successor is one of the predecessor's masked again, or the
    tree shows two different openings of one of the prover's commitments. */
module AcceptedTrees {
  import opened Algebra
  import opened Groups
  import opened BayerGroth
  import opened Openings
  import opened Polynomials
  import opened PermutationSoundness
  import opened ProductSoundness
  import opened ShuffleSoundness

  // ---------- Trees of answers ----------

  /** The product argument answered under one challenge; all runs of a leaf share its three commitments. */
  datatype ProductRun = ProductRun(x: Scalar, arg: ProductArg)
  datatype Leaf = Leaf(z: Scalar, runs: seq<ProductRun>)
  datatype Fork = Fork(y: Scalar, leaves: seq<Leaf>)
  datatype MultiRun = MultiRun(x: Scalar, arg: MultiArg)

  /** Everything answered after one base challenge and the commitment to its powers. */
  datatype Branch = Branch(xBase: Scalar, cXPi: Point, one: MultiRun, two: MultiRun, forks: seq<Fork>)
  datatype Tree = Tree(cPi: Point, branches: seq<Branch>)

  function RunChallenges(runs: seq<ProductRun>): (s: seq<Scalar>)
    ensures |s| == |runs| && forall i | 0 <= i < |s| :: s[i] == runs[i].x
  {
    seq(|runs|, i requires 0 <= i < |runs| => runs[i].x)
  }

  function LeafChallenges(leaves: seq<Leaf>): (s: seq<Scalar>)
    ensures |s| == |leaves| && forall i | 0 <= i < |s| :: s[i] == leaves[i].z
  {
    seq(|leaves|, i requires 0 <= i < |leaves| => leaves[i].z)
  }

  function ForkChallenges(forks: seq<Fork>): (s: seq<Scalar>)
    ensures |s| == |forks| && forall i | 0 <= i < |s| :: s[i] == forks[i].y
  {
    seq(|forks|, i requires 0 <= i < |forks| => forks[i].y)
  }

  function BranchChallenges(branches: seq<Branch>): (s: seq<Scalar>)
    ensures |s| == |branches| && forall i | 0 <= i < |s| :: s[i] == branches[i].xBase
  {
    seq(|branches|, i requires 0 <= i < |branches| => branches[i].xBase)
  }

  predicate SameProductMessages(a: ProductArg, b: ProductArg) {
    a.cD == b.cD && a.cSmall == b.cSmall && a.cCapital == b.cCapital
  }

  predicate SameMultiMessages(a: MultiArg, b: MultiArg) {
    a.cAlpha == b.cAlpha && a.cBeta == b.cBeta && a.ct0 == b.ct0 && a.ct1 == b.ct1
  }

  /** One more accepted run than there are cards, under different challenges. */
  predicate LeafAccepts(par: Parameters, cPi: Point, cXPi: Point, xBase: Scalar, y: Scalar, leaf: Leaf)
    requires par.q > 0 && |par.bases| > 0
  {
    var runs := leaf.runs;
    && |runs| == |par.bases| + 1 && Apart(par.q, RunChallenges(runs))
    && forall k | 0 <= k < |runs| ::
      && SameProductMessages(runs[k].arg, runs[0].arg)
      && ProductEquations(par, cPi, cXPi, runs[k].arg, xBase, y, leaf.z, runs[k].x)
  }

  /** As many different z as cards. */
  predicate ForkAccepts(par: Parameters, cPi: Point, cXPi: Point, xBase: Scalar, fork: Fork)
    requires par.q > 0 && |par.bases| > 0
  {
    && |fork.leaves| == |par.bases| && Apart(par.q, LeafChallenges(fork.leaves))
    && forall j | 0 <= j < |fork.leaves| :: LeafAccepts(par, cPi, cXPi, xBase, fork.y, fork.leaves[j])
  }

  /** Two answers of the multi-exponentiation argument, and one more y than there are cards. */
  predicate BranchAccepts(par: Parameters, key: Point, prev: Deck, next: Deck, cPi: Point, b: Branch)
    requires Sized(par, prev, next) && |par.bases| > 0
  {
    && !Same(par.q, b.one.x, b.two.x) && SameMultiMessages(b.one.arg, b.two.arg)
    && MultiEquations(par, key, prev, next, b.cXPi, b.one.arg, b.xBase, b.one.x)
    && MultiEquations(par, key, prev, next, b.cXPi, b.two.arg, b.xBase, b.two.x)
    && |b.forks| == |par.bases| + 1 && Apart(par.q, ForkChallenges(b.forks))
    && forall i | 0 <= i < |b.forks| :: ForkAccepts(par, cPi, b.cXPi, b.xBase, b.forks[i])
  }

  /** One more base challenge than there are cards. */
  predicate TreeAccepts(par: Parameters, key: Point, prev: Deck, next: Deck, t: Tree)
    requires Sized(par, prev, next) && |par.bases| > 0
  {
    && |t.branches| == |par.bases| + 1 && Apart(par.q, BranchChallenges(t.branches))
    && forall b | 0 <= b < |t.branches| :: BranchAccepts(par, key, prev, next, t.cPi, t.branches[b])
  }

  // ---------- What the answers open ----------

  function FactorsOf(run: ProductRun): (o: Opening) { Opening(run.arg.aTilde, run.arg.rTilde) }

  function CrossOf(run: ProductRun): (o: Opening)
    requires |run.arg.aTilde| == |run.arg.bTilde|
    ensures |o.v| == |run.arg.aTilde|
  {
    Opening(Steps(run.x, run.arg.aTilde, run.arg.bTilde), run.arg.sTilde)
  }

  function ExponentsOf(run: MultiRun): (o: Opening) { Opening(run.arg.oAlpha, run.arg.oR) }

  /** Sizes and challenges a leaf's openings are read from. */
  ghost predicate LeafReads(q: nat, n: nat, leaf: Leaf) {
    && PrimeOrder(q) && n > 0 && |leaf.runs| == n + 1 && !Same(q, leaf.runs[0].x, leaf.runs[1].x)
    && forall k | 0 <= k < |leaf.runs| :: |leaf.runs[k].arg.aTilde| == n == |leaf.runs[k].arg.bTilde|
  }

  ghost predicate ForkReads(q: nat, n: nat, fork: Fork) {
    |fork.leaves| == n && forall j | 0 <= j < n :: LeafReads(q, n, fork.leaves[j])
  }

  ghost predicate BranchReads(q: nat, n: nat, b: Branch) {
    && PrimeOrder(q) && n > 0 && |b.forks| == n + 1 && !Same(q, b.one.x, b.two.x)
    && !Same(q, b.forks[0].y, b.forks[1].y)
    && |b.one.arg.oAlpha| == n == |b.two.arg.oAlpha|
    && forall i | 0 <= i < |b.forks| :: ForkReads(q, n, b.forks[i])
  }

  ghost predicate TreeReads(q: nat, n: nat, t: Tree) {
    |t.branches| == n + 1 && forall b | 0 <= b < |t.branches| :: BranchReads(q, n, t.branches[b])
  }

  ghost function FactorStart(q: nat, n: nat, leaf: Leaf): (o: Opening)
    requires LeafReads(q, n, leaf)
    ensures |o.v| == n
  {
    Start(q, leaf.runs[0].x, FactorsOf(leaf.runs[0]), leaf.runs[1].x, FactorsOf(leaf.runs[1]))
  }

  /** The leaf's factors: what the commitment to y pi + chi - z opens to. */
  ghost function FactorSlope(q: nat, n: nat, leaf: Leaf): (o: Opening)
    requires LeafReads(q, n, leaf)
    ensures |o.v| == n
  {
    Slope(q, leaf.runs[0].x, FactorsOf(leaf.runs[0]), leaf.runs[1].x, FactorsOf(leaf.runs[1]))
  }

  ghost function CrossStart(q: nat, n: nat, leaf: Leaf): (o: Opening)
    requires LeafReads(q, n, leaf)
    ensures |o.v| == n
  {
    Start(q, leaf.runs[0].x, CrossOf(leaf.runs[0]), leaf.runs[1].x, CrossOf(leaf.runs[1]))
  }

  ghost function CrossSlope(q: nat, n: nat, leaf: Leaf): (o: Opening)
    requires LeafReads(q, n, leaf)
    ensures |o.v| == n
  {
    Slope(q, leaf.runs[0].x, CrossOf(leaf.runs[0]), leaf.runs[1].x, CrossOf(leaf.runs[1]))
  }

  /** The leaf's factors with z added back. */
  ghost function Unshifted(q: nat, n: nat, leaf: Leaf): (o: Opening)
    requires LeafReads(q, n, leaf)
    ensures |o.v| == n && forall i | 0 <= i < n :: o.v[i] == FactorSlope(q, n, leaf).v[i] + leaf.z
  {
    Combined(1, FactorSlope(q, n, leaf), -1, Opening(Constant(-leaf.z, n), 0))
  }

  /** What the first commitment opens to: the permuted positions. */
  ghost function Positions(q: nat, n: nat, b: Branch): (o: Opening)
    requires BranchReads(q, n, b)
    ensures |o.v| == n
  {
    Slope(q, b.forks[0].y, Unshifted(q, n, b.forks[0].leaves[0]), b.forks[1].y, Unshifted(q, n, b.forks[1].leaves[0]))
  }

  /** What the second opens to: their powers. */
  ghost function Powers(q: nat, n: nat, b: Branch): (o: Opening)
    requires BranchReads(q, n, b)
    ensures |o.v| == n
  {
    Start(q, b.forks[0].y, Unshifted(q, n, b.forks[0].leaves[0]), b.forks[1].y, Unshifted(q, n, b.forks[1].leaves[0]))
  }

  /** The powers again, as the multi-exponentiation argument opens them. */
  ghost function Exponents(q: nat, n: nat, b: Branch): (o: Opening)
    requires BranchReads(q, n, b)
    ensures |o.v| == n
  {
    Slope(q, b.one.x, ExponentsOf(b.one), b.two.x, ExponentsOf(b.two))
  }

  // ---------- Two openings of one point ----------

  /** Where the tree opens a point twice: each run against its leaf's line, each leaf against its branch's line, the two
      openings of the powers, and the positions against the first branch's. */
  datatype Spot =
    | AtFactors(b: nat, i: nat, j: nat, k: nat)
    | AtCross(b: nat, i: nat, j: nat, k: nat)
    | AtLeaf(b: nat, i: nat, j: nat)
    | AtExponents(b: nat)
    | AtPositions(b: nat)

  predicate InTree(n: nat, s: Spot) {
    match s
    case AtFactors(b, i, j, k) => b <= n && i <= n && j < n && k <= n
    case AtCross(b, i, j, k) => b <= n && i <= n && j < n && k <= n
    case AtLeaf(b, i, j) => b <= n && i <= n && j < n
    case AtExponents(b) => b <= n
    case AtPositions(b) => b <= n
  }

  ghost function Compared(q: nat, n: nat, t: Tree, s: Spot): (p: Pair)
    requires TreeReads(q, n, t) && InTree(n, s)
  {
    match s
    case AtFactors(b, i, j, k) =>
      var leaf := t.branches[b].forks[i].leaves[j];
      Pair(FactorsOf(leaf.runs[k]), OnLine(FactorStart(q, n, leaf), FactorSlope(q, n, leaf), leaf.runs[k].x))
    case AtCross(b, i, j, k) =>
      var leaf := t.branches[b].forks[i].leaves[j];
      Pair(CrossOf(leaf.runs[k]), OnLine(CrossStart(q, n, leaf), CrossSlope(q, n, leaf), leaf.runs[k].x))
    case AtLeaf(b, i, j) =>
      var branch := t.branches[b];
      Pair(Unshifted(q, n, branch.forks[i].leaves[j]),
           OnLine(Powers(q, n, branch), Positions(q, n, branch), branch.forks[i].y))
    case AtExponents(b) => Pair(Exponents(q, n, t.branches[b]), Powers(q, n, t.branches[b]))
    case AtPositions(b) => Pair(Positions(q, n, t.branches[b]), Positions(q, n, t.branches[0]))
  }

  ghost predicate Agrees(q: nat, n: nat, t: Tree, s: Spot)
    requires TreeReads(q, n, t) && InTree(n, s) && q > 0
  {
    SameVectors(q, Compared(q, n, t, s).one.v, Compared(q, n, t, s).two.v)
  }

  // ---------- Accepted trees can be read ----------

  lemma LeafIsRead(par: Parameters, cPi: Point, cXPi: Point, xBase: Scalar, y: Scalar, leaf: Leaf)
    requires PrimeOrder(par.q) && |par.bases| > 0 && LeafAccepts(par, cPi, cXPi, xBase, y, leaf)
    ensures LeafReads(par.q, |par.bases|, leaf)
  {
    hide PrimeOrder, Same, VectorCommit, Over, Steps, Factors;
    PrimeIsPositive(par.q);
    assert !Same(par.q, RunChallenges(leaf.runs)[0], RunChallenges(leaf.runs)[1]);
  }

  lemma BranchIsRead(par: Parameters, key: Point, prev: Deck, next: Deck, cPi: Point, b: Branch)
    requires PrimeOrder(par.q) && Sized(par, prev, next) && |par.bases| > 0
      && BranchAccepts(par, key, prev, next, cPi, b)
    ensures BranchReads(par.q, |par.bases|, b)
  {
    hide PrimeOrder, Same, LeafAccepts, LeafReads, VectorCommit, CipherProduct, Responds;
    var n := |par.bases|;
    assert !Same(par.q, ForkChallenges(b.forks)[0], ForkChallenges(b.forks)[1]);
    forall i | 0 <= i < |b.forks|
      ensures ForkReads(par.q, n, b.forks[i])
    {
      assert ForkAccepts(par, cPi, b.cXPi, b.xBase, b.forks[i]);
      forall j | 0 <= j < n
        ensures LeafReads(par.q, n, b.forks[i].leaves[j])
      {
        LeafIsRead(par, cPi, b.cXPi, b.xBase, b.forks[i].y, b.forks[i].leaves[j]);
      }
    }
  }

  lemma TreeIsRead(par: Parameters, key: Point, prev: Deck, next: Deck, t: Tree)
    requires PrimeOrder(par.q) && Sized(par, prev, next) && |par.bases| > 0 && TreeAccepts(par, key, prev, next, t)
    ensures TreeReads(par.q, |par.bases|, t)
  {
    hide PrimeOrder, BranchAccepts, BranchReads;
    forall b | 0 <= b < |t.branches|
      ensures BranchReads(par.q, |par.bases|, t.branches[b])
    {
      BranchIsRead(par, key, prev, next, t.cPi, t.branches[b]);
    }
  }

  // ---------- Every comparison opens one point ----------

  /** The point the factors of a leaf open. */
  function LeafPoint(par: Parameters, cPi: Point, cXPi: Point, y: Scalar, z: Scalar): (c: Point) {
    cPi * y + cXPi + VectorCommit(par, Constant(-z, |par.bases|), 0)
  }

  lemma RunOpens(par: Parameters, cPi: Point, cXPi: Point, xBase: Scalar, y: Scalar, leaf: Leaf, k: nat)
    requires par.q > 0 && |par.bases| > 0 && LeafAccepts(par, cPi, cXPi, xBase, y, leaf) && k < |leaf.runs|
    ensures |leaf.runs[k].arg.aTilde| == |par.bases| == |leaf.runs[k].arg.bTilde|
    ensures Opens(par, leaf.runs[0].arg.cD + LeafPoint(par, cPi, cXPi, y, leaf.z) * leaf.runs[k].x,
                  FactorsOf(leaf.runs[k]))
    ensures Opens(par, leaf.runs[0].arg.cSmall + leaf.runs[0].arg.cCapital * leaf.runs[k].x, CrossOf(leaf.runs[k]))
  {
    hide Same, VectorCommit, Over, Steps, Factors;
    assert ProductEquations(par, cPi, cXPi, leaf.runs[k].arg, xBase, y, leaf.z, leaf.runs[k].x);
    assert SameProductMessages(leaf.runs[k].arg, leaf.runs[0].arg);
  }

  /** The leaf's lines open its commitments. */
  lemma LeafOpens(par: Parameters, cPi: Point, cXPi: Point, xBase: Scalar, y: Scalar, leaf: Leaf)
    requires PrimeOrder(par.q) && |par.bases| > 0 && LeafAccepts(par, cPi, cXPi, xBase, y, leaf)
    requires LeafReads(par.q, |par.bases|, leaf)
    ensures var n, arg := |par.bases|, leaf.runs[0].arg;
      && Opens(par, arg.cD, FactorStart(par.q, n, leaf))
      && Opens(par, LeafPoint(par, cPi, cXPi, y, leaf.z), FactorSlope(par.q, n, leaf))
      && Opens(par, arg.cSmall, CrossStart(par.q, n, leaf)) && Opens(par, arg.cCapital, CrossSlope(par.q, n, leaf))
  {
    hide PrimeOrder, Opens, LeafAccepts, LeafPoint, Same, Steps, Slope, Start;
    PrimeIsPositive(par.q);
    RunOpens(par, cPi, cXPi, xBase, y, leaf, 0);
    RunOpens(par, cPi, cXPi, xBase, y, leaf, 1);
    var a, b, arg := leaf.runs[0], leaf.runs[1], leaf.runs[0].arg;
    TwoAnswersOpen(par, arg.cD, LeafPoint(par, cPi, cXPi, y, leaf.z), a.x, FactorsOf(a), b.x, FactorsOf(b));
    TwoAnswersOpen(par, arg.cSmall, arg.cCapital, a.x, CrossOf(a), b.x, CrossOf(b));
  }

  lemma UnshiftedOpens(par: Parameters, cPi: Point, cXPi: Point, xBase: Scalar, y: Scalar, leaf: Leaf)
    requires PrimeOrder(par.q) && |par.bases| > 0 && LeafAccepts(par, cPi, cXPi, xBase, y, leaf)
    requires LeafReads(par.q, |par.bases|, leaf)
    ensures Opens(par, cXPi + cPi * y, Unshifted(par.q, |par.bases|, leaf))
  {
    hide PrimeOrder, LeafAccepts, LeafReads, Same, VectorCommit, FactorSlope;
    PrimeIsPositive(par.q);
    var n := |par.bases|;
    LeafOpens(par, cPi, cXPi, xBase, y, leaf);
    var shift := Opening(Constant(-leaf.z, n), 0);
    var c := VectorCommit(par, shift.v, shift.r);
    Reflexive(par.q, c);
    CombinedOpens(par, LeafPoint(par, cPi, cXPi, y, leaf.z), FactorSlope(par.q, n, leaf), c, shift, 1, -1);
    assert 1 * LeafPoint(par, cPi, cXPi, y, leaf.z) + -1 * c == cXPi + cPi * y;
  }

  lemma BranchOpens(par: Parameters, key: Point, prev: Deck, next: Deck, cPi: Point, b: Branch)
    requires PrimeOrder(par.q) && Sized(par, prev, next) && |par.bases| > 0
      && BranchAccepts(par, key, prev, next, cPi, b)
    requires BranchReads(par.q, |par.bases|, b)
    ensures var n := |par.bases|;
      && Opens(par, cPi, Positions(par.q, n, b)) && Opens(par, b.cXPi, Powers(par.q, n, b))
      && Opens(par, b.cXPi, Exponents(par.q, n, b))
  {
    hide PrimeOrder, LeafAccepts, LeafReads, Same, VectorCommit, Opens, Slope, Start, Unshifted, CipherProduct,
      Responds;
    PrimeIsPositive(par.q);
    var n := |par.bases|;
    assert ForkReads(par.q, n, b.forks[0]) && ForkReads(par.q, n, b.forks[1]);
    assert ForkAccepts(par, cPi, b.cXPi, b.xBase, b.forks[0]) && ForkAccepts(par, cPi, b.cXPi, b.xBase, b.forks[1]);
    var l, m := b.forks[0].leaves[0], b.forks[1].leaves[0];
    UnshiftedOpens(par, cPi, b.cXPi, b.xBase, b.forks[0].y, l);
    UnshiftedOpens(par, cPi, b.cXPi, b.xBase, b.forks[1].y, m);
    TwoAnswersOpen(par, b.cXPi, cPi, b.forks[0].y, Unshifted(par.q, n, l), b.forks[1].y, Unshifted(par.q, n, m));
    MultiOpens(par, key, prev, next, b.cXPi, b.one.arg, b.xBase, b.one.x);
    MultiOpens(par, key, prev, next, b.cXPi, b.two.arg, b.xBase, b.two.x);
    TwoAnswersOpen(par, b.one.arg.cAlpha, b.cXPi, b.one.x, ExponentsOf(b.one), b.two.x, ExponentsOf(b.two));
  }

  lemma MultiOpens(par: Parameters, key: Point, prev: Deck, next: Deck, cXPi: Point, a: MultiArg, xBase: Scalar,
                   x: Scalar)
    requires Sized(par, prev, next) && MultiEquations(par, key, prev, next, cXPi, a, xBase, x)
    ensures Opens(par, a.cAlpha + cXPi * x, Opening(a.oAlpha, a.oR))
    ensures Same(par.q, a.cBeta, Commit(par, a.beta, a.oBeta))
  {
    hide VectorCommit, CipherProduct, Weights, Responds, Commit;
    assert cXPi * x + a.cAlpha == a.cAlpha + cXPi * x;
  }

  /** Both sides of every comparison open the same point. */
  lemma ComparedOpenTogether(par: Parameters, key: Point, prev: Deck, next: Deck, t: Tree, s: Spot)
    requires PrimeOrder(par.q) && Sized(par, prev, next) && |par.bases| > 0 && TreeAccepts(par, key, prev, next, t)
    requires TreeReads(par.q, |par.bases|, t) && InTree(|par.bases|, s)
    ensures OpenTogether(par, Compared(par.q, |par.bases|, t, s))
  {
    hide PrimeOrder, LeafAccepts, LeafReads, BranchReads, BranchAccepts, Opens, OpenTogether, OnLine, Positions, Powers,
      Exponents, Unshifted, FactorStart, FactorSlope, CrossStart, CrossSlope, LeafPoint;
    PrimeIsPositive(par.q);
    var q, n := par.q, |par.bases|;
    var branch := t.branches[s.b];
    BranchOpens(par, key, prev, next, t.cPi, branch);
    match s
    case AtFactors(b, i, j, k) =>
      var leaf := LeafAt(par, key, prev, next, t.cPi, branch, i, j);
      RunOpens(par, t.cPi, branch.cXPi, branch.xBase, branch.forks[i].y, leaf, k);
      LeafOpens(par, t.cPi, branch.cXPi, branch.xBase, branch.forks[i].y, leaf);
      var c, g := leaf.runs[0].arg.cD, LeafPoint(par, t.cPi, branch.cXPi, branch.forks[i].y, leaf.z);
      LineOpens(par, c, g, FactorStart(q, n, leaf), FactorSlope(q, n, leaf), leaf.runs[k].x);
      BothOpen(par, c + g * leaf.runs[k].x, Compared(q, n, t, s).one, Compared(q, n, t, s).two);
    case AtCross(b, i, j, k) =>
      var leaf := LeafAt(par, key, prev, next, t.cPi, branch, i, j);
      RunOpens(par, t.cPi, branch.cXPi, branch.xBase, branch.forks[i].y, leaf, k);
      LeafOpens(par, t.cPi, branch.cXPi, branch.xBase, branch.forks[i].y, leaf);
      var c, g := leaf.runs[0].arg.cSmall, leaf.runs[0].arg.cCapital;
      LineOpens(par, c, g, CrossStart(q, n, leaf), CrossSlope(q, n, leaf), leaf.runs[k].x);
      BothOpen(par, c + g * leaf.runs[k].x, Compared(q, n, t, s).one, Compared(q, n, t, s).two);
    case AtLeaf(b, i, j) =>
      var leaf := LeafAt(par, key, prev, next, t.cPi, branch, i, j);
      UnshiftedOpens(par, t.cPi, branch.cXPi, branch.xBase, branch.forks[i].y, leaf);
      LineOpens(par, branch.cXPi, t.cPi, Powers(q, n, branch), Positions(q, n, branch), branch.forks[i].y);
      BothOpen(par, branch.cXPi + t.cPi * branch.forks[i].y, Compared(q, n, t, s).one, Compared(q, n, t, s).two);
    case AtExponents(b) =>
      BothOpen(par, branch.cXPi, Exponents(q, n, branch), Powers(q, n, branch));
    case AtPositions(b) =>
      BranchOpens(par, key, prev, next, t.cPi, t.branches[0]);
      BothOpen(par, t.cPi, Positions(q, n, branch), Positions(q, n, t.branches[0]));
  }

  /** A leaf of an accepted branch, accepted and readable. */
  lemma LeafAt(par: Parameters, key: Point, prev: Deck, next: Deck, cPi: Point, b: Branch, i: nat, j: nat)
    returns (leaf: Leaf)
    requires PrimeOrder(par.q) && Sized(par, prev, next) && |par.bases| > 0
      && BranchAccepts(par, key, prev, next, cPi, b)
    requires i <= |par.bases| && j < |par.bases|
    ensures i < |b.forks| && j < |b.forks[i].leaves| && leaf == b.forks[i].leaves[j]
    ensures LeafAccepts(par, cPi, b.cXPi, b.xBase, b.forks[i].y, leaf) && LeafReads(par.q, |par.bases|, leaf)
    ensures |leaf.runs| == |par.bases| + 1
  {
    hide PrimeOrder, Apart, MultiEquations, LeafAccepts, LeafReads;
    assert ForkAccepts(par, cPi, b.cXPi, b.xBase, b.forks[i]);
    leaf := b.forks[i].leaves[j];
    LeafIsRead(par, cPi, b.cXPi, b.xBase, b.forks[i].y, leaf);
    assert |leaf.runs| == |par.bases| + 1 by { LeafIsFull(par.q, |par.bases|, leaf); }
  }

  lemma LeafIsFull(q: nat, n: nat, leaf: Leaf)
    requires LeafReads(q, n, leaf)
    ensures |leaf.runs| == n + 1
  {
  }

  // ---------- Agreeing trees hold a shuffle ----------

  /** A leaf whose runs stay on its lines: the factors multiply to the public product. */
  lemma LeafMultiplies(par: Parameters, cPi: Point, cXPi: Point, xBase: Scalar, y: Scalar, leaf: Leaf)
    requires PrimeOrder(par.q) && |par.bases| > 0 && LeafAccepts(par, cPi, cXPi, xBase, y, leaf)
    requires LeafReads(par.q, |par.bases|, leaf)
    requires forall k | 0 <= k < |leaf.runs| ::
      && SameVectors(par.q, FactorsOf(leaf.runs[k]).v,
                     OnLine(FactorStart(par.q, |par.bases|, leaf), FactorSlope(par.q, |par.bases|, leaf),
                            leaf.runs[k].x).v)
      && SameVectors(par.q, CrossOf(leaf.runs[k]).v,
                     OnLine(CrossStart(par.q, |par.bases|, leaf), CrossSlope(par.q, |par.bases|, leaf),
                            leaf.runs[k].x).v)
    ensures var n, a := |par.bases|, FactorSlope(par.q, |par.bases|, leaf).v;
      Same(par.q, Over(Multiplying, a, Iota(n)), Over(Multiplying, Factors(xBase, y, leaf.z, n), Iota(n)))
  {
    hide PrimeOrder, Same, Over, Factors, FactorStart, FactorSlope, CrossStart, CrossSlope, Follows, LeafAccepts,
      OnLine, FactorsOf, CrossOf, SameVectors;
    PrimeIsPositive(par.q);
    var q, n, runs := par.q, |par.bases|, leaf.runs;
    var d, a := FactorStart(q, n, leaf), FactorSlope(q, n, leaf);
    var s, w := CrossStart(q, n, leaf), CrossSlope(q, n, leaf);
    var product := Over(Multiplying, Factors(xBase, y, leaf.z, n), Iota(n));
    var aTildes := seq(n + 1, k requires 0 <= k < n + 1 => runs[k].arg.aTilde);
    var bTildes := seq(n + 1, k requires 0 <= k < n + 1 => runs[k].arg.bTilde);
    forall k | 0 <= k < n + 1
      ensures Follows(q, d.v, a.v, s.v, w.v, RunChallenges(runs)[k], aTildes[k], bTildes[k], product)
    {
      RunFollows(par, cPi, cXPi, xBase, y, leaf, k, d, a, s, w);
    }
    assert Apart(q, RunChallenges(runs)) by { LeafIsApart(par, cPi, cXPi, xBase, y, leaf); }
    FactorsMultiply(q, d.v, a.v, s.v, w.v, RunChallenges(runs), aTildes, bTildes, product);
  }

  lemma LeafIsApart(par: Parameters, cPi: Point, cXPi: Point, xBase: Scalar, y: Scalar, leaf: Leaf)
    requires par.q > 0 && |par.bases| > 0 && LeafAccepts(par, cPi, cXPi, xBase, y, leaf)
    ensures Apart(par.q, RunChallenges(leaf.runs))
  {
  }

  lemma RunFollows(par: Parameters, cPi: Point, cXPi: Point, xBase: Scalar, y: Scalar, leaf: Leaf, k: nat, d: Opening,
                   a: Opening, s: Opening, w: Opening)
    requires par.q > 0 && |par.bases| > 0 && LeafAccepts(par, cPi, cXPi, xBase, y, leaf) && k < |leaf.runs|
    requires |leaf.runs[k].arg.aTilde| == |leaf.runs[k].arg.bTilde| == |par.bases| == |d.v| == |a.v| == |s.v| == |w.v|
    requires SameVectors(par.q, FactorsOf(leaf.runs[k]).v, OnLine(d, a, leaf.runs[k].x).v)
    requires SameVectors(par.q, CrossOf(leaf.runs[k]).v, OnLine(s, w, leaf.runs[k].x).v)
    ensures var n, run := |par.bases|, leaf.runs[k];
      Follows(par.q, d.v, a.v, s.v, w.v, run.x, run.arg.aTilde, run.arg.bTilde,
              Over(Multiplying, Factors(xBase, y, leaf.z, n), Iota(n)))
  {
    hide Same, Over, Factors, VectorCommit, SameVectors, OnLine, CrossOf, Iota, Steps;
    var run := leaf.runs[k];
    assert ProductEquations(par, cPi, cXPi, run.arg, xBase, y, leaf.z, run.x);
    FactorsFollow(par.q, d, a, run);
    CrossFollows(par.q, s, w, run);
  }

  lemma FactorsFollow(q: nat, d: Opening, a: Opening, run: ProductRun)
    requires q > 0 && |d.v| == |a.v| && SameVectors(q, FactorsOf(run).v, OnLine(d, a, run.x).v)
    ensures forall i | 0 <= i < |d.v| :: Same(q, run.arg.aTilde[i], d.v[i] + run.x * a.v[i])
  {
    hide Same;
    forall i | 0 <= i < |d.v|
      ensures Same(q, run.arg.aTilde[i], d.v[i] + run.x * a.v[i])
    {
      assert OnLine(d, a, run.x).v[i] == 1 * d.v[i] + run.x * a.v[i];
    }
  }

  lemma CrossFollows(q: nat, s: Opening, w: Opening, run: ProductRun)
    requires q > 0 && |s.v| == |w.v| == |run.arg.aTilde| == |run.arg.bTilde|
    requires SameVectors(q, CrossOf(run).v, OnLine(s, w, run.x).v)
    ensures var aT, bT := run.arg.aTilde, run.arg.bTilde;
      forall i | 0 <= i < |s.v| - 1 :: Same(q, run.x * bT[i + 1] - bT[i] * aT[i + 1], s.v[i] + run.x * w.v[i])
  {
    hide Same;
    var aT, bT := run.arg.aTilde, run.arg.bTilde;
    forall i | 0 <= i < |s.v| - 1
      ensures Same(q, run.x * bT[i + 1] - bT[i] * aT[i + 1], s.v[i] + run.x * w.v[i])
    {
      assert CrossOf(run).v[i] == run.x * bT[i + 1] - bT[i] * aT[i + 1];
      assert OnLine(s, w, run.x).v[i] == 1 * s.v[i] + run.x * w.v[i];
    }
  }

  /** Every comparison of the tree agrees. */
  ghost predicate AllAgree(q: nat, n: nat, t: Tree)
    requires TreeReads(q, n, t) && q > 0
  {
    forall s | InTree(n, s) :: Agrees(q, n, t, s)
  }

  /** The leaf's point, answered: the committed values' differences multiply to the public ones'. */
  lemma LeafGaps(par: Parameters, key: Point, prev: Deck, next: Deck, t: Tree, b: nat, i: nat, j: nat)
    requires PrimeOrder(par.q) && Sized(par, prev, next) && |par.bases| > 0 && TreeAccepts(par, key, prev, next, t)
    requires TreeReads(par.q, |par.bases|, t) && AllAgree(par.q, |par.bases|, t)
    requires b <= |par.bases| && i <= |par.bases| && j < |par.bases|
    ensures var n, branch := |par.bases|, t.branches[b];
      var pi, chi := Positions(par.q, n, branch).v, Powers(par.q, n, branch).v;
      var y, z := branch.forks[i].y, branch.forks[i].leaves[j].z;
      Same(par.q, Gaps(PublicMixed(branch.xBase, y, n), z), Gaps(Mixed(pi, chi, y), z))
  {
    hide PrimeOrder, BranchAccepts, BranchReads, LeafAccepts, Same, Over, Factors, Gaps, FactorStart, FactorSlope,
      CrossStart, CrossSlope, Positions, Powers, Unshifted, SameVectors, OnLine, Power, AllAgree, Agrees, FactorsOf,
      CrossOf;
    PrimeIsPositive(par.q);
    var q, n, branch := par.q, |par.bases|, t.branches[b];
    var leaf := LeafAt(par, key, prev, next, t.cPi, branch, i, j);
    var y := branch.forks[i].y;
    forall k | 0 <= k < |leaf.runs|
      ensures SameVectors(q, FactorsOf(leaf.runs[k]).v,
                          OnLine(FactorStart(q, n, leaf), FactorSlope(q, n, leaf), leaf.runs[k].x).v)
      ensures SameVectors(q, CrossOf(leaf.runs[k]).v,
                          OnLine(CrossStart(q, n, leaf), CrossSlope(q, n, leaf), leaf.runs[k].x).v)
    {
      AgreesAt(q, n, t, AtFactors(b, i, j, k));
      AgreesAt(q, n, t, AtCross(b, i, j, k));
    }
    LeafMultiplies(par, t.cPi, branch.cXPi, branch.xBase, y, leaf);
    AgreesAt(q, n, t, AtLeaf(b, i, j));
    var pi, chi, a := Positions(q, n, branch).v, Powers(q, n, branch).v, FactorSlope(q, n, leaf).v;
    forall m | 0 <= m < n
      ensures Same(q, a[m], y * pi[m] + chi[m] - leaf.z)
    {
      MixedAt(q, n, branch, leaf, y, m);
    }
    ProductIsGaps(q, pi, chi, branch.xBase, y, leaf.z, a);
  }

  lemma AgreesAt(q: nat, n: nat, t: Tree, s: Spot)
    requires q > 0 && TreeReads(q, n, t) && AllAgree(q, n, t) && InTree(n, s)
    ensures SameVectors(q, Compared(q, n, t, s).one.v, Compared(q, n, t, s).two.v)
  {
    hide SameVectors, Compared, InTree, TreeReads;
    assert Agrees(q, n, t, s);
  }

  lemma MixedAt(q: nat, n: nat, b: Branch, leaf: Leaf, y: Scalar, m: nat)
    requires q > 0 && BranchReads(q, n, b) && LeafReads(q, n, leaf) && m < n
    requires SameVectors(q, Unshifted(q, n, leaf).v, OnLine(Powers(q, n, b), Positions(q, n, b), y).v)
    ensures Same(q, FactorSlope(q, n, leaf).v[m], y * Positions(q, n, b).v[m] + Powers(q, n, b).v[m] - leaf.z)
  {
    hide Same, PrimeOrder, Positions, Powers, FactorSlope;
    var line := OnLine(Powers(q, n, b), Positions(q, n, b), y);
    var a := FactorSlope(q, n, leaf).v[m];
    assert line.v[m] == 1 * Powers(q, n, b).v[m] + y * Positions(q, n, b).v[m];
    assert Unshifted(q, n, leaf).v[m] == a + leaf.z;
    Reflexive(q, leaf.z);
    SameSums(q, a + leaf.z, line.v[m], leaf.z, leaf.z);
  }

  /** So each branch's committed values are the positions and their powers, permuted. */
  lemma BranchPermutes(par: Parameters, key: Point, prev: Deck, next: Deck, t: Tree, b: nat) returns (perm: seq<nat>)
    requires PrimeOrder(par.q) && Sized(par, prev, next) && par.q > |par.bases| > 0
      && TreeAccepts(par, key, prev, next, t)
    requires TreeReads(par.q, |par.bases|, t) && AllAgree(par.q, |par.bases|, t) && b <= |par.bases|
    ensures IsPermutation(perm)
    ensures var n, branch := |par.bases|, t.branches[b];
      ArePermuted(par.q, Positions(par.q, n, branch).v, Powers(par.q, n, branch).v, branch.xBase, perm)
  {
    hide PrimeOrder, BranchReads, LeafAccepts, Same, Gaps, Positions, Powers, Apart, AllAgree, MultiEquations,
      IsPermutation, ArePermuted;
    PrimeIsPositive(par.q);
    var q, n, branch := par.q, |par.bases|, t.branches[b];
    assert BranchAccepts(par, key, prev, next, t.cPi, branch);
    var pi, chi := Positions(q, n, branch).v, Powers(q, n, branch).v;
    var ys := ForkChallenges(branch.forks);
    var zss := seq(n + 1, i requires 0 <= i < n + 1 => LeafChallenges(branch.forks[i].leaves));
    forall i | 0 <= i < n + 1
      ensures |zss[i]| >= n && Apart(q, zss[i]) && GapsAgree(q, pi, chi, branch.xBase, ys[i], zss[i])
    {
      assert ForkAccepts(par, t.cPi, branch.cXPi, branch.xBase, branch.forks[i]);
      forall j | 0 <= j < n
        ensures Same(q, Gaps(PublicMixed(branch.xBase, ys[i], n), zss[i][j]), Gaps(Mixed(pi, chi, ys[i]), zss[i][j]))
      {
        LeafGaps(par, key, prev, next, t, b, i, j);
      }
    }
    perm := PermutationHeld(q, pi, chi, branch.xBase, ys, zss);
  }

  /** Equal positions are permuted alike. */
  lemma OnePermutation(q: nat, pi: seq<Scalar>, pi': seq<Scalar>, chi: seq<Scalar>, chi': seq<Scalar>, x: Scalar,
                       x': Scalar, perm: seq<nat>, perm': seq<nat>)
    requires q > |pi| && SameVectors(q, pi, pi') && ArePermuted(q, pi, chi, x, perm)
      && ArePermuted(q, pi', chi', x', perm')
    ensures perm == perm'
  {
    hide Same, Power;
    forall i | 0 <= i < |perm|
      ensures perm[i] == perm'[i]
    {
      Transitive(q, pi[i], pi'[i], perm'[i] + 1);
      SmallAreApart(q, pi[i], perm[i] + 1, perm'[i] + 1);
    }
  }

  /** The two openings of the second commitment agree, so the exponents are the permuted powers. */
  lemma ExponentsPermuted(q: nat, n: nat, b: Branch, perm: seq<nat>, i: nat)
    requires q > 0 && BranchReads(q, n, b) && i < n
    requires SameVectors(q, Exponents(q, n, b).v, Powers(q, n, b).v)
    requires ArePermuted(q, Positions(q, n, b).v, Powers(q, n, b).v, b.xBase, perm)
    ensures |perm| == n && perm[i] < n && Same(q, Exponents(q, n, b).v[i], Power(b.xBase, perm[i] + 1))
  {
    hide Same, Power, Exponents, Powers, Positions, PrimeOrder;
    Transitive(q, Exponents(q, n, b).v[i], Powers(q, n, b).v[i], Power(b.xBase, perm[i] + 1));
  }

  // ---------- The multi-exponentiation argument ----------

  /** The second term of a sum answered under two challenges. */
  lemma TwoSums(q: nat, c: int, g: int, x: Scalar, r: int, y: Scalar, s: int, u: Scalar)
    requires q > 0 && Same(q, c + g * x, r) && Same(q, c + g * y, s) && IsInverse(q, u, x - y)
    ensures Same(q, g, u * (r - s))
  {
    hide Same;
    SameSums(q, c + g * x, r, c + g * y, s);
    assert c + g * x - (c + g * y) == g * (x - y);
    SameMultiples(q, g * (x - y), r - s, u);
    SameMultiples(q, u * (x - y), 1, g);
    assert u * (g * (x - y)) == g * (u * (x - y)) by { Associate(u, g, x - y); }
    assert g * 1 == g;
    SameTwice(q, g * (u * (x - y)), g, u * (r - s));
  }

  /** Two answers under equal blinding show the mask: the weighted predecessor re-encrypts the successor. */
  lemma BranchReencrypts(par: Parameters, key: Point, prev: Deck, next: Deck, cPi: Point, b: Branch)
    returns (tau: Scalar)
    requires PrimeOrder(par.q) && Sized(par, prev, next) && |par.bases| > 0
      && BranchAccepts(par, key, prev, next, cPi, b)
    requires BranchReads(par.q, |par.bases|, b) && Same(par.q, b.one.arg.beta, b.two.arg.beta)
    ensures Reencrypts(par.q, key, prev, next, b.xBase, Exponents(par.q, |par.bases|, b).v, tau)
  {
    hide PrimeOrder, ForkAccepts, ForkReads, Same, VectorCommit, Commit, Dot, Weights, IsInverse, IsCombination;
    PrimeIsPositive(par.q);
    var q, n := par.q, |par.bases|;
    var x, y, one, two := b.one.x, b.two.x, b.one.arg, b.two.arg;
    assert !IsZero(q, x - y) by { DifferentIsNotZero(q, x, y); }
    var u := Inverse(q, x - y);
    var e := Exponents(q, n, b);
    tau := u * (one.tau - two.tau);
    assert e == Combined(u, ExponentsOf(b.one), -u, ExponentsOf(b.two));
    assert IsCombination(u, one.oAlpha, -u, two.oAlpha, e.v) by {
      CombinedIsCombination(u, ExponentsOf(b.one), ExponentsOf(b.two));
    }
    Coordinate(q, Firsts(next), one.oAlpha, two.oAlpha, e.v, one.ct0.c1, one.ct1.c1, x, y, u, one.tau, two.tau);
    Blinded(q, key, one.beta, two.beta, one.tau, two.tau, u);
    Coordinate(q, Seconds(next), one.oAlpha, two.oAlpha, e.v, one.ct0.c2, one.ct1.c2, x, y, u, one.beta + key * one.tau,
               two.beta + key * two.tau);
    Reanchored(q, key, prev, next, b.xBase, one.ct1, e.v, tau,
               u * (one.beta + key * one.tau - (two.beta + key * two.tau)));
  }

  lemma DifferentIsNotZero(q: nat, x: Scalar, y: Scalar)
    requires q > 0 && !Same(q, x, y)
    ensures !IsZero(q, x - y)
  {
    ZeroDifference(q, x, y);
  }

  predicate IsCombination(u: Scalar, f: seq<Scalar>, v: Scalar, g: seq<Scalar>, e: seq<Scalar>) {
    |f| == |g| == |e| && forall i | 0 <= i < |e| :: e[i] == u * f[i] + v * g[i]
  }

  lemma CombinedIsCombination(u: Scalar, f: Opening, g: Opening)
    requires |f.v| == |g.v|
    ensures IsCombination(u, f.v, -u, g.v, Combined(u, f, -u, g).v)
  {
  }

  lemma CombinationDot(a: seq<int>, u: Scalar, f: seq<Scalar>, v: Scalar, g: seq<Scalar>, e: seq<Scalar>)
    requires |a| == |f| == |g| == |e| && IsCombination(u, f, v, g, e)
    ensures Dot(a, e) == u * Dot(a, f) + v * Dot(a, g)
  {
    hide Dot;
    DotLinear(a, f, g, e, u, v);
  }

  /** One coordinate: what the answers say of the anchored term. */
  lemma Coordinate(q: nat, a: seq<int>, f: seq<Scalar>, g: seq<Scalar>, e: seq<Scalar>, c0: int, c1: int, x: Scalar,
                   y: Scalar, u: Scalar, r: int, s: int)
    requires q > 0 && |a| == |f| == |g| == |e| && IsInverse(q, u, x - y) && IsCombination(u, f, -u, g, e)
    requires Same(q, c0 + c1 * x, r + Dot(a, f)) && Same(q, c0 + c1 * y, s + Dot(a, g))
    ensures Same(q, c1, u * (r - s) + Dot(a, e))
  {
    hide Same, Dot, IsInverse, IsCombination;
    TwoSums(q, c0, c1, x, r + Dot(a, f), y, s + Dot(a, g), u);
    CombinationDot(a, u, f, -u, g, e);
    CoordinateAlgebra(u, r, s, Dot(a, f), Dot(a, g), Dot(a, e));
  }

  lemma CoordinateAlgebra(u: int, r: int, s: int, d: int, d': int, e: int)
    requires e == u * d + -u * d'
    ensures u * (r + d - (s + d')) == u * (r - s) + e
  {
    Negated(u, d');
    assert u * (r - s) == u * r - u * s;
    assert u * (r + d - (s + d')) == u * r + u * d - u * s - u * d';
  }

  /** Equal blinding cancels: the second coordinates differ by the key's share of the mask. */
  lemma Blinded(q: nat, key: Point, beta: Scalar, beta': Scalar, tau: Scalar, tau': Scalar, u: Scalar)
    requires q > 0 && Same(q, beta, beta')
    ensures Same(q, u * (beta + key * tau - (beta' + key * tau')), key * (u * (tau - tau')))
  {
    hide Same;
    Reflexive(q, beta');
    SameSums(q, beta, beta', beta', beta');
    SameMultiples(q, beta - beta', beta' - beta', u);
    assert u * (beta' - beta') == 0;
    var k := key * (u * (tau - tau'));
    Reflexive(q, k);
    SameSums(q, u * (beta - beta'), 0, k, k);
    assert u * (beta + key * tau - (beta' + key * tau')) == u * (beta - beta') + k by {
      assert beta + key * tau - (beta' + key * tau') == beta - beta' + key * (tau - tau') by {
        assert key * (tau - tau') == key * tau - key * tau';
      }
      assert u * (beta - beta' + key * (tau - tau')) == u * (beta - beta') + u * (key * (tau - tau'));
      Associate(u, key, tau - tau');
    }
  }

  lemma Reanchored(q: nat, key: Point, prev: Deck, next: Deck, x: Scalar, ct1: Card, e: seq<Scalar>, tau: Scalar,
                   m: int)
    requires q > 0 && |prev| == |next| == |e| && SameCard(q, CipherProduct(prev, Weights(x, |prev|)), ct1)
    requires Same(q, ct1.c1, tau + Dot(Firsts(next), e)) && Same(q, ct1.c2, m + Dot(Seconds(next), e))
      && Same(q, m, key * tau)
    ensures Reencrypts(q, key, prev, next, x, e, tau)
  {
    hide Same, Dot, Weights;
    var d := Dot(Seconds(next), e);
    Reflexive(q, d);
    SameSums(q, m, key * tau, d, d);
    Transitive(q, Dot(Firsts(prev), Weights(x, |prev|)), ct1.c1, tau + Dot(Firsts(next), e));
    Transitive(q, ct1.c2, m + d, key * tau + d);
    Transitive(q, Dot(Seconds(prev), Weights(x, |prev|)), ct1.c2, key * tau + d);
  }

  // ---------- The theorem ----------

  /** Each branch blinded both of its answers alike. */
  predicate BetasAgree(q: nat, t: Tree)
    requires q > 0
  {
    forall b | 0 <= b < |t.branches| :: Same(q, t.branches[b].one.arg.beta, t.branches[b].two.arg.beta)
  }

  /** An accepted tree in which nothing is opened in two ways holds a shuffle. */
  lemma AgreeingTreeIsAShuffle(par: Parameters, key: Point, prev: Deck, next: Deck, t: Tree)
    returns (perm: seq<nat>, rho: seq<Scalar>)
    requires PrimeOrder(par.q) && Sized(par, prev, next) && par.q > |par.bases| > 0
      && TreeAccepts(par, key, prev, next, t)
    requires TreeReads(par.q, |par.bases|, t) && AllAgree(par.q, |par.bases|, t) && BetasAgree(par.q, t)
    ensures ShuffledModulo(par.q, key, prev, next, perm, rho)
  {
    hide PrimeOrder, BranchAccepts, BranchReads, Same, AllAgree, IsPermutation, ArePermuted, Positions, Powers,
      Exponents, Reencrypts, Apart, SameVectors, Power, ShuffledModulo;
    PrimeIsPositive(par.q);
    var q, n := par.q, |par.bases|;
    perm := BranchPermutes(par, key, prev, next, t, 0);
    var es: seq<seq<Scalar>>, taus: seq<Scalar> := [], [];
    assert |perm| == n by { PermutedSizes(q, n, t.branches[0], perm); }
    while |es| <= n
      invariant |es| == |taus| <= n + 1
      invariant forall k | 0 <= k < |es| :: Reencrypts(q, key, prev, next, t.branches[k].xBase, es[k], taus[k])
      invariant forall k | 0 <= k < |es| :: PermutedPowers(q, n, t.branches[k].xBase, es[k], perm)
      decreases n + 1 - |es|
    {
      var b := |es|;
      var branch := t.branches[b];
      BranchFits(par, key, prev, next, t, b, perm);
      var tau := BranchReencrypts(par, key, prev, next, t.cPi, branch);
      es, taus := es + [Exponents(q, n, branch).v], taus + [tau];
    }
    var xs := BranchChallenges(t.branches);
    forall k, i | 0 <= k < |xs| && 0 <= i < |perm|
      ensures |es[k]| == |perm| && perm[i] < n && Same(q, es[k][i], Power(xs[k], perm[i] + 1))
    {
      assert PermutedPowers(q, n, t.branches[k].xBase, es[k], perm);
    }
    forall i | 0 <= i < |perm|
      ensures perm[i] < |prev|
    {
      assert PermutedPowers(q, n, t.branches[0].xBase, es[0], perm);
    }
    rho := MasksFound(q, key, prev, next, perm, xs, es, taus);
  }

  predicate PermutedPowers(q: nat, n: nat, x: Scalar, e: seq<Scalar>, perm: seq<nat>)
    requires q > 0
  {
    |e| == n == |perm| && forall i | 0 <= i < n :: perm[i] < n && Same(q, e[i], Power(x, perm[i] + 1))
  }

  lemma PermutedSizes(q: nat, n: nat, b: Branch, perm: seq<nat>)
    requires q > 0 && BranchReads(q, n, b) && ArePermuted(q, Positions(q, n, b).v, Powers(q, n, b).v, b.xBase, perm)
    ensures |perm| == n
  {
  }

  /** Every branch permutes like the first. */
  lemma BranchFits(par: Parameters, key: Point, prev: Deck, next: Deck, t: Tree, b: nat, perm: seq<nat>)
    requires PrimeOrder(par.q) && Sized(par, prev, next) && par.q > |par.bases| > 0
      && TreeAccepts(par, key, prev, next, t)
    requires TreeReads(par.q, |par.bases|, t) && AllAgree(par.q, |par.bases|, t) && b <= |par.bases|
    requires var n, first := |par.bases|, t.branches[0];
      ArePermuted(par.q, Positions(par.q, n, first).v, Powers(par.q, n, first).v, first.xBase, perm)
    ensures PermutedPowers(par.q, |par.bases|, t.branches[b].xBase, Exponents(par.q, |par.bases|, t.branches[b]).v,
                           perm)
  {
    hide PrimeOrder, BranchAccepts, BranchReads, Same, AllAgree, IsPermutation, ArePermuted, Positions, Powers,
      Exponents, SameVectors, Power;
    PrimeIsPositive(par.q);
    var q, n, first, branch := par.q, |par.bases|, t.branches[0], t.branches[b];
    var mine := BranchPermutes(par, key, prev, next, t, b);
    AgreesAt(q, n, t, AtPositions(b));
    AgreesAt(q, n, t, AtExponents(b));
    OnePermutation(q, Positions(q, n, branch).v, Positions(q, n, first).v, Powers(q, n, branch).v,
                   Powers(q, n, first).v,
                   branch.xBase, first.xBase, mine, perm);
    PermutedSizes(q, n, first, perm);
    forall i | 0 <= i < n
      ensures perm[i] < n && Same(q, Exponents(q, n, branch).v[i], Power(branch.xBase, perm[i] + 1))
    {
      ExponentsPermuted(q, n, branch, perm, i);
    }
  }

  /** Two openings of one point that are not the same: what a binding commitment never shows. */
  ghost predicate Collides(par: Parameters, t: Tree, s: Spot)
    requires PrimeOrder(par.q) && TreeReads(par.q, |par.bases|, t) && InTree(|par.bases|, s)
  {
    OpenTogether(par, Compared(par.q, |par.bases|, t, s)) && !Agrees(par.q, |par.bases|, t, s)
  }

  /** The same for a branch's blinding commitment. */
  ghost predicate BlindingCollides(par: Parameters, b: Branch)
    requires par.q > 0
  {
    && Same(par.q, Commit(par, b.one.arg.beta, b.one.arg.oBeta), Commit(par, b.two.arg.beta, b.two.arg.oBeta))
    && !Same(par.q, b.one.arg.beta, b.two.arg.beta)
  }

  /** An accepted tree either holds a shuffle or opens one of its own commitments in two ways. */
  lemma AcceptedTreeIsAShuffleOrCollides(par: Parameters, key: Point, prev: Deck, next: Deck, t: Tree)
    requires PrimeOrder(par.q) && Sized(par, prev, next) && par.q > |par.bases| > 0
      && TreeAccepts(par, key, prev, next, t)
    ensures TreeReads(par.q, |par.bases|, t)
    ensures || (exists perm, rho :: ShuffledModulo(par.q, key, prev, next, perm, rho))
            || (exists s :: InTree(|par.bases|, s) && Collides(par, t, s))
            || (exists b :: 0 <= b < |t.branches| && BlindingCollides(par, t.branches[b]))
  {
    hide PrimeOrder, BranchReads, OpenTogether, Agrees, ShuffledModulo, Commit, Same, InTree, MultiEquations,
      ForkAccepts;
    PrimeIsPositive(par.q);
    TreeIsRead(par, key, prev, next, t);
    var q, n := par.q, |par.bases|;
    if !AllAgree(q, n, t) {
      var s :| InTree(n, s) && !Agrees(q, n, t, s);
      ComparedOpenTogether(par, key, prev, next, t, s);
      assert Collides(par, t, s);
    } else if !BetasAgree(q, t) {
      var b :| 0 <= b < |t.branches| && !Same(q, t.branches[b].one.arg.beta, t.branches[b].two.arg.beta);
      BlindingOpensTwice(par, key, prev, next, t.cPi, t.branches[b]);
      assert BlindingCollides(par, t.branches[b]);
    } else {
      var perm, rho := AgreeingTreeIsAShuffle(par, key, prev, next, t);
    }
  }

  lemma BlindingOpensTwice(par: Parameters, key: Point, prev: Deck, next: Deck, cPi: Point, b: Branch)
    requires Sized(par, prev, next) && |par.bases| > 0 && BranchAccepts(par, key, prev, next, cPi, b)
    ensures Same(par.q, Commit(par, b.one.arg.beta, b.one.arg.oBeta), Commit(par, b.two.arg.beta, b.two.arg.oBeta))
  {
    hide Commit, Same, MultiEquations, ForkAccepts;
    MultiOpens(par, key, prev, next, b.cXPi, b.one.arg, b.xBase, b.one.x);
    MultiOpens(par, key, prev, next, b.cXPi, b.two.arg, b.xBase, b.two.x);
    SameTwice(par.q, b.one.arg.cBeta, Commit(par, b.one.arg.beta, b.one.arg.oBeta),
              Commit(par, b.two.arg.beta, b.two.arg.oBeta));
  }
}
