/** The hand-rank commitment: a tree over every seven-card hand, its cached upper half and its proofs. */
module Merkle {
  import opened Bits
  import opened Combinations
  import opened Ranking
  import opened Options

  type Digest = nat

  /** The three tagged hashes. */
  datatype Hashes = Hashes(leaf: (nat, nat) -> Digest, padding: nat -> Digest, branch: (Digest, Digest) -> Digest)

  /** No collisions, and no leaf that is also padding. */
  ghost predicate Ideal(h: Hashes) {
    && (forall m, r, n, s {:trigger h.leaf(m, r), h.leaf(n, s)} :: h.leaf(m, r) == h.leaf(n, s) ==> m == n && r == s)
    && (forall a, b, c, d {:trigger h.branch(a, b), h.branch(c, d)} ::
        h.branch(a, b) == h.branch(c, d) ==> a == c && b == d)
    && (forall m, r, i {:trigger h.leaf(m, r), h.padding(i)} :: h.leaf(m, r) != h.padding(i))
  }

  /** Children are hashed smaller first, so a proof needs no directions. */
  function Parent(h: Hashes, a: Digest, b: Digest): (d: Digest) {
    if a > b then h.branch(b, a) else h.branch(a, b)
  }

  lemma ParentSymmetric(h: Hashes, a: Digest, b: Digest)
    ensures Parent(h, a, b) == Parent(h, b, a)
  {
  }

  lemma ParentBinds(h: Hashes, a: Digest, b: Digest, c: Digest, d: Digest)
    requires Ideal(h) && Parent(h, a, b) == Parent(h, c, d)
    ensures (a == c && b == d) || (a == d && b == c)
  {
  }

  // ---------- The committed tree ----------

  /** A deck of 52, hands of seven, 27 levels and blocks of 13 levels in the program; any sizes here. */
  datatype Tree = Tree(h: Hashes, table: Table, deck: nat, hand: nat, depth: nat, low: nat)

  function Hands(t: Tree): (n: nat) { Choose(t.deck, t.hand) }

  /** Every hand has a leaf, and ranking knows every card. */
  predicate Shaped(t: Tree) { t.low <= t.depth && Hands(t) <= Pow2(t.depth) && t.deck <= DECK && t.hand > 2 }

  /** The payload of the hand with a number. */
  function HandLeaf(t: Tree, i: nat): (d: Digest)
    requires i < Hands(t)
  {
    var cards := At(t.deck, 0, t.hand, i);
    t.h.leaf(Mask(cards), HandRank(t.table, cards))
  }

  function Leaf(t: Tree, i: nat): (d: Digest) {
    if i < Hands(t) then HandLeaf(t, i) else t.h.padding(i - Hands(t))
  }

  function Node(t: Tree, level: nat, i: nat): (d: Digest) {
    if level == 0 then Leaf(t, i) else Parent(t.h, Node(t, level - 1, 2 * i), Node(t, level - 1, 2 * i + 1))
  }

  function Sibling(i: nat): (s: nat) { if i % 2 == 0 then i + 1 else i - 1 }

  lemma NodeOfPair(t: Tree, level: nat, i: nat)
    ensures Node(t, level + 1, i / 2) == Parent(t.h, Node(t, level, i), Node(t, level, Sibling(i)))
  {
    var j := i / 2;
    if i % 2 == 0 {
      assert i == 2 * j;
    } else {
      assert i == 2 * j + 1;
      ParentSymmetric(t.h, Node(t, level, 2 * j), Node(t, level, 2 * j + 1));
    }
  }

  // ---------- Verifying ----------

  /** Hashing upwards along the siblings. */
  function FoldUp(h: Hashes, node: Digest, siblings: seq<Digest>): (d: Digest)
    decreases |siblings|
  {
    if siblings == [] then node
    else Parent(h, FoldUp(h, node, siblings[..|siblings| - 1]), siblings[|siblings| - 1])
  }

  lemma FoldUpSnoc(h: Hashes, node: Digest, siblings: seq<Digest>, s: Digest)
    ensures FoldUp(h, node, siblings + [s]) == Parent(h, FoldUp(h, node, siblings), s)
  {
    assert (siblings + [s])[..|siblings|] == siblings;
  }

  /** A plausible payload: a handful of cards of the deck and a rank in range. */
  predicate Plausible(deck: nat, hand: nat, mask: nat, rank: nat) {
    mask < Pow2(deck) && OnesCount(mask) == hand && 1 <= rank <= NUM_RANKS
  }

  datatype Proof = Proof(low: seq<Digest>, high: seq<Digest>)

  predicate Verifies(t: Tree, proof: Proof, mask: nat, rank: nat, root: Digest) {
    Plausible(t.deck, t.hand, mask, rank) && FoldUp(t.h, t.h.leaf(mask, rank), proof.low + proof.high) == root
  }

  method VerifyPayload(t: Tree, proof: Proof, mask: nat, rank: nat, root: Digest) returns (ok: bool)
    ensures ok <==> Verifies(t, proof, mask, rank, root)
  {
    if mask >= Pow2(t.deck) || OnesCount(mask) != t.hand || rank < 1 || rank > NUM_RANKS {
      return false;
    }
    var h := t.h;
    var node := h.leaf(mask, rank);
    ghost var start := node;
    for i := 0 to |proof.low|
      invariant node == FoldUp(h, start, proof.low[..i])
    {
      FoldUpSnoc(h, start, proof.low[..i], proof.low[i]);
      assert proof.low[..i] + [proof.low[i]] == proof.low[..i + 1];
      node := Parent(h, node, proof.low[i]);
    }
    assert proof.low[..|proof.low|] == proof.low && proof.low + proof.high[..0] == proof.low;
    for i := 0 to |proof.high|
      invariant node == FoldUp(h, start, proof.low + proof.high[..i])
    {
      FoldUpSnoc(h, start, proof.low + proof.high[..i], proof.high[i]);
      assert proof.low + proof.high[..i] + [proof.high[i]] == proof.low + proof.high[..i + 1];
      node := Parent(h, node, proof.high[i]);
    }
    assert proof.high[..|proof.high|] == proof.high;
    return node == root;
  }

  // ---------- Binding ----------

  /** Whatever folds up to an inner node started at one of the nodes below it. */
  lemma {:induction false} FoldedFromBelow(t: Tree, level: nat, i: nat, node: Digest, siblings: seq<Digest>)
    returns (below: nat)
    requires Ideal(t.h) && |siblings| == level && FoldUp(t.h, node, siblings) == Node(t, level, i)
    ensures node == Node(t, 0, below)
    decreases level
  {
    if level == 0 {
      below := i;
    } else {
      var inner := FoldUp(t.h, node, siblings[..level - 1]);
      ParentBinds(t.h, inner, siblings[level - 1], Node(t, level - 1, 2 * i), Node(t, level - 1, 2 * i + 1));
      below := FoldedFromBelow(t, level - 1, if inner == Node(t, level - 1, 2 * i) then 2 * i else 2 * i + 1, node,
                               siblings[..level - 1]);
    }
  }

  /** Only a committed hand verifies against the tree's root, whatever siblings accompany it. */
  lemma OnlyLeavesVerify(t: Tree, proof: Proof, mask: nat, rank: nat) returns (i: nat)
    requires Ideal(t.h) && |proof.low + proof.high| == t.depth && Verifies(t, proof, mask, rank, Node(t, t.depth, 0))
    ensures i < Hands(t)
    ensures mask == Mask(At(t.deck, 0, t.hand, i)) && rank == HandRank(t.table, At(t.deck, 0, t.hand, i))
  {
    hide Choose, At, HandRank, Mask, Ideal, Plausible, FoldUp, Leaf;
    i := FoldedFromBelow(t, t.depth, 0, t.h.leaf(mask, rank), proof.low + proof.high);
    LeafIsHand(t, i, mask, rank);
  }

  /** A hand's leaf is no padding, and it is the leaf of that hand alone. */
  lemma LeafIsHand(t: Tree, i: nat, mask: nat, rank: nat)
    requires Ideal(t.h) && t.h.leaf(mask, rank) == Leaf(t, i)
    ensures i < Hands(t)
    ensures mask == Mask(At(t.deck, 0, t.hand, i)) && rank == HandRank(t.table, At(t.deck, 0, t.hand, i))
  {
    hide Choose, At, HandRank, Mask;
  }

  /** A hand that verifies verifies with its own rank: no seven cards have two. */
  lemma RankIsBound(t: Tree, proof: Proof, cards: seq<nat>, rank: nat)
    requires Ideal(t.h) && |proof.low + proof.high| == t.depth && Combinations.Distinct(t.deck, cards) && t.deck <= DECK
    requires Verifies(t, proof, Mask(cards), rank, Node(t, t.depth, 0))
    ensures rank == HandRank(t.table, cards)
  {
    hide Choose, HandRank, Mask, Ideal, Verifies;
    var i := OnlyLeavesVerify(t, proof, Mask(cards), rank);
    var sorted := At(t.deck, 0, t.hand, i);
    SameMask(cards, sorted);
    SameCards(t.deck, cards, sorted);
    AscendingDistinct(t.deck, 0, sorted);
    HandRankReordered(t.table, cards, sorted);
  }

  /** Distinct cards that agree as sets agree as multisets. */
  lemma SameCards(n: nat, a: seq<nat>, b: seq<nat>)
    requires Combinations.Distinct(n, a) && Ascending(n, 0, b) && forall x: nat :: x in a <==> x in b
    ensures multiset(a) == multiset(b)
  {
    AscendingDistinct(n, 0, b);
    forall x: nat ensures multiset(a)[x] == multiset(b)[x] {
      OnceEach(n, a, x);
      OnceEach(n, b, x);
    }
  }

  lemma {:induction false} OnceEach(n: nat, cards: seq<nat>, x: nat)
    requires Combinations.Distinct(n, cards)
    ensures multiset(cards)[x] == if x in cards then 1 else 0
  {
    if cards != [] {
      var k := |cards| - 1;
      OnceEach(n, cards[..k], x);
      assert cards == cards[..k] + [cards[k]];
    }
  }

  lemma {:induction false} AscendingDistinct(n: nat, low: nat, cards: seq<nat>)
    requires Ascending(n, low, cards)
    ensures Combinations.Distinct(n, cards)
    decreases cards
  {
    if cards != [] {
      AscendingDistinct(n, cards[0] + 1, cards[1..]);
      forall j | 0 < j < |cards| ensures cards[0] < cards[j] {
        assert cards[j] == cards[1..][j - 1];
        AllFrom(n, cards[0] + 1, cards[1..], cards[j]);
      }
      forall i, j | 0 <= i < j < |cards| ensures cards[i] != cards[j] {
        if i > 0 {
          assert cards[i] == cards[1..][i - 1] && cards[j] == cards[1..][j - 1];
        }
      }
      forall i | 0 <= i < |cards| ensures cards[i] < n {
        if i > 0 {
          assert cards[i] == cards[1..][i - 1];
        }
      }
    }
  }

  // ---------- The cached upper half ----------

  /** Where a level starts in the flat cache, the lowest cached level first. */
  function Offset(t: Tree, level: nat): (o: int)
    requires t.low <= level <= t.depth
  {
    Pow2(t.depth + 1 - t.low) - Pow2(t.depth + 1 - level)
  }

  function CacheSize(t: Tree): (n: int)
    requires t.low <= t.depth
  {
    Pow2(t.depth - t.low + 1) - 1
  }

  lemma Doubled(k: nat)
    ensures Pow2(k + 1) == 2 * Pow2(k)
  {
  }

  /** Every cached node lies inside the cache. */
  lemma InCache(t: Tree, level: nat, i: nat)
    requires t.low <= level <= t.depth && i < Pow2(t.depth - level)
    ensures 0 <= Offset(t, level) + i < CacheSize(t)
  {
    Doubled(t.depth - level);
    PowerGrows(t.depth + 1 - level, t.depth + 1 - t.low);
  }

  function CacheNode(t: Tree, cache: seq<Digest>, level: nat, i: nat): (d: Digest)
    requires t.low <= level <= t.depth && i < Pow2(t.depth - level) && |cache| == CacheSize(t)
  {
    InCache(t, level, i);
    cache[Offset(t, level) + i]
  }

  /** One cached node hashes its two cached children. */
  predicate CacheStep(t: Tree, cache: seq<Digest>, level: nat, i: nat)
    requires t.low < level <= t.depth && i < Pow2(t.depth - level) && |cache| == CacheSize(t)
  {
    Doubled(t.depth - level);
    Parent(t.h, CacheNode(t, cache, level - 1, 2 * i), CacheNode(t, cache, level - 1, 2 * i + 1))
      == CacheNode(t, cache, level, i)
  }

  predicate CacheValid(t: Tree, cache: seq<Digest>, root: Digest)
    requires t.low <= t.depth
  {
    && |cache| == CacheSize(t)
    && (forall level, i | t.low < level <= t.depth && 0 <= i < Pow2(t.depth - level) :: CacheStep(t, cache, level, i))
    && CacheNode(t, cache, t.depth, 0) == root
  }

  method ValidateCache(t: Tree, cache: seq<Digest>, root: Digest) returns (ok: bool)
    requires t.low <= t.depth
    ensures ok <==> CacheValid(t, cache, root)
  {
    hide CacheStep, CacheNode;
    if |cache| != CacheSize(t) {
      return false;
    }
    for level := t.low + 1 to t.depth + 1
      invariant forall l, i | t.low < l < level && 0 <= i < Pow2(t.depth - l) :: CacheStep(t, cache, l, i)
    {
      for i := 0 to Pow2(t.depth - level)
        invariant forall k | 0 <= k < i :: CacheStep(t, cache, level, k)
      {
        if !CacheStep(t, cache, level, i) {
          return false;
        }
      }
    }
    return CacheNode(t, cache, t.depth, 0) == root;
  }

  /** The siblings the cache supplies on the way up from a block. */
  predicate UpperSiblings(t: Tree, cache: seq<Digest>, block: nat, high: seq<Digest>)
    requires t.low <= t.depth && |cache| == CacheSize(t) && block < Pow2(t.depth - t.low)
  {
    && |high| <= t.depth - t.low
    && forall j | 0 <= j < |high| :: UpperSibling(t, cache, block, j, high[j])
  }

  predicate UpperSibling(t: Tree, cache: seq<Digest>, block: nat, j: nat, sibling: Digest)
    requires t.low <= t.depth && |cache| == CacheSize(t) && block < Pow2(t.depth - t.low) && j < t.depth - t.low
  {
    && Sibling(ShiftRight(block, j)) < Pow2(t.depth - t.low - j)
    && sibling == CacheNode(t, cache, t.low + j, Sibling(ShiftRight(block, j)))
  }

  lemma SiblingInRange(i: nat, k: nat)
    requires k > 0 && i < Pow2(k)
    ensures Sibling(i) < Pow2(k)
  {
    Doubled(k - 1);
  }

  /** Folding a cached block node with cached siblings reaches its cached ancestor. */
  lemma {:induction false} UpperFold(t: Tree, cache: seq<Digest>, root: Digest, block: nat, high: seq<Digest>)
    requires t.low <= t.depth && CacheValid(t, cache, root) && block < Pow2(t.depth - t.low)
    requires UpperSiblings(t, cache, block, high)
    ensures ShiftRight(block, |high|) < Pow2(t.depth - t.low - |high|)
    ensures FoldUp(t.h, CacheNode(t, cache, t.low, block), high)
      == CacheNode(t, cache, t.low + |high|, ShiftRight(block, |high|))
    decreases |high|
  {
    hide CacheNode, CacheStep, Offset, Pow2, Sibling;
    ShiftBelow(block, t.depth - t.low, |high|);
    if high != [] {
      var n := |high| - 1;
      UpperFold(t, cache, root, block, high[..n]);
      ShiftBelow(block, t.depth - t.low, n);
      assert UpperSibling(t, cache, block, n, high[n]);
      assert CacheStep(t, cache, t.low + n + 1, ShiftRight(block, n + 1));
      CachedPair(t, cache, t.low + n, ShiftRight(block, n));
    }
  }

  /** A cached node and its sibling hash to their cached parent. */
  lemma CachedPair(t: Tree, cache: seq<Digest>, level: nat, i: nat)
    requires t.low <= level < t.depth && i < Pow2(t.depth - level) && |cache| == CacheSize(t)
      && Sibling(i) < Pow2(t.depth - level)
    requires i / 2 < Pow2(t.depth - (level + 1)) && CacheStep(t, cache, level + 1, i / 2)
    ensures Parent(t.h, CacheNode(t, cache, level, i), CacheNode(t, cache, level, Sibling(i)))
      == CacheNode(t, cache, level + 1, i / 2)
  {
    hide CacheNode;
    Doubled(t.depth - (level + 1));
    var j := i / 2;
    if i % 2 == 0 {
      assert i == 2 * j;
    } else {
      assert i == 2 * j + 1;
      ParentSymmetric(t.h, CacheNode(t, cache, level, 2 * j), CacheNode(t, cache, level, 2 * j + 1));
    }
  }

  // ---------- The lower part of a path ----------

  /** The siblings of a leaf's path through the tree itself. */
  predicate LowerSiblings(t: Tree, index: nat, low: seq<Digest>) {
    forall l | 0 <= l < |low| :: low[l] == Node(t, l, Sibling(ShiftRight(index, l)))
  }

  lemma {:induction false} LowerFold(t: Tree, index: nat, low: seq<Digest>)
    requires LowerSiblings(t, index, low)
    ensures FoldUp(t.h, Leaf(t, index), low) == Node(t, |low|, ShiftRight(index, |low|))
    decreases |low|
  {
    hide Leaf;
    if low != [] {
      var n := |low| - 1;
      LowerFold(t, index, low[..n]);
      NodeOfPair(t, n, ShiftRight(index, n));
    }
  }

  lemma {:induction false} FoldUpAppend(h: Hashes, node: Digest, a: seq<Digest>, b: seq<Digest>)
    ensures FoldUp(h, node, a + b) == FoldUp(h, FoldUp(h, node, a), b)
    decreases |b|
  {
    if b == [] {
      assert a + b == a;
    } else {
      FoldUpAppend(h, node, a, b[..|b| - 1]);
      assert (a + b)[..|a + b| - 1] == a + b[..|b| - 1];
    }
  }

  // ---------- Folding a block in place ----------

  /** The first `count` entries are consecutive tree nodes of a level. */
  predicate Holds(t: Tree, nodes: seq<Digest>, level: nat, start: nat, count: nat)
    requires count <= |nodes|
  {
    forall i | 0 <= i < count :: nodes[i] == Node(t, level, start + i)
  }

  lemma NodeAbove(t: Tree, level: nat, i: nat)
    ensures Node(t, level + 1, i) == Parent(t.h, Node(t, level, 2 * i), Node(t, level, 2 * i + 1))
  {
  }

  /** Overwrites the front half with the parents, each after both of its children have been read. */
  method FoldLevel(t: Tree, nodes: array<Digest>, ghost level: nat, ghost start: nat, half: nat)
    requires 2 * half <= nodes.Length && Holds(t, nodes[..], level, 2 * start, 2 * half)
    modifies nodes
    ensures Holds(t, nodes[..], level + 1, start, half)
  {
    hide Node, Parent;
    ghost var before := nodes[..];
    for i := 0 to half
      invariant forall k | 0 <= k < i :: nodes[k] == Node(t, level + 1, start + k)
      invariant forall k | 2 * i <= k < 2 * half :: nodes[k] == before[k]
    {
      assert before[2 * i] == Node(t, level, 2 * start + 2 * i)
        && before[2 * i + 1] == Node(t, level, 2 * start + (2 * i + 1));
      NodeAbove(t, level, start + i);
      nodes[i] := Parent(t.h, nodes[2 * i], nodes[2 * i + 1]);
    }
  }

  /** The in-place halving loop: records the sibling at every level and leaves the block's root in front. */
  method FoldBlock(t: Tree, nodes: array<Digest>, index: nat) returns (low: seq<Digest>)
    requires nodes.Length == Pow2(t.low)
    requires Holds(t, nodes[..], 0, ShiftLeft(ShiftRight(index, t.low), t.low), Pow2(t.low))
    modifies nodes
    ensures |low| == t.low && LowerSiblings(t, index, low)
    ensures nodes.Length > 0 && nodes[0] == Node(t, t.low, ShiftRight(index, t.low))
  {
    hide Node, Holds, LowerSiblings, ShiftLeft, ShiftRight, Sibling, Pow2;
    ghost var block := ShiftRight(index, t.low);
    var pos: nat, size: nat := index % Pow2(t.low), Pow2(t.low);
    low := [];
    ShiftSplits(index, t.low);
    NothingRecorded(t, index);
    for level := 0 to t.low
      invariant size == Pow2(t.low - level) <= nodes.Length && pos < size && |low| == level
      invariant ShiftRight(index, level) == ShiftLeft(block, t.low - level) + pos
      invariant Holds(t, nodes[..], level, ShiftLeft(block, t.low - level), size)
      invariant LowerSiblings(t, index, low)
    {
      var half := size / 2;
      ghost var start := ShiftLeft(block, t.low - level - 1);
      HalvedBlock(index, block, t.low - level, level, pos);
      SiblingInBlock(start, pos, half);
      var other := if pos % 2 == 0 then pos + 1 else pos - 1;
      HeldAt(t, nodes[..], level, 2 * start, size, other);
      Recorded(t, index, low, nodes[other]);
      low := low + [nodes[other]];
      FoldLevel(t, nodes, level, start, half);
      pos := pos / 2;
      size := half;
    }
    Unshifted(block);
    HeldAt(t, nodes[..], t.low, block, 1, 0);
  }

  lemma NothingRecorded(t: Tree, index: nat)
    ensures LowerSiblings(t, index, []) && ShiftRight(index, 0) == index
  {
  }

  lemma Unshifted(block: nat)
    ensures ShiftLeft(block, 0) == block && Pow2(0) == 1
  {
  }

  lemma HeldAt(t: Tree, nodes: seq<Digest>, level: nat, start: nat, count: nat, i: nat)
    requires i < count <= |nodes| && Holds(t, nodes, level, start, count)
    ensures nodes[i] == Node(t, level, start + i)
  {
  }

  lemma Recorded(t: Tree, index: nat, low: seq<Digest>, sibling: Digest)
    requires LowerSiblings(t, index, low) && sibling == Node(t, |low|, Sibling(ShiftRight(index, |low|)))
    ensures LowerSiblings(t, index, low + [sibling])
  {
    hide Node;
  }

  /** One level up: both the block's start and the position in it halve. */
  lemma HalvedBlock(index: nat, block: nat, left: nat, level: nat, pos: nat)
    requires left > 0 && ShiftRight(index, level) == ShiftLeft(block, left) + pos
    ensures ShiftLeft(block, left) == 2 * ShiftLeft(block, left - 1)
    ensures ShiftRight(index, level + 1) == ShiftLeft(block, left - 1) + pos / 2
    ensures Pow2(left) == 2 * Pow2(left - 1)
  {
  }

  lemma SiblingInBlock(start: nat, pos: nat, half: nat)
    requires pos < 2 * half
    ensures Sibling(pos) == (if pos % 2 == 0 then pos + 1 else pos - 1)
    ensures Sibling(pos) < 2 * half && Sibling(2 * start + pos) == 2 * start + Sibling(pos)
    ensures (2 * start + pos) / 2 == start + pos / 2 && pos / 2 < half
  {
  }

  // ---------- Generating ----------

  /** Every five distinct cards have a rank from 1 to 7462. */
  ghost predicate TableTotal(table: Table) {
    forall cards | |cards| == 5 && Combinations.Distinct(DECK, cards) :: 1 <= Listed(table, cards) <= NUM_RANKS
  }

  datatype Failure = BadCards | BadCache | BadProof
  datatype Generated = Ok(rank: nat, proof: Proof) | Err(why: Failure)

  /** The leaves of the block a hand falls in, hands first and padding after. */
  method BlockLeaves(t: Tree, block: nat) returns (nodes: array<Digest>)
    requires Shaped(t)
    ensures fresh(nodes) && nodes.Length == Pow2(t.low) && Holds(t, nodes[..], 0, ShiftLeft(block, t.low), Pow2(t.low))
  {
    hide HandRank, Choose, At;
    var n := Pow2(t.low);
    ShiftLeftMultiplies(block, t.low);
    nodes := new Digest[n](_ => 0);
    for i := 0 to n
      invariant forall k | 0 <= k < i :: nodes[k] == Leaf(t, block * n + k)
    {
      var leaf := block * n + i;
      if leaf < Hands(t) {
        var cards := CombinationAt(t.deck, t.hand, leaf);
        var rank := ComputeHandRank(t.table, cards);
        nodes[i] := t.h.leaf(Mask(cards), rank);
      } else {
        nodes[i] := t.h.padding(leaf - Hands(t));
      }
    }
  }

  /** The leaf a hand's number leads to is the hand's own, whatever order its cards came in. */
  lemma OwnLeaf(t: Tree, cards: seq<nat>)
    requires Shaped(t) && Combinations.Distinct(t.deck, cards) && |cards| == t.hand
    requires Ascending(t.deck, 0, Sorted(cards))
    ensures Index(t.deck, 0, Sorted(cards)) < Hands(t)
    ensures Leaf(t, Index(t.deck, 0, Sorted(cards))) == t.h.leaf(Mask(cards), HandRank(t.table, cards))
  {
    hide Choose, HandRank, Mask, At, Index, Sorted, Ascending;
    var sorted := Sorted(cards);
    AtOfIndex(t.deck, 0, sorted);
    forall x: nat ensures x in sorted <==> x in cards {
      SortedHolds(cards, x);
    }
    SameMask(cards, sorted);
    SameCards(t.deck, cards, sorted);
    AscendingDistinct(t.deck, 0, sorted);
    HandRankReordered(t.table, cards, sorted);
  }

  lemma RankInRange(t: Tree, cards: seq<nat>)
    requires TableTotal(t.table) && Combinations.Distinct(DECK, cards) && |cards| == 7
    ensures 1 <= HandRank(t.table, cards) <= NUM_RANKS
  {
    hide Listed, BestRows;
    RowsAreBest(t.table, cards, |cards|);
    forall i, j | 0 <= i < j < |cards| ensures 1 <= Listed(t.table, Omit(cards, i, j)) <= NUM_RANKS {
      OmitDistinct(cards, i, j);
    }
    assert Listed(t.table, Omit(cards, 0, 1)) >= 1;
  }

  lemma OmitDistinct(cards: seq<nat>, i: nat, j: nat)
    requires Combinations.Distinct(DECK, cards) && i < j < |cards|
    ensures Combinations.Distinct(DECK, Omit(cards, i, j))
  {
    var s := Omit(cards, i, j);
    forall k | 0 <= k < |s| ensures s[k] == cards[if k < i then k else if k < j - 1 then k + 1 else k + 2] {
    }
  }

  /** The hand's own payload is plausible. */
  lemma OwnPayload(t: Tree, cards: seq<nat>)
    requires TableTotal(t.table) && t.deck <= DECK && t.hand == 7 && Combinations.Distinct(t.deck, cards)
      && |cards| == 7
    ensures Plausible(t.deck, t.hand, Mask(cards), HandRank(t.table, cards))
  {
    hide HandRank, Mask;
    RankInRange(t, cards);
    MaskCounts(cards);
    MaskBelow(cards, t.deck);
  }

  /** The cache is consistent up to the root, and its node for the hand's block is the tree's own. */
  predicate Committed(t: Tree, cache: seq<Digest>, root: Digest, cards: seq<nat>)
    requires t.low <= t.depth
  {
    && |cards| == t.hand && Combinations.Distinct(t.deck, cards) && CacheValid(t, cache, root)
    && Ascending(t.deck, 0, Sorted(cards)) && BlockCached(t, cache, ShiftRight(Index(t.deck, 0, Sorted(cards)), t.low))
  }

  /** A proof comes out, and verifies, exactly when the cache is valid and its node for the hand's block is the
      recomputed one; otherwise the cache is blamed. The final check of the proof never fails. */
  method Generate(t: Tree, cache: seq<Digest>, root: Digest, cards: seq<nat>) returns (r: Generated)
    requires Shaped(t) && t.hand == 7 && TableTotal(t.table)
    ensures r == Err(BadCards) <==> |cards| != t.hand || !Combinations.Distinct(t.deck, cards)
    ensures r.Ok? ==> r.rank == HandRank(t.table, cards) && Verifies(t, r.proof, Mask(cards), r.rank, root)
    ensures r != Err(BadProof)
    ensures r.Ok? <==> Committed(t, cache, root, cards)
  {
    hide HandRank, Choose, At, Index, Mask, CacheValid, CacheNode, Node, FoldUp, TableTotal, Combinations.Distinct,
      Verifies, Leaf;
    var valid := ValidateHand(t.deck, cards);
    if |cards| != t.hand || !valid {
      return Err(BadCards);
    }
    SortedAscends(t.deck, cards);
    var cacheOk := ValidateCache(t, cache, root);
    if !cacheOk {
      return Err(BadCache);
    }
    ValidSize(t, cache, root);
    var index := CombinationIndex(t.deck, cards);
    OwnLeaf(t, cards);
    var block := index / Pow2(t.low);
    ShiftRightDivides(index, t.low);
    BlockInRange(t, index);
    var nodes := BlockLeaves(t, block);
    var low := FoldBlock(t, nodes, index);
    if nodes[0] != CacheNode(t, cache, t.low, block) {
      return Err(BadCache);
    }
    var high := CollectHigh(t, cache, block);
    var rank := ComputeHandRank(t.table, cards);
    var proof := Proof(low, high);
    HonestVerifies(t, cache, root, cards, index, low, high);
    var ok := VerifyPayload(t, proof, Mask(cards), rank, root);
    if !ok {
      return Err(BadProof);
    }
    return Ok(rank, proof);
  }

  lemma ValidSize(t: Tree, cache: seq<Digest>, root: Digest)
    requires t.low <= t.depth && CacheValid(t, cache, root)
    ensures |cache| == CacheSize(t)
  {
  }

  /** The cache agrees with the tree on the root of a block. */
  predicate BlockCached(t: Tree, cache: seq<Digest>, block: nat)
    requires t.low <= t.depth
  {
    |cache| == CacheSize(t) && block < Pow2(t.depth - t.low)
      && CacheNode(t, cache, t.low, block) == Node(t, t.low, block)
  }

  lemma BlockInRange(t: Tree, index: nat)
    requires Shaped(t) && index < Hands(t)
    ensures ShiftRight(index, t.low) < Pow2(t.depth - t.low)
  {
    hide Choose;
    ShiftBelow(index, t.depth, t.low);
  }

  method ValidateHand(n: nat, cards: seq<nat>) returns (ok: bool)
    ensures ok <==> Combinations.Distinct(n, cards)
  {
    var mask := 0;
    for i := 0 to |cards|
      invariant mask == Mask(cards[..i]) && Combinations.Distinct(n, cards[..i])
    {
      assert cards[..i + 1][..i] == cards[..i];
      MaskTests(cards[..i], cards[i]);
      if cards[i] >= n || Bit(mask, cards[i]) {
        if cards[i] < n {
          var k :| 0 <= k < i && cards[k] == cards[i];
        }
        return false;
      }
      mask := SetBit(mask, cards[i]);
    }
    assert cards[..|cards|] == cards;
    return true;
  }

  method CollectHigh(t: Tree, cache: seq<Digest>, block: nat) returns (high: seq<Digest>)
    requires t.low <= t.depth && |cache| == CacheSize(t) && block < Pow2(t.depth - t.low)
    ensures |high| == t.depth - t.low && UpperSiblings(t, cache, block, high)
  {
    hide CacheNode, Pow2, ShiftRight, Offset, Sibling;
    high := [];
    for i := 0 to t.depth - t.low
      invariant |high| == i && UpperSiblings(t, cache, block, high)
    {
      ShiftBelow(block, t.depth - t.low, i);
      SiblingInRange(ShiftRight(block, i), t.depth - t.low - i);
      high := high + [CacheNode(t, cache, t.low + i, Sibling(ShiftRight(block, i)))];
    }
  }

  lemma HonestVerifies(t: Tree, cache: seq<Digest>, root: Digest, cards: seq<nat>, index: nat, low: seq<Digest>,
                       high: seq<Digest>)
    requires Shaped(t) && t.hand == 7 && TableTotal(t.table) && Combinations.Distinct(t.deck, cards)
      && |cards| == t.hand
    requires CacheValid(t, cache, root) && index < Hands(t) && BlockCached(t, cache, ShiftRight(index, t.low))
    requires Leaf(t, index) == t.h.leaf(Mask(cards), HandRank(t.table, cards))
    requires |low| == t.low && LowerSiblings(t, index, low)
    requires |high| == t.depth - t.low && UpperSiblings(t, cache, ShiftRight(index, t.low), high)
    ensures Verifies(t, Proof(low, high), Mask(cards), HandRank(t.table, cards), root)
  {
    hide HandRank, Choose, Mask, CacheNode, Node, FoldUp, TableTotal, Leaf, LowerSiblings, UpperSiblings, Plausible,
      CacheStep, ShiftRight, Offset, Pow2, CacheValid, Parent, Combinations.Distinct;
    OwnPayload(t, cards);
    LowerFold(t, index, low);
    UpperFold(t, cache, root, ShiftRight(index, t.low), high);
    FoldUpAppend(t.h, Leaf(t, index), low, high);
    TopIsRoot(t, cache, root, ShiftRight(ShiftRight(index, t.low), t.depth - t.low));
  }

  lemma TopIsRoot(t: Tree, cache: seq<Digest>, root: Digest, i: nat)
    requires t.low <= t.depth && CacheValid(t, cache, root) && i < Pow2(t.depth - t.depth)
    ensures CacheNode(t, cache, t.depth, i) == root
  {
    assert Pow2(0) == 1;
  }

  // ---------- The sizes of the program ----------

  /** 52 cards, seven at a time: the leaf count of the committed tree. */
  lemma RealLeaves(n: nat, k: nat)
    requires n == 52 && k == 7
    ensures Choose(n, k) == 133784560
  {
    hide Choose;
    OneWay(n);
    StepIsExact(n, 0);
    StepIsExact(n, 1);
    StepIsExact(n, 2);
    StepIsExact(n, 3);
    StepIsExact(n, 4);
    StepIsExact(n, 5);
    StepIsExact(n, 6);
  }

  lemma OneWay(n: nat)
    ensures Choose(n, 0) == 1
  {
  }

  // ---------- Settling a showdown ----------

  /** 0 for a tie, otherwise the player whose seven cards rank higher. An answer comes out exactly when the nine cards
      are different cards of the deck and the cache commits to both hands. */
  method Evaluate(t: Tree, cache: seq<Digest>, root: Digest, deal: seq<nat>)
    returns (r: Option<(Generated, Generated, nat)>)
    requires Shaped(t) && t.hand == 7 && TableTotal(t.table) && |deal| == 9
    ensures r.Some? <==>
      && Combinations.Distinct(t.deck, deal)
      && Committed(t, cache, root, HandOf(deal, 0)) && Committed(t, cache, root, HandOf(deal, 2))
    ensures r.Some? ==>
      && Combinations.Distinct(t.deck, deal)
      && var (first, second, winner) := r.value;
         var one, two := HandOf(deal, 0), HandOf(deal, 2);
         && first.Ok? && first.rank == HandRank(t.table, one)
         && Verifies(t, first.proof, Mask(one), HandRank(t.table, one), root)
         && second.Ok? && second.rank == HandRank(t.table, two)
         && Verifies(t, second.proof, Mask(two), HandRank(t.table, two), root)
         && (winner == 0 <==> HandRank(t.table, one) == HandRank(t.table, two))
         && (winner == 1 <==> HandRank(t.table, one) > HandRank(t.table, two))
         && (winner == 2 <==> HandRank(t.table, one) < HandRank(t.table, two))
  {
    hide HandRank, Mask, Verifies, Combinations.Distinct, Committed;
    var valid := ValidateHand(t.deck, deal);
    if !valid {
      return None;
    }
    var first := Generate(t, cache, root, HandOf(deal, 0));
    if first.Err? {
      return None;
    }
    var second := Generate(t, cache, root, HandOf(deal, 2));
    if second.Err? {
      return None;
    }
    var winner := if first.rank > second.rank then 1 else if second.rank > first.rank then 2 else 0;
    return Some((first, second, winner));
  }

  /** Two hole cards and the board, in deal order. */
  function HandOf(deal: seq<nat>, holes: nat): (hand: seq<nat>)
    requires |deal| == 9 && holes <= 2
    ensures |hand| == 7
  {
    [deal[holes], deal[holes + 1]] + deal[4..]
  }
}
