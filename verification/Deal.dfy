/** Dealing with masked cards: shuffling in place, masking, revealing, and what the players see in the end. */
module Deal {
  import opened Algebra
  import opened Bytes
  import opened Groups
  import opened BayerGroth
  import opened Options

  // ---------- Fisher-Yates with rejection ----------

  const WORDS: nat := 0x1_0000_0000

  /** The biased prefix of the 32-bit words, as the program computes it: -bound modulo bound, on 32 bits. */
  function Threshold(bound: nat): (t: nat)
    requires 0 < bound < WORDS
    ensures t < bound
  {
    (WORDS - bound) % bound
  }

  /** The `k`th accepted word that selects `j`. */
  function Selecting(bound: nat, j: nat, k: nat): (word: int)
    requires 0 < bound < WORDS && j < bound
  {
    Threshold(bound) + k * bound + (j - Threshold(bound)) % bound
  }

  function Blocks(bound: nat): (n: nat)
    requires 0 < bound < WORDS
  {
    (WORDS - Threshold(bound)) / bound
  }

  /** The accepted words split into whole blocks. */
  lemma WholeBlocks(bound: nat)
    requires 0 < bound < WORDS
    ensures (WORDS - Threshold(bound)) % bound == 0 && WORDS - Threshold(bound) == bound * Blocks(bound)
  {
    var t, m := Threshold(bound), (WORDS - bound) / bound;
    assert WORDS - bound == bound * m + t;
    assert bound * (m + 1) == bound * m + bound;
    MultipleOf(bound, m + 1);
  }

  /** Above the threshold every index is selected by equally many words: one in each block of `bound` words. */
  lemma DrawsAreUniform(bound: nat, j: nat, word: nat)
    requires 0 < bound < WORDS && j < bound
    ensures (WORDS - Threshold(bound)) % bound == 0
    ensures Threshold(bound) <= word < WORDS && word % bound == j
      <==> exists k: nat :: k < Blocks(bound) && word == Selecting(bound, j, k)
  {
    hide Blocks, Threshold, Selecting;
    WholeBlocks(bound);
    if Threshold(bound) <= word < WORDS && word % bound == j {
      var k := BlockOf(bound, j, word);
    }
    if exists k: nat :: k < Blocks(bound) && word == Selecting(bound, j, k) {
      var k: nat :| k < Blocks(bound) && word == Selecting(bound, j, k);
      SelectingSelects(bound, Threshold(bound), j, k, Blocks(bound));
    }
  }

  lemma BlockOf(bound: nat, j: nat, word: nat) returns (k: nat)
    requires 0 < bound < WORDS && j < bound && Threshold(bound) <= word < WORDS && word % bound == j
    ensures k < Blocks(bound) && word == Selecting(bound, j, k)
  {
    hide Blocks, Threshold;
    var t := Threshold(bound);
    k := (word - t) / bound;
    WholeBlocks(bound);
    SelectedBlock(bound, t, j, word);
    BlockBound(bound, word - t, Blocks(bound));
  }

  lemma MultipleOf(bound: nat, m: nat)
    requires bound > 0
    ensures (bound * m) % bound == 0 && bound * m / bound == m
  {
    var q, r := bound * m / bound, (bound * m) % bound;
    assert bound * m == bound * q + r;
    assert bound * (m - q) == r;
    AtLeastOnce(bound, m - q);
  }

  lemma SelectedBlock(bound: nat, t: nat, j: nat, word: nat)
    requires 0 < bound && t <= word && word % bound == j
    ensures (word - t) % bound == (j - t) % bound
    ensures word == t + (word - t) / bound * bound + (j - t) % bound
  {
    var q := word / bound;
    assert word - t == j - t + bound * q;
    SameResidue(bound, j - t, q);
  }

  lemma BlockBound(bound: nat, n: nat, blocks: nat)
    requires 0 < bound && n < bound * blocks
    ensures n / bound < blocks
  {
    assert n >= bound * (n / bound);
    Monotone(bound, blocks, n / bound);
  }

  lemma Monotone(bound: nat, a: nat, b: nat)
    ensures a <= b ==> bound * a <= bound * b
  {
  }

  lemma SelectingSelects(bound: nat, t: nat, j: nat, k: nat, blocks: nat)
    requires 0 < bound < WORDS && j < bound && t == Threshold(bound) && k < blocks && WORDS - t == bound * blocks
    ensures t <= Selecting(bound, j, k) < WORDS && Selecting(bound, j, k) % bound == j
  {
    var r := (j - t) % bound;
    Monotone(bound, k + 1, blocks);
    assert bound * (k + 1) == bound * k + bound;
    assert k * bound == bound * k;
    var m := (j - t) / bound;
    assert j - t == bound * m + r;
    assert Selecting(bound, j, k) == j + bound * (k - m) by {
      assert bound * (k - m) == bound * k - bound * m;
    }
    SameResidue(bound, j, k - m);
    Residue(bound, 0, j);
  }

  // ---------- Which permutation the words select ----------

  /** The first accepted word's selection, and the words after it. */
  function Draw(words: seq<nat>, bound: nat): (r: Option<(nat, seq<nat>)>)
    requires 0 < bound < WORDS
    ensures r.Some? ==> r.value.0 < bound && |r.value.1| < |words|
  {
    if words == [] then None
    else if words[0] < Threshold(bound) then Draw(words[1..], bound)
    else Some((words[0] % bound, words[1..]))
  }

  /** One selection for each position from the last down to the second. */
  function Draws(words: seq<nat>, n: nat): (r: Option<(seq<nat>, seq<nat>)>)
    requires n < WORDS
    ensures r.Some? ==> ChoicesFit(r.value.0, n)
    decreases n
  {
    if n <= 1 then Some(([], words))
    else match Draw(words, n)
      case None => None
      case Some((j, rest)) =>
        match Draws(rest, n - 1) case None => None case Some((js, end)) => Some(([j] + js, end))
  }

  predicate ChoicesFit(js: seq<nat>, n: nat) {
    if n <= 1 then js == [] else js != [] && js[0] < n && ChoicesFit(js[1..], n - 1)
  }

  function Exchanged(s: seq<nat>, i: nat, j: nat): (t: seq<nat>)
    requires i < |s| && j < |s|
  {
    s[i := s[j]][j := s[i]]
  }

  /** Fisher-Yates from the end: each selection settles one more position. */
  function Settle(s: seq<nat>, n: nat, js: seq<nat>): (t: seq<nat>)
    requires n <= |s| && ChoicesFit(js, n)
    ensures |t| == |s|
    decreases n
  {
    if n <= 1 then s else Settle(Exchanged(s, n - 1, js[0]), n - 1, js[1..])
  }

  lemma {:induction false} SettledStay(s: seq<nat>, n: nat, js: seq<nat>)
    requires n <= |s| && ChoicesFit(js, n)
    ensures forall k | n <= k < |s| :: Settle(s, n, js)[k] == s[k]
    ensures multiset(Settle(s, n, js)) == multiset(s)
    decreases n
  {
    if n > 1 {
      SettledStay(Exchanged(s, n - 1, js[0]), n - 1, js[1..]);
    }
  }

  lemma SwapKeepsDistinct(s: seq<nat>, i: nat, j: nat)
    requires i < |s| && j < |s| && Distinct(s)
    ensures Distinct(Exchanged(s, i, j)) && multiset(Exchanged(s, i, j)) == multiset(s) && |Exchanged(s, i, j)| == |s|
  {
  }

  lemma LastIsSelected(s: seq<nat>, n: nat, js: seq<nat>)
    requires 1 < n <= |s| && ChoicesFit(js, n)
    ensures Settle(s, n, js)[n - 1] == s[js[0]]
  {
    var t := Exchanged(s, n - 1, js[0]);
    SettledStay(t, n - 1, js[1..]);
    assert t[n - 1] == s[js[0]];
  }

  /** Different selections give different orders. */
  lemma {:induction false} SelectionsAreInjective(s: seq<nat>, n: nat, js: seq<nat>, ks: seq<nat>)
    requires n <= |s| && ChoicesFit(js, n) && ChoicesFit(ks, n) && Distinct(s)
    requires Settle(s, n, js) == Settle(s, n, ks)
    ensures js == ks
    decreases n
  {
    if n > 1 {
      LastIsSelected(s, n, js);
      LastIsSelected(s, n, ks);
      SwapKeepsDistinct(s, n - 1, js[0]);
      SelectionsAreInjective(Exchanged(s, n - 1, js[0]), n - 1, js[1..], ks[1..]);
      assert js == [js[0]] + js[1..] && ks == [ks[0]] + ks[1..];
    }
  }

  /** Every order is given by some selections. */
  lemma {:induction false} SelectionsReachEveryOrder(s: seq<nat>, n: nat, t: seq<nat>) returns (js: seq<nat>)
    requires n <= |s| && Distinct(s) && multiset(s) == multiset(t) && |s| == |t|
    requires forall k | n <= k < |s| :: s[k] == t[k]
    ensures ChoicesFit(js, n) && Settle(s, n, js) == t
    decreases n
  {
    hide Settle, Exchanged, ChoicesFit, Distinct;
    if n <= 1 {
      NothingLeft(s, n, t);
      return [];
    }
    var j := SelectionFor(s, n, t);
    var u := Exchanged(s, n - 1, j);
    SwapKeepsDistinct(s, n - 1, j);
    var rest := SelectionsReachEveryOrder(u, n - 1, t);
    js := [j] + rest;
    SettleNext(s, n, j, rest);
  }

  lemma SettleNext(s: seq<nat>, n: nat, j: nat, rest: seq<nat>)
    requires 1 < n <= |s| && j < n && |Exchanged(s, n - 1, j)| == |s| && ChoicesFit(rest, n - 1)
    ensures ChoicesFit([j] + rest, n) && Settle(s, n, [j] + rest) == Settle(Exchanged(s, n - 1, j), n - 1, rest)
  {
    hide Exchanged;
    assert ([j] + rest)[1..] == rest;
  }

  lemma NothingLeft(s: seq<nat>, n: nat, t: seq<nat>)
    requires n <= |s| && n <= 1 && multiset(s) == multiset(t) && |s| == |t|
    requires forall k | n <= k < |s| :: s[k] == t[k]
    ensures ChoicesFit([], n) && Settle(s, n, []) == t
  {
    if n == 1 {
      OnePlaceLeft(s, t);
    }
  }

  /** The unsettled place of what the next position is to hold. */
  lemma SelectionFor(s: seq<nat>, n: nat, t: seq<nat>) returns (j: nat)
    requires 1 < n <= |s| && Distinct(s) && multiset(s) == multiset(t) && |s| == |t|
    requires forall k | n <= k < |s| :: s[k] == t[k]
    ensures j < n && s[j] == t[n - 1]
    ensures forall k | n - 1 <= k < |s| :: Exchanged(s, n - 1, j)[k] == t[k]
  {
    assert t[n - 1] in multiset(t);
    j :| 0 <= j < |s| && s[j] == t[n - 1];
    DistinctAcross(s, t);
  }

  lemma DistinctAcross(s: seq<nat>, t: seq<nat>)
    requires Distinct(s) && multiset(s) == multiset(t)
    ensures Distinct(t)
  {
    forall i, j | 0 <= i < j < |t|
      ensures t[i] != t[j]
    {
      if t[i] == t[j] {
        TwiceIn(t, i, j);
        assert t[i] in multiset(s);
        var k :| 0 <= k < |s| && s[k] == t[i];
        OnceIn(s, k);
      }
    }
  }

  lemma OnePlaceLeft(s: seq<nat>, t: seq<nat>)
    requires |s| == |t| >= 1 && multiset(s) == multiset(t) && forall k | 1 <= k < |s| :: s[k] == t[k]
    ensures s == t
  {
    assert s == [s[0]] + s[1..] && t == [t[0]] + t[1..];
    assert s[1..] == t[1..];
    assert multiset{s[0]} == multiset(s) - multiset(s[1..]) == multiset(t) - multiset(t[1..]) == multiset{t[0]};
    assert s[0] in multiset{t[0]};
  }

  /** The words select each order in exactly one way: with uniform draws the order is uniform. */
  lemma EveryOrderOnce(s: seq<nat>, t: seq<nat>)
    requires Distinct(s) && multiset(s) == multiset(t) && |s| == |t|
    ensures exists js :: ChoicesFit(js, |s|) && Settle(s, |s|, js) == t
    ensures forall js, ks | ChoicesFit(js, |s|) && ChoicesFit(ks, |s|)
      && Settle(s, |s|, js) == t == Settle(s, |s|, ks) :: js == ks
  {
    var _ := SelectionsReachEveryOrder(s, |s|, t);
    forall js, ks | ChoicesFit(js, |s|) && ChoicesFit(ks, |s|) && Settle(s, |s|, js) == t == Settle(s, |s|, ks)
      ensures js == ks
    {
      SelectionsAreInjective(s, |s|, js, ks);
    }
  }

  /** The stream of 32-bit words the shuffle draws from. */
  class Work {
    const words: seq<nat>
    var used: nat
    var failed: bool

    ghost predicate Valid()
      reads this
    {
      used <= |words| && forall i | 0 <= i < |words| :: words[i] < WORDS
    }

    constructor (stream: seq<nat>)
      requires forall i | 0 <= i < |stream| :: stream[i] < WORDS
      ensures Valid() && words == stream && used == 0 && !failed
    {
      words, used, failed := stream, 0, false;
    }

    /** The next word, or a sticky failure once the stream ends. */
    method Read() returns (word: nat)
      requires Valid()
      modifies this
      ensures Valid() && (failed <==> old(failed) || old(used) == |words|)
      ensures !failed ==> used == old(used) + 1 && word == words[old(used)]
      ensures failed ==> used == old(used)
    {
      word := 0;
      if failed || used == |words| {
        failed := true;
        return;
      }
      word := words[used];
      used := used + 1;
    }

    /** The words still to be read. */
    ghost function Left(): (w: seq<nat>)
      requires Valid()
      reads this
    {
      words[used..]
    }

    /** Reads words until one is not below the threshold. */
    method Select(bound: nat) returns (j: nat)
      requires Valid() && !failed && 0 < bound < WORDS
      modifies this
      ensures Valid() && match Draw(old(Left()), bound)
        case None => failed
        case Some(drawn) => !failed && (j, Left()) == drawn
    {
      hide Threshold;
      ghost var before := Left();
      var threshold := Threshold(bound);
      var word := Read();
      while !failed && word < threshold
        invariant Valid()
        invariant if failed then Draw(before, bound).None?
                  else used > 0 && word == words[used - 1] && Draw(before, bound) == Draw(words[used - 1..], bound)
        decreases |words| - used, !failed
      {
        word := Read();
      }
      if failed {
        return 0;
      }
      assert words[used - 1..][1..] == Left();
      j := word % bound;
    }

    /** In-place shuffle: the order the words select. Even when they run out, only the order changes. */
    method Permute(a: array<nat>)
      requires Valid() && !failed && a.Length < WORDS
      modifies this, a
      ensures Valid() && multiset(a[..]) == multiset(old(a[..]))
      ensures failed <==> Draws(old(Left()), a.Length).None?
      ensures !failed ==> a[..] == Settle(old(a[..]), a.Length, Draws(old(Left()), a.Length).value.0)
                          && Left() == Draws(old(Left()), a.Length).value.1
    {
      hide Draw, Exchanged;
      var i := a.Length - 1;
      while i > 0
        invariant -1 <= i < a.Length && Valid() && !failed
        invariant multiset(a[..]) == multiset(old(a[..]))
        invariant var whole, rest := Draws(old(Left()), a.Length), Draws(Left(), i + 1);
          && (whole.None? <==> rest.None?)
          && (whole.Some? ==>
              && whole.value.1 == rest.value.1
              && Settle(old(a[..]), a.Length, whole.value.0) == Settle(a[..], i + 1, rest.value.0))
      {
        var j := Select(i + 1);
        if failed {
          return;
        }
        Swap(a, i, j);
        i := i - 1;
      }
    }
  }

  method Swap(a: array<nat>, i: nat, j: nat)
    requires i < a.Length && j < a.Length
    modifies a
    ensures a[..] == Exchanged(old(a[..]), i, j) && multiset(a[..]) == multiset(old(a[..]))
  {
    a[i], a[j] := a[j], a[i];
  }

  // ---------- Masking and shuffling ----------

  /** Every card in the clear: no mask, and the position's multiple of the generator. */
  method Initial(n: nat) returns (d: Deck)
    ensures |d| == n && forall i | 0 <= i < n :: d[i] == Card(0, i + 1)
  {
    var cards := new Card[n](_ => Card(0, 0));
    for i := 0 to n
      invariant forall k | 0 <= k < i :: cards[k] == Card(0, k + 1)
      invariant forall k | i <= k < n :: cards[k] == Card(0, 0)
    {
      cards[i] := Card(cards[i].c1, i + 1);
    }
    d := cards[..];
  }

  function MaskedCard(key: Point, card: Card, mask: Scalar): (c: Card) { Card(card.c1 + mask, card.c2 + key * mask) }

  /** The first draw that does not cancel a card's mask, and the draws after it. */
  function FirstMask(q: nat, c1: Point, draws: seq<Scalar>): (r: Option<(Scalar, seq<Scalar>)>)
    requires q > 0
    ensures r.None? <==> forall i | 0 <= i < |draws| :: IsZero(q, c1 + draws[i])
  {
    if draws == [] then None
    else if !IsZero(q, c1 + draws[0]) then Some((draws[0], draws[1..]))
    else
      var r := FirstMask(q, c1, draws[1..]);
      assert r.None? ==> forall i | 1 <= i < |draws| :: draws[1..][i - 1] == draws[i];
      r
  }

  /** One mask for each card, in order. */
  function Masks(q: nat, cards: Deck, draws: seq<Scalar>): (r: Option<seq<Scalar>>)
    requires q > 0
    ensures r.Some? ==> |r.value| == |cards|
  {
    if cards == [] then Some([])
    else match FirstMask(q, cards[0].c1, draws)
      case None => None
      case Some((m, rest)) => match Masks(q, cards[1..], rest) case None => None case Some(ms) => Some([m] + ms)
  }

  /** Masks a card again, drawing until the result keeps a mask. Fails only when the draws run out. */
  method Remask(q: nat, key: Point, card: Card, draws: seq<Scalar>)
    returns (r: Option<(Card, Scalar)>, rest: seq<Scalar>)
    requires q > 0
    ensures r.Some? ==>
      && r.value.0 == MaskedCard(key, card, r.value.1)
      && !IsZero(q, r.value.0.c1) && |rest| < |draws|
    ensures match FirstMask(q, card.c1, draws) case None => r.None? case Some(m) => r.Some? && (r.value.1, rest) == m
    ensures r.None? <==> forall i | 0 <= i < |draws| :: IsZero(q, card.c1 + draws[i])
  {
    var i := 0;
    while i < |draws|
      invariant i <= |draws| && forall k | 0 <= k < i :: IsZero(q, card.c1 + draws[k])
      invariant FirstMask(q, card.c1, draws) == FirstMask(q, card.c1, draws[i..])
    {
      var c1 := card.c1 + draws[i];
      if !IsZero(q, c1) {
        return Some((Card(c1, card.c2 + key * draws[i]), draws[i])), draws[i + 1..];
      }
      i := i + 1;
    }
    return None, [];
  }

  /** The order the words select for `n` cards. */
  function Order(words: seq<nat>, n: nat): (r: Option<seq<nat>>)
    requires n < WORDS
    ensures r.Some? ==> |r.value| == n && IsPermutation(r.value) && forall i | 0 <= i < n :: r.value[i] < n
  {
    match Draws(words, n)
    case None => None
    case Some((choices, _)) =>
      SettledStay(Iota(n), n, choices);
      PermutationOf(Settle(Iota(n), n, choices), n);
      Some(Settle(Iota(n), n, choices))
  }

  function Reordered(prev: Deck, order: seq<nat>): (d: Deck)
    requires forall i | 0 <= i < |order| :: order[i] < |prev|
    ensures |d| == |order| && forall i | 0 <= i < |d| :: d[i] == prev[order[i]]
  {
    seq(|order|, i requires 0 <= i < |order| => prev[order[i]])
  }

  function Masked(key: Point, cards: Deck, masks: seq<Scalar>): (d: Deck)
    requires |cards| == |masks|
    ensures |d| == |cards| && forall i | 0 <= i < |d| :: d[i] == MaskedCard(key, cards[i], masks[i])
  {
    seq(|cards|, i requires 0 <= i < |cards| => MaskedCard(key, cards[i], masks[i]))
  }

  /** What the words and the draws make of a deck: its order and its masks, unless either runs out. */
  function Chosen(q: nat, prev: Deck, words: seq<nat>, draws: seq<Scalar>): (r: Option<(seq<nat>, seq<Scalar>)>)
    requires q > 0 && |prev| < WORDS
    ensures r.Some? ==> |r.value.0| == |r.value.1| == |prev| && forall i | 0 <= i < |prev| :: r.value.0[i] < |prev|
  {
    match Order(words, |prev|)
    case None => None
    case Some(order) =>
      match Masks(q, Reordered(prev, order), draws) case None => None case Some(masks) => Some((order, masks))
  }

  /** One party's shuffle: permute, mask every card again and prove it. It returns a deck exactly when neither the
      words nor the draws run out, and that is the chosen shuffle of the input, with a proof the other party's
      verifier accepts. */
  method Shuffle(o: Oracle, par: Parameters, key: Point, prev: Deck, words: seq<nat>, draws: seq<Scalar>, coins: Coins,
                 binding: bytes) returns (r: Option<(Deck, Proof)>, ghost perm: seq<nat>, ghost rho: seq<Scalar>)
    requires par.q > 0 && |prev| == |par.bases| >= 2 && |prev| < WORDS && Drawn(coins, |prev|)
    requires forall i | 0 <= i < |words| :: words[i] < WORDS
    ensures r.Some? <==> Chosen(par.q, prev, words, draws).Some?
    ensures r.Some? ==>
      && (perm, rho) == Chosen(par.q, prev, words, draws).value
      && r.value.0 == Masked(key, Reordered(prev, perm), rho)
      && Shuffled(key, prev, r.value.0, perm, rho)
      && Verifies(o, par, key, prev, r.value.0, r.value.1, binding)
  {
    hide Verifies, Power, Order, Masks, IsPermutation, Drawn, IsZero;
    perm, rho := [], [];
    var order := Permuted(words, |prev|);
    if order.None? {
      return None, perm, rho;
    }
    perm := order.value;
    var m := MaskAll(par.q, key, prev, order.value, draws);
    if m.None? {
      return None, perm, rho;
    }
    var (next, masks) := m.value;
    rho := masks;
    var proof := Prove(o, par, key, order.value, prev, next, masks, coins, binding);
    return Some((next, proof)), perm, rho;
  }

  /** The first order of a fresh stream of words. */
  method Permuted(words: seq<nat>, n: nat) returns (r: Option<seq<nat>>)
    requires n < WORDS && forall i | 0 <= i < |words| :: words[i] < WORDS
    ensures r == Order(words, n)
  {
    hide Draws, Settle, Threshold, ChoicesFit, IsPermutation;
    var order := new nat[n](i => i);
    assert order[..] == Iota(n);
    var w := new Work(words);
    assert w.Left() == words;
    w.Permute(order);
    return if w.failed then None else Some(order[..]);
  }

  /** Masks every card of the new order. */
  method MaskAll(q: nat, key: Point, prev: Deck, order: seq<nat>, draws: seq<Scalar>)
    returns (r: Option<(Deck, seq<Scalar>)>)
    requires q > 0 && |order| == |prev| && forall i | 0 <= i < |order| :: order[i] < |prev|
    ensures match Masks(q, Reordered(prev, order), draws)
      case None => r.None?
      case Some(masks) => r.Some? && r.value == (Masked(key, Reordered(prev, order), masks), masks)
    ensures r.Some? ==> forall i | 0 <= i < |prev| :: !IsZero(q, r.value.0[i].c1)
  {
    hide FirstMask, IsZero, Masks, MasksGoOn, MaskedCard;
    var next: Deck, masks: seq<Scalar>, rest := [], [], draws;
    ghost var cards := Reordered(prev, order);
    MasksStart(q, cards, draws);
    for i := 0 to |order|
      invariant |next| == i == |masks|
      invariant forall k | 0 <= k < i :: next[k] == MaskedCard(key, cards[k], masks[k]) && !IsZero(q, next[k].c1)
      invariant MasksGoOn(q, cards, draws, masks, i, rest)
    {
      var m;
      MasksStep(q, cards, draws, masks, i, rest);
      m, rest := Remask(q, key, prev[order[i]], rest);
      if m.None? {
        return None;
      }
      next, masks := next + [m.value.0], masks + [m.value.1];
    }
    MasksEnd(q, cards, draws, masks, rest);
    assert next == Masked(key, cards, masks);
    return Some((next, masks));
  }

  /** After `i` cards the masks found so far begin the masks of all cards, and the draws left decide the others. */
  predicate MasksGoOn(q: nat, cards: Deck, draws: seq<Scalar>, masks: seq<Scalar>, i: nat, rest: seq<Scalar>)
    requires q > 0 && i <= |cards|
  {
    match Masks(q, cards[i..], rest)
    case None => Masks(q, cards, draws).None?
    case Some(ms) => Masks(q, cards, draws) == Some(masks + ms)
  }

  lemma MasksStart(q: nat, cards: Deck, draws: seq<Scalar>)
    requires q > 0
    ensures MasksGoOn(q, cards, draws, [], 0, draws)
  {
    hide FirstMask;
    assert cards[0..] == cards;
    var r := Masks(q, cards, draws);
    assert r.Some? ==> [] + r.value == r.value;
  }

  lemma MasksEnd(q: nat, cards: Deck, draws: seq<Scalar>, masks: seq<Scalar>, rest: seq<Scalar>)
    requires q > 0 && MasksGoOn(q, cards, draws, masks, |cards|, rest)
    ensures Masks(q, cards, draws) == Some(masks)
  {
    assert masks + [] == masks;
  }

  lemma MasksStep(q: nat, cards: Deck, draws: seq<Scalar>, masks: seq<Scalar>, i: nat, rest: seq<Scalar>)
    requires q > 0 && i < |cards| && MasksGoOn(q, cards, draws, masks, i, rest)
    ensures match FirstMask(q, cards[i].c1, rest)
      case None => Masks(q, cards, draws).None?
      case Some((m, left)) => MasksGoOn(q, cards, draws, masks + [m], i + 1, left)
  {
    hide FirstMask;
    assert cards[i..][1..] == cards[i + 1..];
    match FirstMask(q, cards[i].c1, rest)
    case None =>
    case Some((m, left)) =>
      match Masks(q, cards[i + 1..], left)
      case None =>
      case Some(ms) => assert masks + ([m] + ms) == masks + [m] + ms;
  }

  lemma PermutationOf(p: seq<nat>, n: nat)
    requires |p| == n && multiset(p) == multiset(Iota(n))
    ensures IsPermutation(p) && forall i | 0 <= i < n :: p[i] < n
  {
    forall i | 0 <= i < n ensures p[i] < n {
      PermutationRange(p, i);
    }
  }

  // ---------- What a deck hides ----------

  /** Under the joint secret, each position of the deck opens to its card. */
  predicate Opens(q: nat, secret: Scalar, d: Deck, cards: seq<nat>)
    requires q > 0
  {
    |d| == |cards| && forall i | 0 <= i < |d| :: Same(q, d[i].c2 - secret * d[i].c1, cards[i] + 1)
  }

  function PickedCards(cards: seq<nat>, perm: seq<nat>): (c: seq<nat>)
    requires forall i | 0 <= i < |perm| :: perm[i] < |cards|
    ensures |c| == |perm| && forall i | 0 <= i < |perm| :: c[i] == cards[perm[i]]
  {
    seq(|perm|, i requires 0 <= i < |perm| => cards[perm[i]])
  }

  lemma InitialOpens(q: nat, secret: Scalar, d: Deck)
    requires q > 0 && forall i | 0 <= i < |d| :: d[i] == Card(0, i + 1)
    ensures Opens(q, secret, d, Iota(|d|))
  {
  }

  /** A shuffle under the joint key only reorders what the deck opens to. */
  lemma ShuffleReorders(q: nat, secret: Scalar, prev: Deck, next: Deck, perm: seq<nat>, rho: seq<Scalar>,
                        cards: seq<nat>)
    requires q > 0 && Opens(q, secret, prev, cards) && Shuffled(secret, prev, next, perm, rho)
    ensures Opens(q, secret, next, PickedCards(cards, perm))
  {
    hide IsPermutation;
    forall i | 0 <= i < |next|
      ensures next[i].c2 - secret * next[i].c1 == prev[perm[i]].c2 - secret * prev[perm[i]].c1
    {
      assert secret * (prev[perm[i]].c1 + rho[i]) == secret * prev[perm[i]].c1 + secret * rho[i];
    }
  }

  /** After both players have shuffled, position i holds card p1[p2[i]], and no two positions hold the same card. */
  lemma TwoShufflesDeal(q: nat, secret: Scalar, initial: Deck, first: Deck, second: Deck, p1: seq<nat>,
                        rho1: seq<Scalar>, p2: seq<nat>, rho2: seq<Scalar>)
    requires q > 0 && forall i | 0 <= i < |initial| :: initial[i] == Card(0, i + 1)
    requires Shuffled(secret, initial, first, p1, rho1) && Shuffled(secret, first, second, p2, rho2)
    ensures Opens(q, secret, second, PickedCards(p1, p2))
    ensures forall i, j | 0 <= i < j < |second| :: p1[p2[i]] != p1[p2[j]]
  {
    InitialOpens(q, secret, initial);
    ShuffleReorders(q, secret, initial, first, p1, rho1, Iota(|initial|));
    assert PickedCards(Iota(|initial|), p1) == p1;
    ShuffleReorders(q, secret, first, second, p2, rho2, p1);
    forall i, j | 0 <= i < j < |second| ensures p1[p2[i]] != p1[p2[j]] {
      PermutationDistinct(p2, i, j);
      DistinctBothWays(p1, p2[i], p2[j]);
    }
  }

  lemma DistinctBothWays(perm: seq<nat>, i: nat, j: nat)
    requires IsPermutation(perm) && i < |perm| && j < |perm| && i != j
    ensures perm[i] != perm[j]
  {
    if i < j {
      PermutationDistinct(perm, i, j);
    } else {
      PermutationDistinct(perm, j, i);
    }
  }

  // ---------- Revealing ----------

  /** The sum of the shares, unless one of them or the sum is the point at infinity. */
  method AggregateReveals(q: nat, tokens: seq<Point>) returns (sum: Option<Point>)
    requires q > 0
    ensures sum.Some?
      <==> tokens != [] && (forall i | 0 <= i < |tokens| :: !IsZero(q, tokens[i])) && !IsZero(q, Total(tokens))
    ensures sum.Some? ==> sum.value == Total(tokens)
  {
    if tokens == [] {
      return None;
    }
    var total := 0;
    for i := 0 to |tokens|
      invariant total == Total(tokens[..i]) && forall k | 0 <= k < i :: !IsZero(q, tokens[k])
    {
      if IsZero(q, tokens[i]) {
        return None;
      }
      assert tokens[..i + 1][..i] == tokens[..i];
      total := total + tokens[i];
    }
    assert tokens[..|tokens|] == tokens;
    if IsZero(q, total) {
      return None;
    }
    return Some(total);
  }

  function Total(tokens: seq<Point>): (t: Point) {
    if tokens == [] then 0 else Total(tokens[..|tokens| - 1]) + tokens[|tokens| - 1]
  }

  /** The plaintext is a card: the multiple of the generator one above its index. */
  predicate IsCard(q: nat, plaintext: Point, c: nat)
    requires q > 0
  {
    Same(q, plaintext, c + 1)
  }

  /** Decodes exactly the multiples 1 to n of the generator. */
  method RevealCard(q: nat, n: nat, card: Card, token: Point) returns (r: Option<nat>)
    requires q > n
    ensures r.Some? ==> r.value < n && !IsZero(q, card.c1) && !IsZero(q, token) && IsCard(q, card.c2 - token, r.value)
    ensures forall c: nat | c < n && IsCard(q, card.c2 - token, c) && !IsZero(q, card.c1) && !IsZero(q, token) ::
      r == Some(c)
  {
    if IsZero(q, card.c1) || IsZero(q, token) {
      return None;
    }
    var plaintext := card.c2 - token;
    for i := 0 to n
      invariant forall k: nat | k < i :: !IsCard(q, plaintext, k)
    {
      if IsCard(q, plaintext, i) {
        OnlyCard(q, n, plaintext, i);
        return Some(i);
      }
    }
    return None;
  }

  /** Fewer cards than the group order: a point decodes to at most one card. */
  lemma OnlyCard(q: nat, n: nat, plaintext: Point, i: nat)
    requires q > n && i < n && IsCard(q, plaintext, i)
    ensures forall c: nat | c < n && IsCard(q, plaintext, c) :: c == i
  {
    forall c: nat | c < n && IsCard(q, plaintext, c) ensures c == i {
      Residue(q, 0, c + 1);
      Residue(q, 0, i + 1);
    }
  }

  /** Both shares of a card combine without hitting infinity, and reveal the card its position opens to. */
  lemma SharesReveal(q: nat, n: nat, secret1: Scalar, secret2: Scalar, d: Deck, cards: seq<nat>, i: nat)
    requires PrimeOrder(q) && q > n && i < |d| && Opens(q, secret1 + secret2, d, cards) && cards[i] < n
    requires !IsZero(q, secret1) && !IsZero(q, secret2) && !IsZero(q, secret1 + secret2) && !IsZero(q, d[i].c1)
    ensures var tokens := [d[i].c1 * secret1, d[i].c1 * secret2];
      && !IsZero(q, tokens[0]) && !IsZero(q, tokens[1]) && !IsZero(q, Total(tokens))
      && IsCard(q, d[i].c2 - Total(tokens), cards[i])
  {
    var c1 := d[i].c1;
    var tokens := [c1 * secret1, c1 * secret2];
    assert tokens[..1] == [c1 * secret1] && [c1 * secret1][..0] == [];
    assert Total([c1 * secret1]) == c1 * secret1;
    assert Total(tokens) == c1 * (secret1 + secret2) == (secret1 + secret2) * c1;
  }

  /** Two honest shuffles from the cards in the clear and both players' shares: position i reveals p1[p2[i]]. */
  method DealIsCorrect(par: Parameters, secret1: Scalar, secret2: Scalar, initial: Deck, first: Deck, second: Deck,
                       ghost p1: seq<nat>, ghost rho1: seq<Scalar>, ghost p2: seq<nat>, ghost rho2: seq<Scalar>, i: nat)
    returns (card: Option<nat>)
    requires PrimeOrder(par.q) && par.q > |initial| && forall k | 0 <= k < |initial| :: initial[k] == Card(0, k + 1)
    requires !IsZero(par.q, secret1) && !IsZero(par.q, secret2) && !IsZero(par.q, secret1 + secret2)
    requires Shuffled(secret1 + secret2, initial, first, p1, rho1)
      && Shuffled(secret1 + secret2, first, second, p2, rho2)
    requires i < |second| && !IsZero(par.q, second[i].c1)
    ensures card == Some(p1[p2[i]])
  {
    hide IsPermutation;
    ghost var cards := PickedCards(p1, p2);
    TwoShufflesDeal(par.q, secret1 + secret2, initial, first, second, p1, rho1, p2, rho2);
    SharesReveal(par.q, |initial|, secret1, secret2, second, cards, i);
    var token := AggregateReveals(par.q, [second[i].c1 * secret1, second[i].c1 * secret2]);
    card := RevealCard(par.q, |initial|, second[i], token.value);
  }

  // ---------- Proofs of ownership and of a share ----------

  datatype OwnershipProof = OwnershipProof(a: Point, z: Scalar)
  datatype RevealProof = RevealProof(tg: Point, tc1: Point, z: Scalar)

  function OwnershipChallenge(q: nat, o: Oracle, key: Point, a: Point, binding: bytes): (e: Scalar)
    requires q > 0
  {
    o(Append(q, Append(q, Bound(binding), "pk", [key]), "a", [a]), "ziffle/DLOG/v2", 0)
  }

  function RevealChallenge(q: nat, o: Oracle, key: Point, share: Point, c1: Point, tg: Point, tc1: Point,
                           binding: bytes): (e: Scalar)
    requires q > 0
  {
    o(Append(q, Bound(binding), "points", [key, share, c1, tg, tc1]), "ziffle/DLEQ/v2", 0)
  }

  predicate OwnershipHolds(q: nat, key: Point, p: OwnershipProof, e: Scalar)
    requires q > 0
  {
    !IsZero(q, key) && Same(q, p.z, p.a + key * e)
  }

  /** Both discrete-logarithm equations, with the minus-sign response. */
  predicate RevealHolds(q: nat, key: Point, c1: Point, share: Point, p: RevealProof, e: Scalar)
    requires q > 0
  {
    && !IsZero(q, key) && !IsZero(q, c1) && !IsZero(q, share)
    && Same(q, p.tg, p.z + key * e) && Same(q, p.tc1, c1 * p.z + share * e)
  }

  method ProveOwnership(q: nat, o: Oracle, secret: Scalar, nonce: Scalar, binding: bytes)
    returns (key: Point, p: OwnershipProof)
    requires q > 0 && !IsZero(q, secret)
    ensures key == secret && OwnershipHolds(q, key, p, OwnershipChallenge(q, o, key, p.a, binding))
  {
    key := secret;
    var a := nonce;
    var e := OwnershipChallenge(q, o, key, a, binding);
    p := OwnershipProof(a, nonce + e * secret);
  }

  method Reveal(q: nat, o: Oracle, secret: Scalar, nonce: Scalar, card: Card, binding: bytes)
    returns (share: Point, p: RevealProof)
    requires PrimeOrder(q) && !IsZero(q, secret) && !IsZero(q, card.c1)
    ensures share == card.c1 * secret
    ensures RevealHolds(q, secret, card.c1, share, p,
                        RevealChallenge(q, o, secret, share, card.c1, p.tg, p.tc1, binding))
  {
    share := card.c1 * secret;
    var tg, tc1 := nonce, card.c1 * nonce;
    var e := RevealChallenge(q, o, secret, share, card.c1, tg, tc1, binding);
    p := RevealProof(tg, tc1, nonce - e * secret);
    assert card.c1 * (nonce - e * secret) == card.c1 * nonce - card.c1 * (e * secret);
    assert card.c1 * secret * e == card.c1 * (e * secret) by {
      Associate(card.c1, secret, e);
    }
  }

  /** Answering two challenges for one pair of commitments is only possible for the true share. */
  lemma RevealBinds(q: nat, key: Point, c1: Point, share: Point, tg: Point, tc1: Point, z: Scalar, e: Scalar,
                    z': Scalar, e': Scalar)
    requires PrimeOrder(q) && !Same(q, e, e')
    requires RevealHolds(q, key, c1, share, RevealProof(tg, tc1, z), e)
    requires RevealHolds(q, key, c1, share, RevealProof(tg, tc1, z'), e')
    ensures Same(q, share, c1 * key)
  {
    var u := Quotient(q, tg, z + key * e);
    var v := Quotient(q, tg, z' + key * e');
    var s := Quotient(q, tc1, c1 * z + share * e);
    var t := Quotient(q, tc1, c1 * z' + share * e');
    BindingAlgebra(q, key, c1, share, tg, tc1, z, e, z', e', u, v, s, t);
    var m := s - t - c1 * (u - v);
    assert (share - c1 * key) * (e - e') == q * m;
    MultipleIsZero(q, m);
    assert ((share - c1 * key) * (e - e')) % q == 0;
    ZeroDifference(q, e, e');
    ZeroDifference(q, share, c1 * key);
  }

  lemma BindingAlgebra(q: nat, key: int, c1: int, share: int, tg: int, tc1: int, z: int, e: int, z': int, e': int,
                       u: int, v: int, s: int, t: int)
    requires z + key * e - tg == q * u && z' + key * e' - tg == q * v
    requires c1 * z + share * e - tc1 == q * s && c1 * z' + share * e' - tc1 == q * t
    ensures (share - c1 * key) * (e - e') == q * (s - t - c1 * (u - v))
  {
    assert z - z' == q * (u - v) - key * (e - e') by {
      assert key * (e - e') == key * e - key * e';
      assert q * (u - v) == q * u - q * v;
    }
    assert c1 * (z - z') == c1 * (q * (u - v)) - c1 * (key * (e - e'));
    assert share * (e - e') == q * (s - t) - c1 * (z - z') by {
      assert share * (e - e') == share * e - share * e';
      assert c1 * (z - z') == c1 * z - c1 * z';
      assert q * (s - t) == q * s - q * t;
    }
    Associate(c1, key, e - e');
    Associate(c1, q, u - v);
    assert q * (c1 * (u - v)) == c1 * (q * (u - v));
    assert (share - c1 * key) * (e - e') == share * (e - e') - c1 * key * (e - e');
    assert q * (s - t - c1 * (u - v)) == q * (s - t) - q * (c1 * (u - v));
  }
}
