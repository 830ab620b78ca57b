/** The strength of five cards, the rank of seven, and why the order of the cards does not matter. */
module Ranking {
  import opened Algebra
  import opened Combinations

  const DECK: nat := 52
  const NUM_RANKS: nat := 7462

  // ---------- Strength of five cards ----------

  function RankOf(card: nat): (r: nat) { card % 13 + 2 }

  function Suit(card: nat): (s: nat) { card / 13 }

  /** How many of the cards have a rank. */
  function Count(cards: seq<nat>, rank: nat): (c: nat) {
    if cards == [] then 0
    else Count(cards[..|cards| - 1], rank) + (if RankOf(cards[|cards| - 1]) == rank then 1 else 0)
  }

  predicate Flush(cards: seq<nat>) { forall i | 0 <= i < |cards| :: Suit(cards[i]) == Suit(cards[0]) }

  /** The ranks from `top` down to 2 that occur a given number of times. */
  function Occurring(counts: seq<nat>, top: nat, times: nat): (ranks: seq<nat>)
    requires top < |counts|
  {
    if top < 2 then []
    else (if counts[top] == times then [top] else []) + Occurring(counts, top - 1, times)
  }

  function Present(counts: seq<nat>, top: nat): (ranks: seq<nat>)
    requires top < |counts|
  {
    if top < 2 then [] else (if counts[top] != 0 then [top] else []) + Present(counts, top - 1)
  }

  /** Entries beyond the end read as zero, as in a zeroed array. */
  function Entry(s: seq<nat>, i: nat): (v: nat) { if i < |s| then s[i] else 0 }

  function Last(s: seq<nat>): (v: nat) { if s == [] then 0 else s[|s| - 1] }

  function Straight(distinct: seq<nat>): (top: nat) {
    if |distinct| != 5 then 0
    else if distinct == [14, 5, 4, 3, 2] then 5
    else if distinct[0] == distinct[4] + 4 then distinct[0]
    else 0
  }

  /** Category first, then the ranks that break ties. */
  function Tuple(counts: seq<nat>, flush: bool): (t: seq<nat>)
    requires |counts| == 15
    ensures |t| == 6
  {
    var distinct, singles, pairs := Present(counts, 14), Occurring(counts, 14, 1), Occurring(counts, 14, 2);
    var quad, trip, straight := Last(Occurring(counts, 14, 4)), Last(Occurring(counts, 14, 3)), Straight(distinct);
    if flush && straight != 0 then [8, straight, 0, 0, 0, 0]
    else if quad != 0 then [7, quad, Entry(singles, 0), 0, 0, 0]
    else if trip != 0 && |pairs| == 1 then [6, trip, Entry(pairs, 0), 0, 0, 0]
    else if flush
      then [5, Entry(distinct, 0), Entry(distinct, 1), Entry(distinct, 2), Entry(distinct, 3), Entry(distinct, 4)]
    else if straight != 0 then [4, straight, 0, 0, 0, 0]
    else if trip != 0 then [3, trip, Entry(singles, 0), Entry(singles, 1), 0, 0]
    else if |pairs| == 2 then [2, Entry(pairs, 0), Entry(pairs, 1), Entry(singles, 0), 0, 0]
    else if |pairs| == 1 then [1, Entry(pairs, 0), Entry(singles, 0), Entry(singles, 1), Entry(singles, 2), 0]
    else [0, Entry(distinct, 0), Entry(distinct, 1), Entry(distinct, 2), Entry(distinct, 3), Entry(distinct, 4)]
  }

  function Pack(t: seq<nat>): (packed: nat) {
    if t == [] then 0 else 16 * Pack(t[..|t| - 1]) + t[|t| - 1]
  }

  function Counts(cards: seq<nat>): (counts: seq<nat>)
    ensures |counts| == 15 && forall r | 0 <= r < 15 :: counts[r] == Count(cards, r)
  {
    seq(15, r requires 0 <= r < 15 => Count(cards, r))
  }

  function Strength(cards: seq<nat>): (s: nat) { Pack(Tuple(Counts(cards), Flush(cards))) }

  method ComputeStrength(cards: seq<nat>) returns (packed: nat)
    requires cards != []
    ensures packed == Strength(cards)
  {
    var counts := new nat[15](_ => 0);
    var flush := true;
    for i := 0 to |cards|
      invariant forall r | 0 <= r < 15 :: counts[r] == Count(cards[..i], r)
      invariant flush <==> forall k | 0 <= k < i :: Suit(cards[k]) == Suit(cards[0])
    {
      assert cards[..i + 1][..i] == cards[..i];
      counts[RankOf(cards[i])] := counts[RankOf(cards[i])] + 1;
      flush := flush && Suit(cards[i]) == Suit(cards[0]);
    }
    assert cards[..|cards|] == cards;
    assert counts[..] == Counts(cards);
    var c := counts[..];
    var distinct, singles, pairs := GroupRanks(c);
    var quad, trip := Repeated(c);
    var straight := 0;
    if |distinct| == 5 {
      if distinct == [14, 5, 4, 3, 2] {
        straight := 5;
      } else if distinct[0] == distinct[4] + 4 {
        straight := distinct[0];
      }
    }
    var tuple: seq<nat>;
    if flush && straight != 0 {
      tuple := [8, straight, 0, 0, 0, 0];
    } else if quad != 0 {
      tuple := [7, quad, Entry(singles, 0), 0, 0, 0];
    } else if trip != 0 && |pairs| == 1 {
      tuple := [6, trip, pairs[0], 0, 0, 0];
    } else if flush {
      tuple := [5, Entry(distinct, 0), Entry(distinct, 1), Entry(distinct, 2), Entry(distinct, 3), Entry(distinct, 4)];
    } else if straight != 0 {
      tuple := [4, straight, 0, 0, 0, 0];
    } else if trip != 0 {
      tuple := [3, trip, Entry(singles, 0), Entry(singles, 1), 0, 0];
    } else if |pairs| == 2 {
      tuple := [2, pairs[0], pairs[1], Entry(singles, 0), 0, 0];
    } else if |pairs| == 1 {
      tuple := [1, pairs[0], Entry(singles, 0), Entry(singles, 1), Entry(singles, 2), 0];
    } else {
      tuple := [0, Entry(distinct, 0), Entry(distinct, 1), Entry(distinct, 2), Entry(distinct, 3), Entry(distinct, 4)];
    }
    packed := PackLoop(tuple);
  }

  method PackLoop(tuple: seq<nat>) returns (packed: nat)
    ensures packed == Pack(tuple)
  {
    packed := 0;
    for i := 0 to |tuple|
      invariant packed == Pack(tuple[..i])
    {
      assert tuple[..i + 1][..i] == tuple[..i];
      packed := packed * 16 + tuple[i];
    }
    assert tuple[..|tuple|] == tuple;
  }

  lemma Shifted(s: seq<nat>, r: nat, rest: seq<nat>)
    ensures s + ([r] + rest) == (s + [r]) + rest
  {
  }

  lemma Unshifted(rest: seq<nat>)
    ensures [] + rest == rest
  {
  }

  /** One pass from the ace down. */
  method GroupRanks(counts: seq<nat>) returns (distinct: seq<nat>, singles: seq<nat>, pairs: seq<nat>)
    requires |counts| == 15
    ensures distinct == Present(counts, 14) && singles == Occurring(counts, 14, 1) && pairs == Occurring(counts, 14, 2)
  {
    distinct, singles, pairs := [], [], [];
    var r := 14;
    while r >= 2
      invariant 1 <= r <= 14
      invariant distinct + Present(counts, r) == Present(counts, 14)
      invariant singles + Occurring(counts, r, 1) == Occurring(counts, 14, 1)
      invariant pairs + Occurring(counts, r, 2) == Occurring(counts, 14, 2)
    {
      Unshifted(Present(counts, r - 1));
      Unshifted(Occurring(counts, r - 1, 1));
      Unshifted(Occurring(counts, r - 1, 2));
      if counts[r] != 0 {
        Shifted(distinct, r, Present(counts, r - 1));
        distinct := distinct + [r];
      }
      if counts[r] == 2 {
        Shifted(pairs, r, Occurring(counts, r - 1, 2));
        pairs := pairs + [r];
      }
      if counts[r] == 1 {
        Shifted(singles, r, Occurring(counts, r - 1, 1));
        singles := singles + [r];
      }
      r := r - 1;
    }
  }

  /** The lowest rank occurring four, and three, times: later assignments overwrite earlier ones. */
  method Repeated(counts: seq<nat>) returns (quad: nat, trip: nat)
    requires |counts| == 15
    ensures quad == Last(Occurring(counts, 14, 4)) && trip == Last(Occurring(counts, 14, 3))
  {
    quad, trip := 0, 0;
    var r := 14;
    while r >= 2
      invariant 1 <= r <= 14
      invariant Last(Occurring(counts, 14, 4)) == if Occurring(counts, r, 4) == [] then quad
        else Last(Occurring(counts, r, 4))
      invariant Last(Occurring(counts, 14, 3)) == if Occurring(counts, r, 3) == [] then trip
        else Last(Occurring(counts, r, 3))
    {
      if counts[r] == 4 {
        quad := r;
      } else if counts[r] == 3 {
        trip := r;
      }
      r := r - 1;
    }
  }

  // ---------- The packed order ----------

  predicate Nibbles(t: seq<nat>) { forall i | 0 <= i < |t| :: t[i] < 16 }

  /** Comparing packed strengths is comparing the tuples, category first. */
  lemma {:induction false} PackedOrder(a: seq<nat>, b: seq<nat>)
    requires |a| == |b| && Nibbles(a) && Nibbles(b)
    ensures Pack(a) < Pack(b) <==> Before(a, b)
    ensures Pack(a) == Pack(b) <==> a == b
  {
    if a != [] {
      var n := |a| - 1;
      PackedOrder(a[..n], b[..n]);
      assert a == a[..n] + [a[n]] && b == b[..n] + [b[n]];
      BeforeSnoc(a[..n], b[..n], a[n], b[n]);
    }
  }

  lemma {:induction false} BeforeSnoc(a: seq<nat>, b: seq<nat>, x: nat, y: nat)
    requires |a| == |b|
    ensures Before(a + [x], b + [y]) <==> Before(a, b) || (a == b && x < y)
  {
    var c, d := a + [x], b + [y];
    if a == [] {
      assert c[1..] == [] == d[1..];
    } else {
      assert c[1..] == a[1..] + [x] && d[1..] == b[1..] + [y];
      BeforeSnoc(a[1..], b[1..], x, y);
      assert a == [a[0]] + a[1..] && b == [b[0]] + b[1..];
    }
  }

  // ---------- Order independence ----------

  function Indicator(rank: nat): (terms: seq<int>)
    ensures |terms| == DECK && forall c | 0 <= c < DECK :: terms[c] == if RankOf(c) == rank then 1 else 0
  {
    seq(DECK, c requires 0 <= c < DECK => if RankOf(c) == rank then 1 else 0)
  }

  lemma {:induction false} CountIsOver(cards: seq<nat>, rank: nat)
    requires forall i | 0 <= i < |cards| :: cards[i] < DECK
    ensures Count(cards, rank) == Over(Adding, Indicator(rank), cards)
  {
    if cards != [] {
      CountIsOver(cards[..|cards| - 1], rank);
    }
  }

  /** Strength sees the cards only as a multiset. */
  lemma StrengthReordered(a: seq<nat>, b: seq<nat>)
    requires multiset(a) == multiset(b) && (forall i | 0 <= i < |a| :: a[i] < DECK)
      && (forall i | 0 <= i < |b| :: b[i] < DECK)
    ensures Strength(a) == Strength(b)
  {
    forall r | 0 <= r < 15 ensures Counts(a)[r] == Counts(b)[r] {
      CountIsOver(a, r);
      CountIsOver(b, r);
      OverReordered(Adding, Indicator(r), a, b);
    }
    assert Counts(a) == Counts(b);
    FlushReordered(a, b);
    FlushReordered(b, a);
  }

  lemma FlushReordered(a: seq<nat>, b: seq<nat>)
    requires multiset(a) == multiset(b)
    ensures Flush(a) ==> Flush(b)
  {
    if Flush(a) {
      forall i | 0 <= i < |b| ensures Suit(b[i]) == Suit(b[0]) {
        var k := Find(a, b[i]);
        var l := Find(a, b[0]);
      }
    }
  }

  /** The cards without two of them. */
  function Omit(cards: seq<nat>, i: nat, j: nat): (s: seq<nat>)
    requires i < j < |cards|
    ensures |s| == |cards| - 2
  {
    cards[..i] + cards[i + 1..j] + cards[j + 1..]
  }

  lemma OmitMultiset(cards: seq<nat>, i: nat, j: nat)
    requires i < j < |cards|
    ensures multiset(Omit(cards, i, j)) == multiset(cards) - multiset{cards[i]} - multiset{cards[j]}
    ensures forall x | x in Omit(cards, i, j) :: x in cards
  {
    assert cards == cards[..i] + [cards[i]] + cards[i + 1..j] + [cards[j]] + cards[j + 1..];
  }

  type Table = map<nat, nat>

  /** A strength the table does not list ranks zero. */
  function Listed(table: Table, cards: seq<nat>): (rank: nat) {
    if Strength(cards) in table then table[Strength(cards)] else 0
  }

  function Max(a: nat, b: nat): (m: nat) { if a >= b then a else b }

  /** The best rank over the pairs (i, k) with k below j. */
  function BestRow(table: Table, cards: seq<nat>, i: nat, j: nat): (best: nat)
    requires i < j <= |cards|
  {
    if j == i + 1 then 0 else Max(BestRow(table, cards, i, j - 1), Listed(table, Omit(cards, i, j - 1)))
  }

  function BestRows(table: Table, cards: seq<nat>, rows: nat): (best: nat)
    requires rows <= |cards|
  {
    if rows == 0 then 0 else Max(BestRows(table, cards, rows - 1), BestRow(table, cards, rows - 1, |cards|))
  }

  /** The rank of a hand: the best over all ways to leave out two cards. */
  function HandRank(table: Table, cards: seq<nat>): (rank: nat) { BestRows(table, cards, |cards|) }

  method ComputeHandRank(table: Table, cards: seq<nat>) returns (best: nat)
    requires |cards| > 2
    ensures best == HandRank(table, cards)
  {
    hide Strength;
    best := 0;
    for i := 0 to |cards|
      invariant best == BestRows(table, cards, i)
    {
      ghost var before := best;
      for j := i + 1 to |cards|
        invariant best == Max(before, BestRow(table, cards, i, j))
      {
        var subset: seq<nat> := [];
        for k := 0 to |cards|
          invariant subset == cards[..if k <= i then k else i]
            + (if k > i + 1 then cards[i + 1..if k <= j then k else j] else [])
            + (if k > j + 1 then cards[j + 1..k] else [])
        {
          if k != i && k != j {
            subset := subset + [cards[k]];
          }
        }
        assert subset == Omit(cards, i, j);
        var strength := ComputeStrength(subset);
        var rank := if strength in table then table[strength] else 0;
        best := Max(best, rank);
      }
    }
  }

  /** Nothing left out beats the best, and something reaches it. */
  predicate AtMost(table: Table, cards: seq<nat>, best: nat) {
    forall i, j | 0 <= i < j < |cards| :: Listed(table, Omit(cards, i, j)) <= best
  }

  lemma {:induction false} RowIsBest(table: Table, cards: seq<nat>, i: nat, j: nat)
    requires i < j <= |cards|
    ensures forall k | i < k < j :: Listed(table, Omit(cards, i, k)) <= BestRow(table, cards, i, j)
    ensures BestRow(table, cards, i, j) == 0
      || exists k :: i < k < j && Listed(table, Omit(cards, i, k)) == BestRow(table, cards, i, j)
  {
    hide Listed, Omit;
    if j > i + 1 {
      RowIsBest(table, cards, i, j - 1);
    }
  }

  lemma {:induction false} RowsAreBest(table: Table, cards: seq<nat>, rows: nat)
    requires rows <= |cards|
    ensures forall i, k | 0 <= i < rows && i < k < |cards| ::
      Listed(table, Omit(cards, i, k)) <= BestRows(table, cards, rows)
    ensures BestRows(table, cards, rows) == 0
      || exists i, k ::
           0 <= i < rows && i < k < |cards| && Listed(table, Omit(cards, i, k)) == BestRows(table, cards, rows)
  {
    hide Listed, Omit, BestRow;
    if rows > 0 {
      RowsAreBest(table, cards, rows - 1);
      RowIsBest(table, cards, rows - 1, |cards|);
    }
  }

  /** For each pair left out of one ordering, the same pair can be left out of the other. */
  lemma SamePair(table: Table, a: seq<nat>, b: seq<nat>, i: nat, j: nat) returns (k: nat, l: nat)
    requires multiset(a) == multiset(b) && Combinations.Distinct(DECK, a) && Combinations.Distinct(DECK, b)
      && i < j < |a|
    ensures k < l < |b| && Listed(table, Omit(a, i, j)) == Listed(table, Omit(b, k, l))
  {
    hide Strength, Omit, Listed;
    var x := Find(b, a[i]);
    var y := Find(b, a[j]);
    assert x != y;
    k, l := if x < y then x else y, if x < y then y else x;
    OmitMultiset(a, i, j);
    OmitMultiset(b, k, l);
    Belongs(a, Omit(a, i, j));
    Belongs(b, Omit(b, k, l));
    ListedReordered(table, Omit(a, i, j), Omit(b, k, l));
  }

  lemma ListedReordered(table: Table, s: seq<nat>, t: seq<nat>)
    requires multiset(s) == multiset(t) && (forall i | 0 <= i < |s| :: s[i] < DECK)
      && (forall i | 0 <= i < |t| :: t[i] < DECK)
    ensures Listed(table, s) == Listed(table, t)
  {
    hide Strength;
    StrengthReordered(s, t);
  }

  lemma Belongs(cards: seq<nat>, s: seq<nat>)
    requires (forall x | x in s :: x in cards) && forall i | 0 <= i < |cards| :: cards[i] < DECK
    ensures forall i | 0 <= i < |s| :: s[i] < DECK
  {
    forall i | 0 <= i < |s| ensures s[i] < DECK {
      assert s[i] in cards;
    }
  }

  lemma NotBetter(table: Table, a: seq<nat>, b: seq<nat>)
    requires multiset(a) == multiset(b) && Combinations.Distinct(DECK, a) && Combinations.Distinct(DECK, b)
    ensures HandRank(table, a) <= HandRank(table, b)
  {
    hide Listed, Omit, BestRows;
    RowsAreBest(table, a, |a|);
    RowsAreBest(table, b, |b|);
    if HandRank(table, a) != 0 {
      var i, j :| 0 <= i < |a| && i < j < |a| && Listed(table, Omit(a, i, j)) == HandRank(table, a);
      var k, l := SamePair(table, a, b, i, j);
    }
  }

  /** The rank of a hand does not depend on the order of its cards. */
  lemma HandRankReordered(table: Table, a: seq<nat>, b: seq<nat>)
    requires multiset(a) == multiset(b) && Combinations.Distinct(DECK, a) && Combinations.Distinct(DECK, b)
    ensures HandRank(table, a) == HandRank(table, b)
  {
    NotBetter(table, a, b);
    NotBetter(table, b, a);
  }
}
