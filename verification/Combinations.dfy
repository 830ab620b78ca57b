/** Numbering the ascending k-card combinations of an n-card deck, in lexicographic order. */
module Combinations {
  import opened Bits

  // ---------- Binomial coefficients ----------

  function Choose(n: nat, k: nat): (c: nat) {
    if k == 0 then 1 else if n == 0 then 0 else Choose(n - 1, k - 1) + Choose(n - 1, k)
  }

  lemma {:induction false} ChooseTooMany(n: nat, k: nat)
    requires k > n
    ensures Choose(n, k) == 0
  {
    if n > 0 {
      ChooseTooMany(n - 1, k - 1);
      ChooseTooMany(n - 1, k);
    }
  }

  lemma {:induction false} ChooseAll(n: nat)
    ensures Choose(n, n) == 1
  {
    if n > 0 {
      ChooseAll(n - 1);
      ChooseTooMany(n - 1, n);
    }
  }

  lemma {:induction false} ChooseSymmetric(n: nat, k: nat)
    requires k <= n
    ensures Choose(n, k) == Choose(n, n - k)
  {
    if k == 0 || k == n {
      ChooseAll(n);
    } else {
      ChooseSymmetric(n - 1, k - 1);
      ChooseSymmetric(n - 1, k);
    }
  }

  /** Each step of the running product divides exactly. */
  lemma {:induction false} StepIsExact(n: nat, i: nat)
    requires i < n
    ensures Choose(n, i) * (n - i) == Choose(n, i + 1) * (i + 1)
  {
    if i < n - 1 {
      StepIsExact(n - 1, i);
    } else {
      ChooseTooMany(n - 1, n);
    }
    if i > 0 {
      StepIsExact(n - 1, i - 1);
      PascalStep(n, i, Choose(n - 1, i - 1), Choose(n - 1, i), Choose(n - 1, i + 1));
    } else {
      PascalStep(n, i, 0, Choose(n - 1, i), Choose(n - 1, i + 1));
    }
  }

  /** Three neighbours in one row give the step in the next. */
  lemma PascalStep(n: nat, i: nat, a: nat, b: nat, c: nat)
    requires i < n && b * (n - 1 - i) == c * (i + 1) && (i > 0 ==> a * (n - i) == b * i) && (i == 0 ==> a == 0)
    ensures (a + b) * (n - i) == (b + c) * (i + 1)
  {
    assert (a + b) * (n - i) == a * (n - i) + b * (n - i);
    assert (b + c) * (i + 1) == b * (i + 1) + c * (i + 1);
    assert b * (n - i) == b * (n - 1 - i) + b;
    assert b * (i + 1) == b * i + b;
  }

  /** The running product of `choose`: every intermediate value is itself a binomial coefficient. */
  method ComputeChoose(n: nat, chosen: nat) returns (v: nat)
    ensures v == Choose(n, chosen)
  {
    if chosen > n {
      ChooseTooMany(n, chosen);
      return 0;
    }
    ChooseSymmetric(n, chosen);
    var k := if chosen <= n - chosen then chosen else n - chosen;
    v := 1;
    for i := 0 to k
      invariant v == Choose(n, i)
    {
      StepIsExact(n, i);
      DivideBack(Choose(n, i + 1), i + 1);
      v := v * (n - i) / (i + 1);
    }
  }

  lemma DivideBack(c: nat, d: nat)
    requires d > 0
    ensures c * d / d == c
  {
    var q := c * d / d;
    assert d * q <= c * d < d * q + d;
    Between(d, q - c);
    assert d * (q - c) == d * q - c * d;
  }

  lemma Between(d: nat, m: int)
    ensures m >= 1 ==> d * m >= d
    ensures m <= -1 ==> d * m <= 0 - d
  {
  }

  lemma {:induction false} ChooseBelowPower(n: nat, k: nat)
    ensures Choose(n, k) <= Pow2(n)
  {
    if k > 0 && n > 0 {
      ChooseBelowPower(n - 1, k - 1);
      ChooseBelowPower(n - 1, k);
    }
  }

  /** In a 52-card deck no intermediate product exceeds 64 bits. */
  lemma NoOverflow(n: nat, i: nat)
    requires i < n <= 51
    ensures Choose(n, i) * (n - i) < 0x1_0000_0000_0000_0000
  {
    hide Choose, Pow2;
    ChooseBelowPower(n, i);
    PowerGrows(n, 51);
    TwoToThe51(51);
    Bounded(Choose(n, i), n - i, 0x8_0000_0000_0000, 51);
  }

  lemma TwoToThe51(n: nat)
    requires n == 51
    ensures Pow2(n) == 0x8_0000_0000_0000
  {
    assert Pow2(3) == 8;
    hide Pow2;
    var k: nat := 3;
    PowersAdd(k, k);
    PowersAdd(2 * k, 2 * k);
    PowersAdd(4 * k, 4 * k);
    PowersAdd(8 * k, 8 * k);
    PowersAdd(16 * k, k);
  }

  lemma Bounded(a: nat, b: nat, c: nat, d: nat)
    requires a <= c && b <= d
    ensures a * b <= c * d
  {
    assert a * b <= c * b <= c * d;
  }

  lemma {:induction false} PowersAdd(a: nat, b: nat)
    ensures Pow2(a + b) == Pow2(a) * Pow2(b)
  {
    if a > 0 {
      PowersAdd(a - 1, b);
      assert 2 * (Pow2(a - 1) * Pow2(b)) == 2 * Pow2(a - 1) * Pow2(b);
    }
  }

  lemma {:induction false} PowerGrows(a: nat, b: nat)
    requires a <= b
    ensures Pow2(a) <= Pow2(b)
  {
    if a < b {
      PowerGrows(a, b - 1);
    }
  }

  // ---------- Combinations and their numbers ----------

  /** Strictly ascending cards from `low` on, below `n`. */
  predicate Ascending(n: nat, low: nat, cards: seq<nat>)
    decreases cards
  {
    cards == [] || (low <= cards[0] < n && Ascending(n, cards[0] + 1, cards[1..]))
  }

  /** Combinations passed over when the next card moves from `from` to `to`, with `rest` cards to follow. */
  function Skipped(n: nat, from: nat, to: nat, rest: nat): (s: nat)
    requires from <= to <= n
  {
    if from == to then 0 else Skipped(n, from, to - 1, rest) + Choose(n - to, rest)
  }

  /** The number of a combination among those drawn from `low` on. */
  function Index(n: nat, low: nat, cards: seq<nat>): (i: nat)
    requires Ascending(n, low, cards)
    decreases cards
  {
    if cards == [] then 0
    else Skipped(n, low, cards[0], |cards| - 1) + Index(n, cards[0] + 1, cards[1..])
  }

  /** The hockey-stick identity. */
  lemma {:induction false} SkippedSum(n: nat, from: nat, to: nat, rest: nat)
    requires from <= to <= n
    ensures Skipped(n, from, to, rest) + Choose(n - to, rest + 1) == Choose(n - from, rest + 1)
  {
    if from < to {
      SkippedSum(n, from, to - 1, rest);
    }
  }

  lemma {:induction false} SkippedFirst(n: nat, from: nat, to: nat, rest: nat)
    requires from < to <= n
    ensures Skipped(n, from, to, rest) == Choose(n - 1 - from, rest) + Skipped(n, from + 1, to, rest)
  {
    if from + 1 < to {
      SkippedFirst(n, from, to - 1, rest);
    } else {
      assert Skipped(n, from, from, rest) == 0 == Skipped(n, to, to, rest);
    }
  }

  lemma {:induction false} SkippedGrows(n: nat, from: nat, to: nat, further: nat, rest: nat)
    requires from <= to <= further <= n
    ensures Skipped(n, from, to, rest) <= Skipped(n, from, further, rest)
  {
    if to < further {
      SkippedGrows(n, from, to, further - 1, rest);
    }
  }

  /** Numbers stay below the number of combinations. */
  lemma {:induction false} IndexBound(n: nat, low: nat, cards: seq<nat>)
    requires low <= n && Ascending(n, low, cards)
    ensures Index(n, low, cards) < Choose(n - low, |cards|)
    ensures cards != [] ==> Index(n, low, cards) < Skipped(n, low, cards[0] + 1, |cards| - 1)
    decreases cards
  {
    if cards != [] {
      IndexBound(n, cards[0] + 1, cards[1..]);
      SkippedSum(n, low, cards[0] + 1, |cards| - 1);
    }
  }

  /** The first card of the combination with a number, and what is left of the number. */
  function FirstCard(n: nat, low: nat, rest: nat, index: nat): (r: (nat, nat))
    requires low <= n && index < Choose(n - low, rest + 1)
    ensures low <= r.0 < n && index == Skipped(n, low, r.0, rest) + r.1 && r.1 < Choose(n - 1 - r.0, rest)
    decreases n - low
  {
    ChooseTooMany(0, rest + 1);
    assert low < n;
    var count := Choose(n - 1 - low, rest);
    if count > index then (low, index)
    else
      var r := FirstCard(n, low + 1, rest, index - count);
      SkippedFirst(n, low, r.0, rest);
      r
  }

  /** The combination with a number. */
  function At(n: nat, low: nat, k: nat, index: nat): (cards: seq<nat>)
    requires low <= n && index < Choose(n - low, k)
    ensures |cards| == k && Ascending(n, low, cards)
    decreases k
  {
    if k == 0 then []
    else
      var r := FirstCard(n, low, k - 1, index);
      [r.0] + At(n, r.0 + 1, k - 1, r.1)
  }

  lemma AtFirst(n: nat, low: nat, k: nat, index: nat, card: nat, left: nat)
    requires 0 < k && low <= n && index < Choose(n - low, k) && FirstCard(n, low, k - 1, index) == (card, left)
    ensures At(n, low, k, index) == [card] + At(n, card + 1, k - 1, left)
  {
  }

  /** Unranking, then ranking. */
  lemma {:induction false} IndexOfAt(n: nat, low: nat, k: nat, index: nat)
    requires low <= n && index < Choose(n - low, k)
    ensures Index(n, low, At(n, low, k, index)) == index
    decreases k
  {
    if k > 0 {
      var r := FirstCard(n, low, k - 1, index);
      IndexOfAt(n, r.0 + 1, k - 1, r.1);
      assert At(n, low, k, index)[1..] == At(n, r.0 + 1, k - 1, r.1);
    }
  }

  lemma {:induction false} FirstOfSkipped(n: nat, low: nat, card: nat, rest: nat, left: nat)
    requires low <= card < n && left < Choose(n - 1 - card, rest)
    ensures Skipped(n, low, card, rest) + left < Choose(n - low, rest + 1)
    ensures FirstCard(n, low, rest, Skipped(n, low, card, rest) + left) == (card, left)
    decreases card - low
  {
    hide Choose;
    SkippedSum(n, low, card + 1, rest);
    if low < card {
      SkippedFirst(n, low, card, rest);
      FirstOfSkipped(n, low + 1, card, rest, left);
    }
  }

  /** Ranking, then unranking. */
  lemma {:induction false} AtOfIndex(n: nat, low: nat, cards: seq<nat>)
    requires low <= n && Ascending(n, low, cards)
    ensures Index(n, low, cards) < Choose(n - low, |cards|)
    ensures At(n, low, |cards|, Index(n, low, cards)) == cards
    decreases cards
  {
    hide Choose, FirstCard, At, Skipped;
    IndexBound(n, low, cards);
    if cards != [] {
      var rest := Index(n, cards[0] + 1, cards[1..]);
      IndexBound(n, cards[0] + 1, cards[1..]);
      AtOfIndex(n, cards[0] + 1, cards[1..]);
      FirstOfSkipped(n, low, cards[0], |cards| - 1, rest);
      AtFirst(n, low, |cards|, Index(n, low, cards), cards[0], rest);
      assert cards == [cards[0]] + cards[1..];
    }
  }

  predicate Before(a: seq<nat>, b: seq<nat>)
    requires |a| == |b|
  {
    a != [] && (a[0] < b[0] || (a[0] == b[0] && Before(a[1..], b[1..])))
  }

  /** Numbers follow the lexicographic order. */
  lemma {:induction false} OrderKept(n: nat, low: nat, a: seq<nat>, b: seq<nat>)
    requires low <= n && Ascending(n, low, a) && Ascending(n, low, b) && |a| == |b|
    ensures Before(a, b) <==> Index(n, low, a) < Index(n, low, b)
    decreases a
  {
    if a != [] {
      IndexBound(n, low, a);
      IndexBound(n, low, b);
      if a[0] < b[0] {
        SkippedGrows(n, low, a[0] + 1, b[0], |a| - 1);
      } else if b[0] < a[0] {
        SkippedGrows(n, low, b[0] + 1, a[0], |a| - 1);
      } else {
        OrderKept(n, a[0] + 1, a[1..], b[1..]);
      }
    }
  }

  // ---------- Sorting ----------

  function Insert(card: nat, s: seq<nat>): (t: seq<nat>)
    ensures |t| == |s| + 1
  {
    if s == [] || card <= s[0] then [card] + s else [s[0]] + Insert(card, s[1..])
  }

  function Sorted(cards: seq<nat>): (s: seq<nat>)
    ensures |s| == |cards|
  {
    if cards == [] then [] else Insert(cards[0], Sorted(cards[1..]))
  }

  lemma {:induction false} InsertHolds(card: nat, s: seq<nat>, x: nat)
    ensures x in Insert(card, s) <==> x == card || x in s
  {
    if s != [] && card > s[0] {
      InsertHolds(card, s[1..], x);
      assert s == [s[0]] + s[1..];
    }
  }

  lemma {:induction false} SortedHolds(cards: seq<nat>, x: nat)
    ensures x in Sorted(cards) <==> x in cards
  {
    if cards != [] {
      SortedHolds(cards[1..], x);
      InsertHolds(cards[0], Sorted(cards[1..]), x);
      assert cards == [cards[0]] + cards[1..];
    }
  }

  lemma {:induction false} InsertAscends(n: nat, low: nat, card: nat, s: seq<nat>)
    requires Ascending(n, low, s) && low <= card < n && card !in s
    ensures Ascending(n, low, Insert(card, s))
    decreases s
  {
    if s != [] && card > s[0] {
      assert s == [s[0]] + s[1..];
      InsertAscends(n, s[0] + 1, card, s[1..]);
      assert Insert(card, s)[1..] == Insert(card, s[1..]);
    } else if s != [] {
      assert ([card] + s)[1..] == s;
    } else {
      assert ([card] + s)[1..] == [];
    }
  }

  predicate Distinct(n: nat, cards: seq<nat>) {
    && (forall i | 0 <= i < |cards| :: cards[i] < n)
    && (forall i, j | 0 <= i < j < |cards| :: cards[i] != cards[j])
  }

  lemma {:induction false} SortedAscends(n: nat, cards: seq<nat>)
    requires Distinct(n, cards)
    ensures Ascending(n, 0, Sorted(cards))
  {
    if cards != [] {
      SortedAscends(n, cards[1..]);
      SortedHolds(cards[1..], cards[0]);
      InsertAscends(n, 0, cards[0], Sorted(cards[1..]));
    }
  }

  lemma {:induction false} AllFrom(n: nat, low: nat, cards: seq<nat>, x: nat)
    requires Ascending(n, low, cards) && x in cards
    ensures low <= x < n
    decreases cards
  {
    if x != cards[0] {
      assert cards == [cards[0]] + cards[1..];
      AllFrom(n, cards[0] + 1, cards[1..], x);
    }
  }

  /** Two ascending sequences with the same cards are the same sequence. */
  lemma {:induction false} AscendingUnique(n: nat, low: nat, a: seq<nat>, b: seq<nat>)
    requires Ascending(n, low, a) && Ascending(n, low, b) && forall x :: x in a <==> x in b
    ensures a == b
    decreases a
  {
    SomeCard(a);
    SomeCard(b);
    if a != [] && b != [] {
      assert a == [a[0]] + a[1..] && b == [b[0]] + b[1..];
      SameFirst(n, low, a, b);
      forall x ensures x in a[1..] <==> x in b[1..] {
        NotFirst(n, low, a, x);
        NotFirst(n, low, b, x);
      }
      AscendingUnique(n, a[0] + 1, a[1..], b[1..]);
    }
  }

  lemma SomeCard(a: seq<nat>)
    ensures a != [] ==> exists x :: x in a
  {
    if a != [] {
      assert a[0] in a;
    }
  }

  lemma SameFirst(n: nat, low: nat, a: seq<nat>, b: seq<nat>)
    requires Ascending(n, low, a) && Ascending(n, low, b) && a != [] && b != [] && forall x :: x in a <==> x in b
    ensures a[0] == b[0]
  {
    assert a[0] in b && b[0] in a;
    AllFrom(n, a[0], a, b[0]);
    AllFrom(n, b[0], b, a[0]);
  }

  lemma NotFirst(n: nat, low: nat, a: seq<nat>, x: nat)
    requires Ascending(n, low, a) && a != []
    ensures x in a[1..] <==> x in a && x != a[0]
  {
    assert a == [a[0]] + a[1..];
    if x in a[1..] {
      AllFrom(n, a[0] + 1, a[1..], x);
    }
  }

  // ---------- The loops ----------

  /** The number of a hand, whatever the order it is given in. */
  method CombinationIndex(n: nat, cards: seq<nat>) returns (index: nat)
    requires Distinct(n, cards)
    ensures Ascending(n, 0, Sorted(cards)) && index == Index(n, 0, Sorted(cards))
  {
    var sorted := Sorted(cards);
    SortedAscends(n, cards);
    index := 0;
    var previous: nat := 0;
    for i := 0 to |sorted|
      invariant previous <= n && Ascending(n, previous, sorted[i..])
      invariant index + Index(n, previous, sorted[i..]) == Index(n, 0, sorted)
    {
      var c := sorted[i];
      assert sorted[i..][0] == c && sorted[i..][1..] == sorted[i + 1..];
      ghost var before := index;
      for v := previous to c
        invariant index == before + Skipped(n, previous, v, |sorted| - i - 1)
      {
        var count := ComputeChoose(n - 1 - v, |sorted| - i - 1);
        index := index + count;
      }
      previous := c + 1;
    }
  }

  /** Passes over whole blocks of combinations until the number falls inside one. */
  method ComputeFirst(n: nat, low: nat, rest: nat, number: nat) returns (v: nat, index: nat)
    requires low <= n && number < Choose(n - low, rest + 1)
    ensures (v, index) == FirstCard(n, low, rest, number)
  {
    v, index := low, number;
    ghost var first := FirstCard(n, low, rest, number);
    while true
      invariant low <= v <= n && index < Choose(n - v, rest + 1) && FirstCard(n, v, rest, index) == first
      decreases n - v
    {
      ChooseTooMany(0, rest + 1);
      var count := ComputeChoose(n - 1 - v, rest);
      if count > index {
        break;
      }
      index := index - count;
      v := v + 1;
    }
  }

  /** The hand with a number. */
  method CombinationAt(n: nat, k: nat, number: nat) returns (cards: seq<nat>)
    requires number < Choose(n, k)
    ensures cards == At(n, 0, k, number)
  {
    hide Choose, FirstCard, At;
    cards := [];
    var index: nat, previous: nat := number, 0;
    assert [] + At(n, 0, k, number) == At(n, 0, k, number);
    for i := 0 to k
      invariant previous <= n && index < Choose(n - previous, k - i)
      invariant cards + At(n, previous, k - i, index) == At(n, 0, k, number)
    {
      var v, left := ComputeFirst(n, previous, k - i - 1, index);
      AtFirst(n, previous, k - i, index, v, left);
      assert cards + ([v] + At(n, v + 1, k - i - 1, left)) == (cards + [v]) + At(n, v + 1, k - i - 1, left);
      cards, index, previous := cards + [v], left, v + 1;
    }
    assert cards + At(n, previous, 0, index) == cards;
  }
}
