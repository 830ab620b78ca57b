/** Verified shares that are false: a hand in which decoding refuses one, and one in which it does not notice. */
module FalseShares {
  import opened Bytes
  import opened Hand
  import opened Groups
  import opened KnownCards
  import Deal
  import opened Options

  // ---------- A prime order ----------

  /** Fifty-three has no divisor but one and itself. */
  lemma NoDivisor(r: nat, k: nat)
    requires 1 < r < 53
    ensures r * k != 53
  {
    if r < 8 {
      assert r == 2 || r == 3 || r == 4 || r == 5 || r == 6 || r == 7;
    } else if k < 8 {
      assert k == 0 || k == 1 || k == 2 || k == 3 || k == 4 || k == 5 || k == 6 || k == 7;
    } else {
      EightsAtLeast(r, k);
    }
  }

  lemma EightsAtLeast(r: nat, k: nat)
    requires r >= 8 && k >= 8
    ensures r * k >= 64
  {
  }

  /** Euclid's descent: nothing below the order cancels. */
  lemma {:induction false} NothingCancels(r: nat, b: int)
    requires 0 < r < 53 && IsZero(53, r * b)
    ensures IsZero(53, b)
    decreases r
  {
    if r > 1 {
      var k, s := 53 / r, 53 % r;
      assert 53 == r * k + s;
      NoDivisor(r, k);
      var m := Quotient(53, 0, r * b);
      DescentAlgebra(r, k, s, b, m);
      MultipleIsZero(53, b - k * m);
      NothingCancels(s, b);
    }
  }

  lemma DescentAlgebra(r: nat, k: nat, s: nat, b: int, m: int)
    requires r * k + s == 53 && r * b == 53 * m
    ensures s * b == 53 * (b - k * m)
  {
    assert (r * k + s) * b == k * (r * b) + s * b;
    assert k * (53 * m) == 53 * (k * m);
  }

  lemma FiftyThreeIsPrime()
    ensures PrimeOrder(53)
  {
    forall a: int, b: int {:trigger a * b} | (a * b) % 53 == 0
      ensures a % 53 == 0 || b % 53 == 0
    {
      if a % 53 != 0 {
        Residue(53, 0, a % 53);
        SameMultiples(53, a, a % 53, b);
        NothingCancels(a % 53, b);
      }
    }
  }

  // ---------- A hand ----------

  /** Nine cards under two players' keys of one, where a hash that is always one makes every share verify that reads as
      its first byte. */
  function Example(): (t: Sealed) {
    Sealed(53, (h, domain, n) => 1, 1, 1, seq(CARDS, i => Card(1, i + 3)), slot => [],
           share => FirstOf(share), proof => Deal.RevealProof(2, 1 + FirstOf(proof), 1))
  }

  function FirstOf(b: bytes): (n: int) { if b == [] then 0 else b[0] as int }

  /** Both of the first card's shares, as the two bytes say. */
  function Published(one: byte, two: byte): (published: seq<CardReveal>)
    ensures |published| == SLOTS
  {
    seq(SLOTS, slot => if slot == 0 then Share([one], [one]) else if slot == 14 then Share([two], [two]) else Absent)
  }

  lemma ExampleIsProper()
    ensures Proper(Example(), seq(CARDS, i => i))
  {
    FiftyThreeIsPrime();
  }

  lemma EveryShareVerifies(one: byte, two: byte)
    requires 0 < one as int < 53 && 0 < two as int < 53
    ensures AllProven(Example(), Published(one, two))
  {
  }

  lemma OnlyTheFirstIsKnown(one: byte, two: byte)
    ensures Both(Published(one, two), 0)
    ensures forall i: nat | 0 < i < CARDS :: !Both(Published(one, two), i)
    ensures Deal.Total(Tokens(Example(), Published(one, two), 0)) == one + two
  {
    var s := Tokens(Example(), Published(one, two), 0);
    assert s == [one as int, two as int];
    var first: seq<Point> := [one as int];
    assert s[..1] == first && first[..0] == [];
    assert Deal.Total(first) == one;
  }

  /** A share of two where one is true: all shares are verified, and decoding refuses. */
  method VerifiedShareIsRefused() returns (cards: Option<seq<Option<nat>>>)
    ensures AllProven(Example(), Published(1, 2)) && !IsTrue(Example(), 14, [2]) && cards == None
  {
    hide Deal.Total, AllProven, Proper;
    ExampleIsProper();
    EveryShareVerifies(1, 2);
    OnlyTheFirstIsKnown(1, 2);
    DecodesWhereTheyLand(Example(), seq(CARDS, i => i), Published(1, 2));
    assert Landing(Example(), seq(CARDS, i => i), Published(1, 2), 0) == 52;
    cards := DecodedCards(Example(), Published(1, 2));
  }

  /** A share of three goes unnoticed: the first card, which is card 0, decodes to card 51. */
  method FalseShareIsNotNoticed() returns (cards: Option<seq<Option<nat>>>)
    ensures AllProven(Example(), Published(1, 3)) && !IsTrue(Example(), 14, [3])
    ensures cards.Some? && |cards.value| == CARDS && cards.value[0] == Some(51)
  {
    hide Deal.Total, AllProven, Proper;
    ExampleIsProper();
    EveryShareVerifies(1, 3);
    OnlyTheFirstIsKnown(1, 3);
    DecodesWhereTheyLand(Example(), seq(CARDS, i => i), Published(1, 3));
    assert LandsOn(Example(), seq(CARDS, i => i), Published(1, 3), 0, 51);
    cards := DecodedCards(Example(), Published(1, 3));
  }
}
