/** Cards decoded from both players' shares: what the last step of the opponent's check decodes, exactly when it
    refuses, and why it never does on a properly shuffled deck whose published shares are the true ones. */
module KnownCards {
  import opened Bytes
  import opened Hand
  import opened Rules
  import opened Runs
  import opened Admission
  import opened Groups
  import opened BayerGroth
  import Combinations
  import Bits
  import Deal
  import GameRuns
  import Merkle
  import Ranking
  import Reducer
  import Refinement
  import opened Options

  const CARDS: nat := 9
  const DECK: nat := 52

  /** A hand's encrypted cards and the players' keys, with the reading of a share's and a proof's bytes and what each
      slot's proof is bound to. A key is the secret its generator is multiplied by. */
  datatype Sealed = Sealed(
    q: nat, hash: Oracle, key1: Point, key2: Point, deal: Deck, binding: nat -> bytes, point: bytes -> Point,
    proof: bytes -> Deal.RevealProof)

  predicate Sane(t: Sealed) { t.q > DECK && |t.deal| == CARDS }

  function Key(t: Sealed, p: Player): (k: Point) { if p == Player1 then t.key1 else t.key2 }

  /** A share and its proof verify against the slot's card and its publisher's key. */
  predicate Proves(t: Sealed, slot: nat, share: bytes, proof: bytes)
    requires Sane(t) && slot < SLOTS
  {
    var c1, key, token, p := t.deal[SlotCard(slot)].c1, Key(t, SlotPublisher(slot)), t.point(share), t.proof(proof);
    Deal.RevealHolds(t.q, key, c1, token, p,
                     Deal.RevealChallenge(t.q, t.hash, key, token, c1, p.tg, p.tc1, t.binding(slot)))
  }

  function Check(t: Sealed): (valid: ShareCheck)
    requires Sane(t)
  {
    (slot: nat, share: bytes, proof: bytes) => slot < SLOTS && Proves(t, slot, share, proof)
  }

  /** The two slots whose shares open a card. */
  function Pair(card: nat): (s: (nat, nat))
    requires card < CARDS
    ensures s.0 < SLOTS && s.1 < SLOTS
  {
    [(0, 14), (1, 15), (2, 16), (3, 17), (4, 7), (5, 8), (6, 9), (10, 11), (12, 13)][card]
  }

  /** A card's two slots are exactly the slots that hold its shares, one from each player. */
  lemma PairsAreTheCardsSlots(card: nat, slot: nat)
    requires card < CARDS && slot < SLOTS
    ensures SlotCard(slot) == card <==> slot == Pair(card).0 || slot == Pair(card).1
    ensures SlotPublisher(Pair(card).0) == Other(SlotPublisher(Pair(card).1))
  {
  }

  predicate Both(published: seq<CardReveal>, card: nat)
    requires |published| == SLOTS && card < CARDS
  {
    published[Pair(card).0].Share? && published[Pair(card).1].Share?
  }

  predicate Proven(t: Sealed, published: seq<CardReveal>, slot: nat)
    requires Sane(t) && |published| == SLOTS && slot < SLOTS
  {
    published[slot].Share? && Proves(t, slot, published[slot].share, published[slot].proof)
  }

  /** A card's two shares, in the order they are added up. */
  function Tokens(t: Sealed, published: seq<CardReveal>, card: nat): (s: seq<Point>)
    requires |published| == SLOTS && card < CARDS && Both(published, card)
  {
    [t.point(published[Pair(card).0].share), t.point(published[Pair(card).1].share)]
  }

  /** Both shares verify, and together they decrypt the card to `c`. */
  predicate Opens(t: Sealed, published: seq<CardReveal>, card: nat, c: nat)
    requires Sane(t) && |published| == SLOTS && card < CARDS
  {
    && Both(published, card) && c < DECK
    && Proven(t, published, Pair(card).0) && Proven(t, published, Pair(card).1)
    && !IsZero(t.q, Deal.Total(Tokens(t, published, card)))
    && Deal.IsCard(t.q, t.deal[card].c2 - Deal.Total(Tokens(t, published, card)), c)
  }

  /** Every card with both shares decrypts, and no two to the same. */
  ghost predicate Decodable(t: Sealed, published: seq<CardReveal>)
    requires Sane(t) && |published| == SLOTS
  {
    && (forall i: nat | i < CARDS && Both(published, i) :: exists c: nat :: Opens(t, published, i, c))
    && forall i: nat, j: nat, c: nat | i < j < CARDS && Opens(t, published, i, c) :: !Opens(t, published, j, c)
  }

  // ---------- Decoding ----------

  /** Decrypts one card from both of its shares. */
  method OpenCard(t: Sealed, published: seq<CardReveal>, i: nat) returns (r: Option<nat>)
    requires Sane(t) && |published| == SLOTS && i < CARDS && Both(published, i)
    ensures r.Some? ==> Opens(t, published, i, r.value)
    ensures forall c: nat | Opens(t, published, i, c) :: r == Some(c)
  {
    hide Deal.RevealChallenge, Deal.Total, Deal.IsCard, SlotCard, SlotPublisher;
    var a, b := Pair(i).0, Pair(i).1;
    PairsAreTheCardsSlots(i, a);
    PairsAreTheCardsSlots(i, b);
    if !Proven(t, published, a) || !Proven(t, published, b) {
      return None;
    }
    var sum := Deal.AggregateReveals(t.q, Tokens(t, published, i));
    if sum.None? {
      return None;
    }
    r := Deal.RevealCard(t.q, DECK, t.deal[i], sum.value);
  }

  /** Decodes every card whose two shares are known. Refuses exactly when one does not decode or two are the same. */
  method DecodedCards(t: Sealed, published: seq<CardReveal>) returns (cards: Option<seq<Option<nat>>>)
    requires Sane(t) && |published| == SLOTS
    ensures cards.Some? <==> Decodable(t, published)
    ensures cards.Some? ==>
      |cards.value| == CARDS
        && forall i: nat, c: nat | i < CARDS :: cards.value[i] == Some(c) <==> Opens(t, published, i, c)
  {
    hide Opens, Pair;
    var out: seq<Option<nat>> := seq(CARDS, i => None);
    var seen := new bool[DECK](_ => false);
    for i := 0 to CARDS
      invariant |out| == CARDS
      invariant forall k: nat, c: nat | k < i :: out[k] == Some(c) <==> Opens(t, published, k, c)
      invariant forall k: nat | k < i && Both(published, k) :: out[k].Some?
      invariant forall k: nat, c: nat | k < i && out[k] == Some(c) :: c < DECK && seen[c]
      invariant forall c: nat | c < DECK && seen[c] :: exists k: nat :: k < i && out[k] == Some(c)
      invariant forall j: nat, k: nat | j < k < i && out[j].Some? :: out[j] != out[k]
      invariant forall k | i <= k < CARDS :: out[k] == None
    {
      if Both(published, i) {
        var card := OpenCard(t, published, i);
        if card.None? {
          return None;
        }
        OpensInDeck(t, published, i, card.value);
        if seen[card.value] {
          return None;
        }
        seen[card.value] := true;
        out := out[i := Some(card.value)];
      } else {
        ClosedOpensNothing(t, published, i);
      }
    }
    return Some(out);
  }

  lemma OpensInDeck(t: Sealed, published: seq<CardReveal>, i: nat, c: nat)
    requires Sane(t) && |published| == SLOTS && i < CARDS && Opens(t, published, i, c)
    ensures c < DECK
  {
  }

  lemma ClosedOpensNothing(t: Sealed, published: seq<CardReveal>, i: nat)
    requires Sane(t) && |published| == SLOTS && i < CARDS && !Both(published, i)
    ensures forall c: nat :: !Opens(t, published, i, c)
  {
  }

  // ---------- When it can refuse ----------

  /** The share is the card's mask raised to its publisher's secret. */
  predicate IsTrue(t: Sealed, slot: nat, share: bytes)
    requires Sane(t) && slot < SLOTS
  {
    Same(t.q, t.point(share), t.deal[SlotCard(slot)].c1 * Key(t, SlotPublisher(slot)))
  }

  predicate AllProven(t: Sealed, published: seq<CardReveal>)
    requires Sane(t) && |published| == SLOTS
  {
    forall i: nat | i < SLOTS && published[i].Share? :: Proven(t, published, i)
  }

  predicate AllTrue(t: Sealed, published: seq<CardReveal>)
    requires Sane(t) && |published| == SLOTS
  {
    forall i: nat | i < SLOTS && published[i].Share? :: IsTrue(t, i, published[i].share)
  }

  /** The encrypted cards open, under both secrets, to different cards, and each keeps a mask. */
  ghost predicate Proper(t: Sealed, cards: seq<nat>) {
    && Sane(t) && PrimeOrder(t.q)
    && !IsZero(t.q, t.key1) && !IsZero(t.q, t.key2) && !IsZero(t.q, t.key1 + t.key2)
    && (forall i | 0 <= i < CARDS :: !IsZero(t.q, t.deal[i].c1))
    && Deal.Opens(t.q, t.key1 + t.key2, t.deal, cards) && Combinations.Distinct(DECK, cards)
  }

  lemma ProperIsSane(t: Sealed, cards: seq<nat>)
    requires Proper(t, cards)
    ensures Sane(t) && |cards| == CARDS
  {
  }

  /** The first nine cards of a deck that both players shuffled. */
  lemma TwoShufflesAreProper(t: Sealed, initial: Deck, first: Deck, second: Deck, p1: seq<nat>, rho1: seq<Scalar>,
                             p2: seq<nat>, rho2: seq<Scalar>)
    requires Sane(t) && PrimeOrder(t.q)
    requires !IsZero(t.q, t.key1) && !IsZero(t.q, t.key2) && !IsZero(t.q, t.key1 + t.key2)
    requires |initial| == DECK && forall i | 0 <= i < DECK :: initial[i] == Card(0, i + 1)
    requires Shuffled(t.key1 + t.key2, initial, first, p1, rho1)
    requires Shuffled(t.key1 + t.key2, first, second, p2, rho2)
    requires t.deal == second[..CARDS] && forall i | 0 <= i < CARDS :: !IsZero(t.q, second[i].c1)
    ensures Proper(t, Deal.PickedCards(p1, p2)[..CARDS])
  {
    Deal.TwoShufflesDeal(t.q, t.key1 + t.key2, initial, first, second, p1, rho1, p2, rho2);
  }

  /** A verified share that is not the true one carries a proof that answers no other challenge. */
  lemma FalseShareAnswersOnce(t: Sealed, slot: nat, share: bytes, proof: bytes, z: Scalar, e: Scalar)
    requires Sane(t) && PrimeOrder(t.q) && slot < SLOTS && Proves(t, slot, share, proof) && !IsTrue(t, slot, share)
    requires var c1, key, token, p := t.deal[SlotCard(slot)].c1, Key(t, SlotPublisher(slot)), t.point(share),
      t.proof(proof);
      Deal.RevealHolds(t.q, key, c1, token, Deal.RevealProof(p.tg, p.tc1, z), e)
    ensures var c1, key, token, p := t.deal[SlotCard(slot)].c1, Key(t, SlotPublisher(slot)), t.point(share),
      t.proof(proof);
      Same(t.q, e, Deal.RevealChallenge(t.q, t.hash, key, token, c1, p.tg, p.tc1, t.binding(slot)))
  {
    hide Deal.RevealChallenge, Deal.RevealHolds, SlotCard, SlotPublisher, Same, PrimeOrder;
    var c1, key, token, p := t.deal[SlotCard(slot)].c1, Key(t, SlotPublisher(slot)), t.point(share), t.proof(proof);
    var e' := Deal.RevealChallenge(t.q, t.hash, key, token, c1, p.tg, p.tc1, t.binding(slot));
    if !Same(t.q, e, e') {
      assert p == Deal.RevealProof(p.tg, p.tc1, p.z);
      Deal.RevealBinds(t.q, key, c1, token, p.tg, p.tc1, z, e, p.z, e');
    }
  }

  /** By how much a card's two shares together miss the true sum. */
  function Miss(t: Sealed, published: seq<CardReveal>, i: nat): (m: Point)
    requires Sane(t) && |published| == SLOTS && i < CARDS && Both(published, i)
  {
    Deal.Total(Tokens(t, published, i)) - t.deal[i].c1 * (t.key1 + t.key2)
  }

  /** Where the miss moves the card: a number below the group order, which need not be a card. */
  function Landing(t: Sealed, cards: seq<nat>, published: seq<CardReveal>, i: nat): (c: nat)
    requires Sane(t) && |cards| == CARDS && |published| == SLOTS && i < CARDS && Both(published, i)
  {
    (cards[i] - Miss(t, published, i)) % t.q
  }

  /** The shares do not cancel out, and move the card onto a card. */
  predicate LandsOnACard(t: Sealed, cards: seq<nat>, published: seq<CardReveal>, i: nat)
    requires Sane(t) && |cards| == CARDS && |published| == SLOTS && i < CARDS && Both(published, i)
  {
    !IsZero(t.q, Deal.Total(Tokens(t, published, i))) && Landing(t, cards, published, i) < DECK
  }

  /** Both shares of the card are known, and they move it onto the card `c`. */
  predicate LandsOn(t: Sealed, cards: seq<nat>, published: seq<CardReveal>, i: nat, c: nat)
    requires Sane(t) && |cards| == CARDS && |published| == SLOTS && i < CARDS
  {
    Both(published, i) && LandsOnACard(t, cards, published, i) && c == Landing(t, cards, published, i)
  }

  /** Whatever the shares miss moves every known card onto a card of its own. */
  predicate LandApart(t: Sealed, cards: seq<nat>, published: seq<CardReveal>)
    requires Sane(t) && |cards| == CARDS && |published| == SLOTS
  {
    && (forall i: nat | i < CARDS && Both(published, i) :: LandsOnACard(t, cards, published, i))
    && forall i: nat, j: nat | i < j < CARDS && Both(published, i) && Both(published, j) ::
         Landing(t, cards, published, i) != Landing(t, cards, published, j)
  }

  /** Verified shares of a properly shuffled card decrypt it to where they move it. */
  lemma OpensWhereItLands(t: Sealed, cards: seq<nat>, published: seq<CardReveal>, i: nat)
    requires Proper(t, cards) && |published| == SLOTS && AllProven(t, published) && i < CARDS
    ensures forall c: nat :: Opens(t, published, i, c) <==> LandsOn(t, cards, published, i, c)
  {
    hide Proven, Pair, Same, Proper, PrimeOrder, Deal.Total, AllProven, Both, Deal.IsCard, IsZero;
    if Both(published, i) {
      ProperAt(t, cards, i);
      BothProven(t, published, i);
      var q, mask, sum := t.q, t.deal[i].c1 * (t.key1 + t.key2), Deal.Total(Tokens(t, published, i));
      forall c: nat
        ensures Opens(t, published, i, c) <==> LandsOn(t, cards, published, i, c)
      {
        if c < DECK {
          Moved(q, t.deal[i].c2, mask, sum, cards[i], c);
        }
      }
    }
  }

  /** A sum that misses by some amount leaves the card less that amount. */
  lemma Moved(q: nat, c2: Point, mask: Point, sum: Point, card: nat, c: nat)
    requires q > DECK && c < DECK && Same(q, c2 - mask, card + 1)
    ensures Deal.IsCard(q, c2 - sum, c) <==> c == (card - (sum - mask)) % q
  {
    hide Same;
    var m := sum - mask;
    Reflexive(q, m);
    Reflexive(q, 1);
    SameSums(q, c2 - mask, card + 1, m, m);
    assert c2 - mask - m == c2 - sum;
    if Same(q, c2 - sum, c + 1) {
      SameTwice(q, c2 - sum, card + 1 - m, c + 1);
      SameSums(q, card + 1 - m, c + 1, 1, 1);
      IsResidue(q, card - m, c);
    }
    if c == (card - m) % q {
      IsResidue(q, card - m, c);
      SameSums(q, card - m, c, 1, 1);
      Transitive(q, c2 - sum, card - m + 1, c + 1);
    }
  }

  lemma IsResidue(q: nat, a: int, c: nat)
    requires c < q
    ensures Same(q, a, c) <==> c == a % q
  {
    Residue(q, 0, c);
  }

  lemma BothProven(t: Sealed, published: seq<CardReveal>, i: nat)
    requires Sane(t) && |published| == SLOTS && AllProven(t, published) && i < CARDS && Both(published, i)
    ensures Proven(t, published, Pair(i).0) && Proven(t, published, Pair(i).1)
  {
    hide Proves;
  }

  lemma ProperAt(t: Sealed, cards: seq<nat>, i: nat)
    requires Proper(t, cards) && i < CARDS
    ensures Sane(t) && PrimeOrder(t.q) && |cards| == CARDS && cards[i] < DECK
    ensures !IsZero(t.q, t.deal[i].c1) && !IsZero(t.q, t.key1 + t.key2)
    ensures Same(t.q, t.deal[i].c2 - t.deal[i].c1 * (t.key1 + t.key2), cards[i] + 1)
  {
    hide PrimeOrder;
    assert t.deal[i].c1 * (t.key1 + t.key2) == (t.key1 + t.key2) * t.deal[i].c1;
  }

  lemma NonzeroProduct(q: nat, a: int, b: int)
    requires PrimeOrder(q) && !IsZero(q, a) && !IsZero(q, b)
    ensures !IsZero(q, a * b)
  {
  }

  lemma SumIsTrue(t: Sealed, published: seq<CardReveal>, i: nat)
    requires Sane(t) && |published| == SLOTS && AllTrue(t, published) && i < CARDS && Both(published, i)
    ensures Same(t.q, Deal.Total(Tokens(t, published, i)), t.deal[i].c1 * (t.key1 + t.key2))
  {
    hide SlotCard, SlotPublisher, Pair;
    var a, b := Pair(i).0, Pair(i).1;
    PairsAreTheCardsSlots(i, a);
    PairsAreTheCardsSlots(i, b);
    var c1 := t.deal[i].c1;
    var s := Tokens(t, published, i);
    assert s[..1] == [s[0]] && [s[0]][..0] == [] && Deal.Total([s[0]]) == s[0];
    assert Deal.Total(s) == s[0] + s[1];
    assert IsTrue(t, a, published[a].share) && IsTrue(t, b, published[b].share);
    SameSums(t.q, s[0], c1 * Key(t, SlotPublisher(a)), s[1], c1 * Key(t, SlotPublisher(b)));
    assert c1 * t.key1 + c1 * t.key2 == c1 * (t.key1 + t.key2);
  }

  /** On a properly shuffled deck verified shares decode if and only if whatever they miss moves every known card onto a
      card of its own; and then those are the cards decoded. */
  lemma DecodesWhereTheyLand(t: Sealed, cards: seq<nat>, published: seq<CardReveal>)
    requires Proper(t, cards) && |published| == SLOTS && AllProven(t, published)
    ensures Decodable(t, published) <==> LandApart(t, cards, published)
    ensures forall i: nat, c: nat | i < CARDS :: Opens(t, published, i, c) <==> LandsOn(t, cards, published, i, c)
  {
    hide Opens, Proper, AllProven, Both, Landing, LandsOnACard;
    ProperIsSane(t, cards);
    forall i: nat, c: nat | i < CARDS
      ensures Opens(t, published, i, c) <==> LandsOn(t, cards, published, i, c)
    {
      OpensWhereItLands(t, cards, published, i);
    }
    forall i: nat | i < CARDS && Both(published, i)
      ensures LandsOnACard(t, cards, published, i) <==> exists c: nat :: Opens(t, published, i, c)
    {
      if LandsOnACard(t, cards, published, i) {
        assert LandsOn(t, cards, published, i, Landing(t, cards, published, i));
      }
    }
    if Decodable(t, published) {
      forall i: nat, j: nat | i < j < CARDS && Both(published, i) && Both(published, j)
        ensures Landing(t, cards, published, i) != Landing(t, cards, published, j)
      {
        assert Opens(t, published, i, Landing(t, cards, published, i));
        assert Opens(t, published, j, Landing(t, cards, published, j));
      }
    }
  }

  /** True shares move nothing. */
  lemma TrueSharesLand(t: Sealed, cards: seq<nat>, published: seq<CardReveal>)
    requires Proper(t, cards) && |published| == SLOTS && AllTrue(t, published)
    ensures LandApart(t, cards, published)
    ensures forall i: nat | i < CARDS && Both(published, i) :: Landing(t, cards, published, i) == cards[i]
  {
    hide AllTrue, Both, Landing, LandsOnACard, PrimeOrder, Deal.Opens;
    ProperIsSane(t, cards);
    forall i: nat | i < CARDS && Both(published, i)
      ensures LandsOnACard(t, cards, published, i) && Landing(t, cards, published, i) == cards[i]
    {
      TrueShareLands(t, cards, published, i);
    }
  }

  lemma TrueShareLands(t: Sealed, cards: seq<nat>, published: seq<CardReveal>, i: nat)
    requires Proper(t, cards) && |published| == SLOTS && AllTrue(t, published) && i < CARDS && Both(published, i)
    ensures LandsOnACard(t, cards, published, i) && Landing(t, cards, published, i) == cards[i]
  {
    hide Proper, Pair, Same, PrimeOrder, Deal.Total, AllTrue, Both, IsZero;
    ProperAt(t, cards, i);
    SumIsTrue(t, published, i);
    NonzeroProduct(t.q, t.deal[i].c1, t.key1 + t.key2);
    Unmoved(t.q, Deal.Total(Tokens(t, published, i)), t.deal[i].c1 * (t.key1 + t.key2), cards[i]);
  }

  lemma Unmoved(q: nat, sum: Point, whole: Point, card: nat)
    requires q > DECK > card && Same(q, sum, whole) && !IsZero(q, whole)
    ensures !IsZero(q, sum) && (card - (sum - whole)) % q == card
  {
    Reflexive(q, whole);
    Reflexive(q, card);
    SameSums(q, sum, whole, whole, whole);
    SameSums(q, card, card, sum - whole, 0);
    IsResidue(q, card - (sum - whole), card);
  }

  /** So verified true shares always decode, each known card to its own. */
  lemma TrueSharesDecode(t: Sealed, cards: seq<nat>, published: seq<CardReveal>)
    requires Proper(t, cards) && |published| == SLOTS && AllProven(t, published) && AllTrue(t, published)
    ensures Decodable(t, published)
    ensures forall i: nat, c: nat | i < CARDS :: Opens(t, published, i, c) <==> Both(published, i) && c == cards[i]
  {
    hide Opens, Proper, AllProven, AllTrue, Both, Landing, LandsOnACard, Decodable;
    ProperIsSane(t, cards);
    DecodesWhereTheyLand(t, cards, published);
    TrueSharesLand(t, cards, published);
  }

  /** And a refusal exposes a false share: a proof that could answer only the challenge it met. */
  lemma RefusalExposesAFalseShare(t: Sealed, cards: seq<nat>, published: seq<CardReveal>) returns (slot: nat)
    requires Proper(t, cards) && |published| == SLOTS && AllProven(t, published) && !Decodable(t, published)
    ensures slot < SLOTS && Proven(t, published, slot) && !IsTrue(t, slot, published[slot].share)
  {
    hide Opens, IsTrue, Proves, Decodable;
    if AllTrue(t, published) {
      TrueSharesDecode(t, cards, published);
    }
    slot :| slot < SLOTS && published[slot].Share? && !IsTrue(t, slot, published[slot].share);
  }

  // ---------- The whole of the opponent's check ----------

  /** The first input spends the accepted covenant output, and no two inputs spend the same output. */
  predicate SourcesAdmitted(points: seq<bytes>, source: bytes, tx: LiveTx) {
    && |points| == |tx.funding.inputs| + 1 && points[0] == source
    && forall i, j | 0 <= i < j < |points| :: points[i] != points[j]
  }

  method CheckSources(points: seq<bytes>, source: bytes, tx: LiveTx) returns (ok: bool)
    ensures ok <==> SourcesAdmitted(points, source, tx)
  {
    if |points| != |tx.funding.inputs| + 1 {
      return false;
    }
    var seen: set<bytes> := {};
    for i := 0 to |points|
      invariant forall x :: x in seen <==> x in points[..i]
      invariant forall j, k | 0 <= j < k < i :: points[j] != points[k]
    {
      if points[i] in seen {
        return false;
      }
      seen := seen + {points[i]};
    }
    return points[0] == source;
  }

  function KnownOf(published: seq<CardReveal>): (known: seq<bool>)
    ensures |known| == |published|
  {
    seq(|published|, i requires 0 <= i < |published| => published[i].Share?)
  }

  /** The first `n` cards put into their slots. */
  function Place(n: nat, published: seq<CardReveal>, slots: seq<nat>, cards: seq<CardReveal>): (w: seq<CardReveal>)
    requires n <= |slots| == |cards| && forall i | 0 <= i < |slots| :: slots[i] < |published|
    ensures |w| == |published|
    decreases n
  {
    if n == 0 then published else Place(n - 1, published, slots, cards)[slots[n - 1] := cards[n - 1]]
  }

  lemma {:induction false} PlacedOrKept(n: nat, published: seq<CardReveal>, slots: seq<nat>, cards: seq<CardReveal>,
                                        k: nat)
    requires n <= |slots| == |cards| && (forall i | 0 <= i < |slots| :: slots[i] < |published|) && k < |published|
    ensures if k in slots[..n]
      then exists j :: 0 <= j < n && slots[j] == k && Place(n, published, slots, cards)[k] == cards[j]
            else Place(n, published, slots, cards)[k] == published[k]
    decreases n
  {
    if n > 0 {
      PlacedOrKept(n - 1, published, slots, cards, k);
      assert slots[..n] == slots[..n - 1] + [slots[n - 1]];
    }
  }

  /** The shares known once a spend has been admitted. */
  function Next(published: seq<CardReveal>, s: State, tx: LiveTx): (n: seq<CardReveal>)
    requires |published| == SLOTS && |tx.after.shares| == SLOTS
    ensures |n| == SLOTS
  {
    var slots := RevealSlots(s.phase);
    if |tx.proofs| == |slots| then Place(|slots|, published, slots, Refinement.AdmittedCards(slots, tx)) else published
  }

  /** The player's own private shares, where there are some, stand in for its own slots. */
  function Shown(published: seq<CardReveal>, role: Player,
                 holes: Option<(CardReveal, CardReveal)>): (n: seq<CardReveal>)
    requires |published| == SLOTS
    ensures |n| == SLOTS
  {
    if holes.None? then published
    else published[OwnSlots(role)[0] := holes.value.0][OwnSlots(role)[1] := holes.value.1]
  }

  /** Everything the opponent checks of a live spend: where its inputs come from, its successor, and that every card
      both of whose shares are now known decodes. */
  ghost predicate AdmitsWhole(
    p: Params, o: OutputPolicy, t: Sealed, before: State, held: int, published: seq<CardReveal>, role: Player,
    holes: Option<(CardReveal, CardReveal)>, points: seq<bytes>, source: bytes, tx: LiveTx)
    requires Sane(t) && WellFormed(before) && WellFormed(tx.after) && |published| == SLOTS
  {
    && SourcesAdmitted(points, source, tx)
    && Admits(p, o, before, held, KnownOf(published), tx, Check(t))
    && Decodable(t, Shown(Next(published, before, tx), role, holes))
  }

  method AdmitWhole(
    p: Params, o: OutputPolicy, t: Sealed, before: State, held: int, published: seq<CardReveal>, role: Player,
    holes: Option<(CardReveal, CardReveal)>, points: seq<bytes>, source: bytes, tx: LiveTx)
    returns (ok: bool, next: seq<CardReveal>)
    requires Sane(t) && WellFormed(before) && WellFormed(tx.after) && |published| == SLOTS
    ensures ok <==> AdmitsWhole(p, o, t, before, held, published, role, holes, points, source, tx)
    ensures ok ==> next == Next(published, before, tx)
  {
    hide Admits, Decodable, SourcesAdmitted, RevealSlots, Proves, Next, Shown;
    next := published;
    var own := CheckSources(points, source, tx);
    if !own {
      return false, next;
    }
    var admitted, known := AdmitSpend(p, o, before, held, KnownOf(published), tx, Check(t));
    if !admitted {
      return false, next;
    }
    next := Next(published, before, tx);
    var cards := DecodedCards(t, Shown(next, role, holes));
    ok := cards.Some?;
  }

  lemma NextIsKnown(published: seq<CardReveal>, s: State, tx: LiveTx)
    requires |published| == SLOTS && |tx.after.shares| == SLOTS && |tx.proofs| == |RevealSlots(s.phase)|
    ensures KnownOf(Next(published, s, tx)) == Reducer.KnownAfter(KnownOf(published), RevealSlots(s.phase))
  {
    hide RevealSlots;
    var slots := RevealSlots(s.phase);
    assert slots[..|slots|] == slots;
    forall k: nat | k < SLOTS
      ensures Next(published, s, tx)[k].Share? == (published[k].Share? || k in slots)
    {
      PlacedOrKept(|slots|, published, slots, Refinement.AdmittedCards(slots, tx), k);
    }
  }

  /** Admission keeps every known share verified. */
  lemma NextIsProven(p: Params, o: OutputPolicy, t: Sealed, s: State, held: int, published: seq<CardReveal>, tx: LiveTx)
    requires Sane(t) && WellFormed(s) && WellFormed(tx.after) && |published| == SLOTS && AllProven(t, published)
    requires Admits(p, o, s, held, KnownOf(published), tx, Check(t))
    ensures AllProven(t, Next(published, s, tx))
  {
    hide RevealSlots, Proves, EdgesBalance, LayoutAdmitted, Expected, ContributionAdmitted, Copied, Encodable;
    var slots := RevealSlots(s.phase);
    var cards := Refinement.AdmittedCards(slots, tx);
    var next := Next(published, s, tx);
    assert slots[..|slots|] == slots;
    forall k: nat | k < SLOTS && next[k].Share?
      ensures Proven(t, next, k)
    {
      PlacedOrKept(|slots|, published, slots, cards, k);
      if k in slots {
        var j :| 0 <= j < |slots| && slots[j] == k && next[k] == cards[j];
        assert ShareAdmitted(Check(t), slots[j], tx.after.shares[slots[j]], tx.proofs[|slots| - 1 - j]);
      } else {
        assert Proven(t, published, k);
      }
    }
  }

  lemma ShownIsProven(t: Sealed, published: seq<CardReveal>, next: seq<CardReveal>, role: Player,
                      holes: Option<(CardReveal, CardReveal)>)
    requires Sane(t) && |published| == SLOTS == |next| && AllProven(t, next)
      && AllProven(t, Shown(published, role, holes))
    ensures AllProven(t, Shown(next, role, holes))
  {
    hide Proves;
    var a, b := OwnSlots(role)[0], OwnSlots(role)[1];
    var shown, before := Shown(next, role, holes), Shown(published, role, holes);
    forall k: nat | k < SLOTS && shown[k].Share?
      ensures Proven(t, shown, k)
    {
      if holes.Some? && (k == a || k == b) {
        assert shown[k] == before[k] && Proven(t, before, k);
      } else {
        assert shown[k] == next[k] && Proven(t, next, k);
      }
    }
  }

  /** On a reachable state of a properly shuffled hand the opponent's whole check accepts exactly what some move of the
      builders makes from sources of its own, with shares that move every known card onto a card of its own, as true
      shares do; and what it has verified stays verified. */
  lemma WholeAdmissionRefinesBuilders(
    p: Params, o: OutputPolicy, t: Sealed, cards: seq<nat>, s: State, published: seq<CardReveal>, role: Player,
    holes: Option<(CardReveal, CardReveal)>, points: seq<bytes>, source: bytes, tx: LiveTx)
    requires ValidParams(p) && ValidPolicy(o) && Inv(p, s) && WellFormed(s) && WellFormed(tx.after)
    requires |published| == SLOTS && Refinement.Knows(KnownOf(published), s)
    requires Proper(t, cards) && AllProven(t, published) && AllProven(t, Shown(published, role, holes))
    ensures AdmitsWhole(p, o, t, s, Held(p, s), published, role, holes, points, source, tx)
      <==> SomeMoveBuilds(p, s, tx) && SharesVerify(s, tx, Check(t)) && LayoutAdmitted(o, tx)
           && SourcesAdmitted(points, source, tx) && LandApart(t, cards, Shown(Next(published, s, tx), role, holes))
    ensures AllTrue(t, Shown(Next(published, s, tx), role, holes))
      ==> LandApart(t, cards, Shown(Next(published, s, tx), role, holes))
    ensures AdmitsWhole(p, o, t, s, Held(p, s), published, role, holes, points, source, tx) ==>
      var next := Next(published, s, tx);
      AllProven(t, next) && AllProven(t, Shown(next, role, holes)) && Refinement.Knows(KnownOf(next), tx.after)
  {
    hide Admits, SomeMoveBuilds, SharesVerify, LayoutAdmitted, SourcesAdmitted, Decodable, AllProven, AllTrue, Inv,
      Held, Proper, Next, Shown, RevealSlots, Refinement.Knows, KnownOf, Reducer.KnownAfter, ValidParams, ValidPolicy,
      LandApart;
    ProperIsSane(t, cards);
    Refinement.AdmissionRefinesBuilders(p, o, s, KnownOf(published), tx, Check(t));
    if AllTrue(t, Shown(Next(published, s, tx), role, holes)) {
      TrueSharesLand(t, cards, Shown(Next(published, s, tx), role, holes));
    }
    if Admits(p, o, s, Held(p, s), KnownOf(published), tx, Check(t)) {
      AdmittedProofs(p, o, s, Held(p, s), KnownOf(published), tx, Check(t));
      NextIsProven(p, o, t, s, Held(p, s), published, tx);
      ShownIsProven(t, published, Next(published, s, tx), role, holes);
      DecodesWhereTheyLand(t, cards, Shown(Next(published, s, tx), role, holes));
      GameRuns.AdmittedShares(p, o, s, Held(p, s), KnownOf(published), tx, Check(t));
      NextIsKnown(published, s, tx);
    }
  }

  lemma AdmittedProofs(p: Params, o: OutputPolicy, s: State, held: int, known: seq<bool>, tx: LiveTx, valid: ShareCheck)
    requires WellFormed(s) && WellFormed(tx.after) && |known| == SLOTS && Admits(p, o, s, held, known, tx, valid)
    ensures |tx.proofs| == |RevealSlots(s.phase)|
  {
    hide RevealSlots, EdgesBalance, LayoutAdmitted, Expected, ContributionAdmitted;
  }

  // ---------- Judging a showdown ----------

  datatype RankClaim = RankClaim(rank: nat, proof: Merkle.Proof)

  /** A seven-card hand with its own rank, proved against the committed root. */
  predicate RankAdmitted(tree: Merkle.Tree, root: Merkle.Digest, hand: seq<nat>, r: RankClaim) {
    && Combinations.Distinct(tree.deck, hand) && r.rank == Ranking.HandRank(tree.table, hand)
    && Merkle.Verifies(tree, r.proof, Bits.Mask(hand), r.rank, root)
  }

  /** The claimed cards are the decoded ones, all nine, and both claimed ranks are the hands' own. */
  ghost predicate ClaimAdmitted(t: Sealed, published: seq<CardReveal>, tree: Merkle.Tree, root: Merkle.Digest,
                                deal: seq<nat>, one: RankClaim, two: RankClaim)
    requires Sane(t) && |published| == SLOTS && |deal| == CARDS
  {
    && Decodable(t, published) && (forall i: nat | i < CARDS :: Opens(t, published, i, deal[i]))
    && RankAdmitted(tree, root, Merkle.HandOf(deal, 0), one) && RankAdmitted(tree, root, Merkle.HandOf(deal, 2), two)
  }

  function Winner(one: nat, two: nat): (w: Option<Player>) {
    if one > two then Some(Player1) else if two > one then Some(Player2) else None
  }

  method CheckRank(tree: Merkle.Tree, root: Merkle.Digest, hand: seq<nat>, r: RankClaim) returns (ok: bool)
    requires |hand| > 2
    ensures ok <==> RankAdmitted(tree, root, hand, r)
  {
    hide Ranking.HandRank, Bits.Mask, Merkle.Verifies, Combinations.Distinct;
    var valid := Merkle.ValidateHand(tree.deck, hand);
    if !valid {
      return false;
    }
    var rank := Ranking.ComputeHandRank(tree.table, hand);
    if rank != r.rank {
      return false;
    }
    ok := Merkle.VerifyPayload(tree, r.proof, Bits.Mask(hand), r.rank, root);
  }

  /** Re-checks a claimed showdown; the winner is the one with the higher rank, if any. */
  method CheckEvaluation(t: Sealed, published: seq<CardReveal>, tree: Merkle.Tree, root: Merkle.Digest, deal: seq<nat>,
                         one: RankClaim, two: RankClaim) returns (ok: bool, winner: Option<Player>)
    requires Sane(t) && |published| == SLOTS && |deal| == CARDS
    ensures ok <==> ClaimAdmitted(t, published, tree, root, deal, one, two)
    ensures ok ==> winner == Winner(one.rank, two.rank)
  {
    hide Opens, Decodable, RankAdmitted, Merkle.HandOf;
    winner := None;
    var cards := DecodedCards(t, published);
    if cards.None? {
      return false, winner;
    }
    for i := 0 to CARDS
      invariant forall k: nat | k < i :: Opens(t, published, k, deal[k])
    {
      if cards.value[i] != Some(deal[i]) {
        return false, winner;
      }
    }
    ok := CheckRank(tree, root, Merkle.HandOf(deal, 0), one);
    if ok {
      ok := CheckRank(tree, root, Merkle.HandOf(deal, 2), two);
    }
    winner := Winner(one.rank, two.rank);
  }

  /** All nine cards decode to this deal, and the cache commits to both hands. */
  ghost predicate Evaluates(t: Sealed, published: seq<CardReveal>, tree: Merkle.Tree, cache: seq<Merkle.Digest>,
                            root: Merkle.Digest, deal: seq<nat>)
    requires Sane(t) && |published| == SLOTS && Merkle.Shaped(tree)
  {
    && |deal| == CARDS && Decodable(t, published) && (forall i: nat | i < CARDS :: Opens(t, published, i, deal[i]))
    && Combinations.Distinct(tree.deck, deal)
    && Merkle.Committed(tree, cache, root, Merkle.HandOf(deal, 0))
    && Merkle.Committed(tree, cache, root, Merkle.HandOf(deal, 2))
  }

  lemma EveryCardOpens(t: Sealed, published: seq<CardReveal>, tree: Merkle.Tree, cache: seq<Merkle.Digest>,
                       root: Merkle.Digest, i: nat)
    requires Sane(t) && |published| == SLOTS && Merkle.Shaped(tree) && i < CARDS
    ensures (exists deal :: Evaluates(t, published, tree, cache, root, deal)) ==>
      exists c: nat :: Opens(t, published, i, c)
  {
    hide Opens, Decodable, Merkle.Committed, Merkle.HandOf, Combinations.Distinct;
    if deal :| Evaluates(t, published, tree, cache, root, deal) {
      assert Opens(t, published, i, deal[i]);
    }
  }

  /** A player's own evaluation of a hand it knows: it comes out exactly when some deal evaluates, and every opponent
      admits it. */
  method EvaluateHand(t: Sealed, published: seq<CardReveal>, tree: Merkle.Tree, cache: seq<Merkle.Digest>,
                      root: Merkle.Digest)
    returns (r: Option<(seq<nat>, RankClaim, RankClaim, Option<Player>)>)
    requires Sane(t) && |published| == SLOTS && Merkle.Shaped(tree) && tree.hand == 7 && Merkle.TableTotal(tree.table)
    ensures r.Some? <==> exists deal :: Evaluates(t, published, tree, cache, root, deal)
    ensures r.Some? ==>
      && Evaluates(t, published, tree, cache, root, r.value.0)
      && ClaimAdmitted(t, published, tree, root, r.value.0, r.value.1, r.value.2)
      && r.value.3 == Winner(r.value.1.rank, r.value.2.rank)
  {
    hide Opens, Decodable, Merkle.Verifies, Ranking.HandRank, Bits.Mask, Merkle.TableTotal, Merkle.Shaped,
      Merkle.Committed, Combinations.Distinct, Merkle.HandOf;
    var cards := DecodedCards(t, published);
    if cards.None? {
      return None;
    }
    var deal: seq<nat> := [];
    for i := 0 to CARDS
      invariant |deal| == i
        && forall k: nat | k < i :: Opens(t, published, k, deal[k]) && cards.value[k] == Some(deal[k])
    {
      if cards.value[i].None? {
        EveryCardOpens(t, published, tree, cache, root, i);
        return None;
      }
      deal := deal + [cards.value[i].value];
    }
    forall other | Evaluates(t, published, tree, cache, root, other)
      ensures other == deal
    {
      assert forall i: nat | i < CARDS :: Opens(t, published, i, other[i]);
    }
    var e := Merkle.Evaluate(tree, cache, root, deal);
    if e.None? {
      return None;
    }
    var (first, second, _) := e.value;
    HandsAreDistinct(tree.deck, deal);
    var one, two := RankClaim(first.rank, first.proof), RankClaim(second.rank, second.proof);
    assert Evaluates(t, published, tree, cache, root, deal);
    return Some((deal, one, two, Winner(one.rank, two.rank)));
  }

  lemma HandsAreDistinct(n: nat, deal: seq<nat>)
    requires |deal| == CARDS && Combinations.Distinct(n, deal)
    ensures Combinations.Distinct(n, Merkle.HandOf(deal, 0)) && Combinations.Distinct(n, Merkle.HandOf(deal, 2))
  {
    forall holes: nat, i, j | (holes == 0 || holes == 2) && 0 <= i < j < 7
      ensures Merkle.HandOf(deal, holes)[i] != Merkle.HandOf(deal, holes)[j]
    {
      var a, b := if i < 2 then holes + i else i + 2, if j < 2 then holes + j else j + 2;
      assert Merkle.HandOf(deal, holes)[i] == deal[a] && Merkle.HandOf(deal, holes)[j] == deal[b] && a != b;
      assert a < b ==> deal[a] != deal[b];
    }
  }

  /** On a properly shuffled hand a showdown has one outcome: every admitted claim names the cards its shares lead to,
      the dealt ones if the shares are true, and the winner is decided by them. */
  lemma OneOutcome(t: Sealed, cards: seq<nat>, published: seq<CardReveal>, tree: Merkle.Tree, root: Merkle.Digest,
                   deal: seq<nat>, one: RankClaim, two: RankClaim)
    requires Proper(t, cards) && |published| == SLOTS && AllProven(t, published) && |deal| == CARDS
    requires ClaimAdmitted(t, published, tree, root, deal, one, two)
    ensures forall i: nat | i < CARDS :: LandsOn(t, cards, published, i, deal[i])
    ensures AllTrue(t, published) ==> deal == cards
    ensures Winner(one.rank, two.rank)
      == Winner(Ranking.HandRank(tree.table, Merkle.HandOf(deal, 0)),
                Ranking.HandRank(tree.table, Merkle.HandOf(deal, 2)))
  {
    hide Opens, Decodable, Merkle.Verifies, Ranking.HandRank, Bits.Mask, AllProven, AllTrue, Landing, LandsOnACard;
    DecodesWhereTheyLand(t, cards, published);
    forall i: nat | i < CARDS
      ensures LandsOn(t, cards, published, i, deal[i])
    {
      assert Opens(t, published, i, deal[i]);
    }
    if AllTrue(t, published) {
      TrueSharesLand(t, cards, published);
    }
  }
}
