/** The three ways a hand settles, and what each pays out. */
module Terminals {
  import opened Hand
  import opened Rules
  import opened Runs
  import opened Options

  datatype Payout = Payout(player: Player, value: int)

  const RANKS: int := 7462
  const DECK: int := 52

  function Paid(payouts: seq<Payout>): (t: int) {
    if payouts == [] then 0 else payouts[0].value + Paid(payouts[1..])
  }

  function PaidTo(payouts: seq<Payout>, player: Player): (t: int) {
    if payouts == [] then 0
    else (if payouts[0].player == player then payouts[0].value else 0) + PaidTo(payouts[1..], player)
  }

  predicate MayConcede(phase: Phase) {
    phase.Betting? || phase.AllIn? || phase.ShowdownReveal? || phase.AllInReveal?
  }

  predicate Money(held: int) { 0 <= held <= MAX_MONEY }

  /** Conceding pays the actor their bond and the opponent the rest. Only the header and the value are consulted. */
  function ConcessionPayouts(p: Params, phase: Phase, held: int): (payouts: Option<seq<Payout>>) {
    if !Money(held) || !MayConcede(phase) || held < p.bond then None
    else
      var first := if phase.actor == Player1 then p.bond else held - p.bond;
      Some([Payout(Player1, first), Payout(Player2, held - first)])
  }

  /** A timeout pays everything to the opponent of the obligated actor; evaluation has none. */
  function TimeoutPayouts(phase: Phase, held: int): (payouts: Option<seq<Payout>>) {
    match RequiredActor(phase)
    case None => None
    case Some(actor) => if Money(held) then Some([Payout(Other(actor), held)]) else None
  }

  method Concession(p: Params, phase: Phase, held: int) returns (payouts: Option<seq<Payout>>)
    requires ValidParams(p)
    ensures payouts == ConcessionPayouts(p, phase, held)
  {
    if AddAmount(0, held).None? {
      return None;
    }
    if !MayConcede(phase) {
      return None;
    }
    if held < p.bond {
      return None;
    }
    var p1, p2 := p.bond, held - p.bond;
    if phase.actor == Player2 {
      p1, p2 := p2, p1;
    }
    return Some([Payout(Player1, p1), Payout(Player2, p2)]);
  }

  method Timeout(p: Params, phase: Phase, held: int) returns (payouts: Option<seq<Payout>>)
    ensures payouts == TimeoutPayouts(phase, held)
  {
    if AddAmount(0, held).None? {
      return None;
    }
    var actor := RequiredActor(phase);
    if actor.None? {
      return None;
    }
    var beneficiary := Other(actor.value);
    return Some([Payout(beneficiary, held)]);
  }

  predicate ShowdownClaim(cards: seq<int>, rank1: int, rank2: int) {
    && |cards| == 9
    && (forall i | 0 <= i < 9 :: 0 <= cards[i] < DECK)
    && (forall i, j | 0 <= i < j < 9 :: cards[i] != cards[j])
    && 1 <= rank1 <= RANKS && 1 <= rank2 <= RANKS
  }

  /** Player1's share of a showdown over `total`. */
  function ShowdownShare(p: Params, total: int, rank1: int, rank2: int): (v: int) {
    if rank1 > rank2 then total - p.bond else if rank1 < rank2 then p.bond else total / 2
  }

  /** A showdown splits the joint value by the claimed ranks, independently of who submits it. */
  function ShowdownPayouts(p: Params, s: State, held: int, cards: seq<int>, rank1: int, rank2: int)
    : (payouts: Option<seq<Payout>>)
  {
    if s.id != p.id || LiveValue(p, s) != Some(held) || s.phase != Evaluation || !StartEqual(s)
       || !ShowdownClaim(cards, rank1, rank2)
    then None
    else
      var first := ShowdownShare(p, held, rank1, rank2);
      Some([Payout(Player1, first), Payout(Player2, held - first)])
  }

  /** Nine distinct cards below 52: the seen-array loop of the witness encoder. */
  method DistinctCards(cards: seq<int>) returns (ok: bool)
    ensures ok <==>
      && (forall i | 0 <= i < |cards| :: 0 <= cards[i] < DECK)
      && (forall i, j | 0 <= i < j < |cards| :: cards[i] != cards[j])
  {
    var seen := new bool[52](_ => false);
    for k := 0 to |cards|
      invariant forall i | 0 <= i < k :: 0 <= cards[i] < DECK && seen[cards[i]]
      invariant forall i, j | 0 <= i < j < k :: cards[i] != cards[j]
      invariant forall c | 0 <= c < DECK && seen[c] :: c in cards[..k]
    {
      assert cards[..k + 1] == cards[..k] + [cards[k]];
      if cards[k] < 0 || cards[k] >= DECK || seen[cards[k]] {
        return false;
      }
      seen[cards[k]] := true;
    }
    return true;
  }

  method Showdown(p: Params, s: State, held: int, cards: seq<int>, rank1: int, rank2: int)
    returns (payouts: Option<seq<Payout>>)
    requires ValidParams(p)
    ensures payouts == ShowdownPayouts(p, s, held, cards, rank1, rank2)
  {
    if s.id != p.id || LiveValue(p, s) != Some(held) || s.phase != Evaluation || !StartEqual(s) || |cards| != 9 {
      return None;
    }
    var distinct := DistinctCards(cards);
    if !distinct || rank1 < 1 || rank1 > RANKS || rank2 < 1 || rank2 > RANKS {
      return None;
    }
    var total := held;
    var p1, p2 := total / 2, total / 2;
    if rank1 > rank2 {
      p1, p2 := total - p.bond, p.bond;
    }
    if rank1 < rank2 {
      p1, p2 := p.bond, total - p.bond;
    }
    assert total == 2 * (p.stake + p.bond + s.wager1);
    return Some([Payout(Player1, p1), Payout(Player2, p2)]);
  }

  /** A settlement pays out exactly what the covenant holds, and nobody who did not time out loses the bond. */
  predicate Conserves(p: Params, s: State, payouts: seq<Payout>, timedOut: Option<Player>) {
    && Paid(payouts) == Held(p, s)
    && Paid(payouts) == PaidTo(payouts, Player1) + PaidTo(payouts, Player2)
    && (forall player :: Some(player) == timedOut || PaidTo(payouts, player) >= p.bond)
    && (forall i | 0 <= i < |payouts| :: 0 <= payouts[i].value <= MAX_MONEY)
  }

  lemma TwoPayouts(a: int, b: int)
    ensures var list := [Payout(Player1, a), Payout(Player2, b)];
      Paid(list) == a + b && PaidTo(list, Player1) == a && PaidTo(list, Player2) == b
  {
    var list, rest := [Payout(Player1, a), Payout(Player2, b)], [Payout(Player2, b)];
    assert list[1..] == rest && rest[1..] == [];
    assert Paid(rest) == b && PaidTo(rest, Player1) == 0 && PaidTo(rest, Player2) == b;
  }

  /** Before evaluation the waiting player may time the hand out; nothing else settles it without the actor. */
  lemma TimeoutConserves(p: Params, s: State)
    requires ValidParams(p) && Inv(p, s)
    ensures TimeoutPayouts(s.phase, Held(p, s)).Some? <==> s.phase != Evaluation
    ensures s.phase != Evaluation ==>
      && Conserves(p, s, TimeoutPayouts(s.phase, Held(p, s)).value, RequiredActor(s.phase))
      && RequiredActor(s.phase).Some?
      && PaidTo(TimeoutPayouts(s.phase, Held(p, s)).value, Other(RequiredActor(s.phase).value)) == Held(p, s)
  {
    HeldInRange(p, s);
    var payouts := TimeoutPayouts(s.phase, Held(p, s));
    if payouts.Some? {
      assert payouts.value[1..] == [];
    }
  }

  lemma ConcessionConserves(p: Params, s: State)
    requires ValidParams(p) && Inv(p, s)
    ensures ConcessionPayouts(p, s.phase, Held(p, s)).Some? <==> MayConcede(s.phase)
    ensures MayConcede(s.phase) ==>
      && Conserves(p, s, ConcessionPayouts(p, s.phase, Held(p, s)).value, None)
      && PaidTo(ConcessionPayouts(p, s.phase, Held(p, s)).value, s.phase.actor) == p.bond
  {
    HeldInRange(p, s);
    TwoPayouts(p.bond, Held(p, s) - p.bond);
    TwoPayouts(Held(p, s) - p.bond, p.bond);
  }

  /** In evaluation every claim settles: a tie splits exactly, otherwise the loser keeps just the bond. */
  lemma ShowdownConserves(p: Params, s: State, cards: seq<int>, rank1: int, rank2: int)
    requires ValidParams(p) && Inv(p, s) && ShowdownClaim(cards, rank1, rank2)
    ensures ShowdownPayouts(p, s, Held(p, s), cards, rank1, rank2).Some? <==> s.phase == Evaluation
    ensures s.phase == Evaluation ==>
      var list := ShowdownPayouts(p, s, Held(p, s), cards, rank1, rank2).value;
      && Conserves(p, s, list, None)
      && (rank1 == rank2 ==> PaidTo(list, Player1) == PaidTo(list, Player2))
      && (rank1 > rank2 ==> PaidTo(list, Player2) == p.bond)
      && (rank1 < rank2 ==> PaidTo(list, Player1) == p.bond)
  {
    HeldInRange(p, s);
    var first := ShowdownShare(p, Held(p, s), rank1, rank2);
    TwoPayouts(first, Held(p, s) - first);
    if s.phase == Evaluation {
      assert Held(p, s) == 2 * (p.stake + p.bond + s.wager1);
    }
  }
}
