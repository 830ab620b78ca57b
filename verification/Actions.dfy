/** The action builders, step by step, each proved to build exactly what the rules allow. */
module Actions {
  import opened Bytes
  import opened Hand
  import opened Rules
  import opened Options

  /** Writes each encodable card into its slot; proofs are laid out in reverse. */
  method WriteShares(shares: seq<bytes>, slots: seq<nat>, cards: seq<CardReveal>)
    returns (ok: bool, updated: seq<bytes>, proofs: seq<bytes>)
    requires |slots| == |cards| && forall i | 0 <= i < |slots| :: slots[i] < |shares|
    ensures ok <==> forall i | 0 <= i < |cards| :: Encodable(cards[i])
    ensures ok ==> updated == Write(shares, slots, cards) && proofs == Proofs(cards)
  {
    updated := shares;
    var stack := new bytes[|cards|](_ => []);
    var i := 0;
    while i < |cards|
      invariant 0 <= i <= |cards|
      invariant forall j | 0 <= j < i :: Encodable(cards[j])
      invariant forall j | |cards| - i <= j < |cards| :: stack[j] == cards[|cards| - 1 - j].proof
      invariant updated == WriteFirst(i, shares, slots, cards)
    {
      if !Encodable(cards[i]) {
        return false, updated, [];
      }
      updated := updated[slots[i] := cards[i].share];
      stack[|cards| - 1 - i] := cards[i].proof;
      i := i + 1;
    }
    return true, updated, stack[..];
  }

  lemma KindWidths(r: Reveals, actor: Player)
    ensures |KindSlots(r.kind, actor)| == |KindCards(r)|
  {
  }

  /** Publishes a witness of the expected kind into a copy of the slots. */
  method PublishReveals(shares: seq<bytes>, r: Reveals, expected: RevealKind, actor: Player)
    returns (ok: bool, updated: seq<bytes>, proofs: seq<bytes>)
    requires |shares| == SLOTS
    ensures ok <==> Publishable(r, expected)
    ensures ok ==> updated == Write(shares, KindSlots(expected, actor), KindCards(r)) && proofs == Proofs(KindCards(r))
  {
    if r.kind != expected || !UnusedAbsent(r) {
      return false, shares, [];
    }
    KindWidths(r, actor);
    ok, updated, proofs := WriteShares(shares, KindSlots(expected, actor), KindCards(r));
  }

  /** Totals the selected coins and checks them against the contribution. */
  method ValidateFunding(f: Funding, required: int) returns (ok: bool)
    ensures ok <==> FundingCovers(f, required)
  {
    if AddAmount(0, required).None? {
      return false;
    }
    if required == 0 {
      return |f.inputs| == 0 && f.change.None?;
    }
    if |f.inputs| == 0 {
      return false;
    }
    var total := 0;
    for i := 0 to |f.inputs|
      invariant Total(f.inputs[..i]) == Some(total)
    {
      assert f.inputs[..i + 1][..i] == f.inputs[..i];
      var next := AddAmount(total, f.inputs[i]);
      if next.None? {
        TotalPrefix(f.inputs, i + 1);
        return false;
      }
      total := next.value;
    }
    assert f.inputs[..|f.inputs|] == f.inputs;
    if total < required {
      return false;
    }
    var remainder := total - required;
    if remainder == 0 && f.change.None? {
      return true;
    }
    if remainder > 0 && f.change.Some? && f.change.value == remainder {
      return true;
    }
    return false;
  }

  lemma {:induction false} TotalPrefix(inputs: seq<int>, n: nat)
    requires n <= |inputs|
    ensures Total(inputs).Some? ==> Total(inputs[..n]).Some?
    decreases |inputs| - n
  {
    if n < |inputs| {
      TotalPrefix(inputs, n + 1);
      assert inputs[..n + 1][..n] == inputs[..n];
    } else {
      assert inputs[..n] == inputs;
    }
  }

  /** Extends the deadline, fixes the covenant value and admits the funding. */
  method BuildLive(p: Params, held: int, f: Funding, successor: State, proofs: seq<bytes>) returns (b: Option<Built>)
    ensures b == Finish(p, held, Applied(successor, proofs), f)
  {
    if successor.deadline > MAX_U64 - DEADLINE_INTERVAL {
      return None;
    }
    var after := successor.(deadline := successor.deadline + DEADLINE_INTERVAL);
    var value := LiveValue(p, after);
    if value.None? || held < 0 || value.value < held {
      return None;
    }
    var covered := ValidateFunding(f, value.value - held);
    if !covered || AddAmount(held, FundedTotal(f)).None? {
      return None;
    }
    return Some(Built(after, value.value, f, proofs));
  }

  /** Admits a predecessor of this contract that holds exactly the joint value. */
  predicate LivePredecessor(p: Params, s: State, held: int) {
    s.id == p.id && LiveValue(p, s) == Some(held)
  }

  method BuildPlayer1Funding(p: Params, s: State, held: int, f: Funding, r: Reveals) returns (b: Option<Built>)
    requires ValidParams(p) && WellFormed(s)
    ensures b == Live(p, s, held, Fund(r), f)
  {
    if held != p.stake + p.bond {
      return None;
    }
    if s != InitialState(p) {
      return None;
    }
    var ok, updated, proofs := PublishReveals(s.shares, r, OpponentHoles, Player1);
    if !ok {
      return None;
    }
    var state := s.(shares := updated);
    state := state.(phase := AwaitOpening);
    b := BuildLive(p, held, f, state, proofs);
  }

  method BuildPlayer2Opening(p: Params, s: State, held: int, openingBet: int, f: Funding, r: Reveals)
    returns (b: Option<Built>)
    requires ValidParams(p) && WellFormed(s)
    ensures b == Live(p, s, held, Open(openingBet, r), f)
  {
    if !LivePredecessor(p, s, held) || s.phase != AwaitOpening || s.last != Start || s.wager1 != 0 || s.wager2 != 0 {
      return None;
    }
    if openingBet < 0 || openingBet > p.maxWager || (openingBet != 0 && openingBet < p.minBet) {
      return None;
    }
    var ok, updated, proofs := PublishReveals(s.shares, r, OpponentHoles, Player2);
    if !ok {
      return None;
    }
    var state := s.(shares := updated);
    state := state.(wager2 := openingBet, last := Raised);
    if openingBet == 0 {
      state := state.(last := Checked);
    }
    state := state.(phase := Betting(PreFlop, Player1));
    if openingBet == p.maxWager {
      state := state.(phase := AllIn(PreFlop, Player1));
    }
    b := BuildLive(p, held, f, state, proofs);
  }

  method BuildBet(p: Params, s: State, held: int, action: BettingAction, f: Funding) returns (b: Option<Built>)
    requires ValidParams(p) && WellFormed(s)
    ensures b == Live(p, s, held, Move.Bet(action), f)
  {
    if !LivePredecessor(p, s, held) || !s.phase.Betting? {
      return None;
    }
    var state := s;
    var actor, street := s.phase.actor, s.phase.street;
    var opponent := Other(actor);
    var a, o := Wager(s, actor), Wager(s, opponent);
    if a >= p.maxWager || o >= p.maxWager {
      return None;
    }
    var last := s.last;
    if street == PreFlop && (last == Start || (actor == Player2 && last == Checked)) {
      return None;
    }
    if last == Raised {
      if o <= a || o - a < p.minBet {
        return None;
      }
    } else if a != o {
      return None;
    }
    var target: nat := 0;
    match action.kind {
      case Check =>
        if action.amount != 0 || last == Raised || a != o {
          return None;
        }
        target := a;
      case Call =>
        if action.amount != 0 || last != Raised || o <= a {
          return None;
        }
        target := o;
      case RaiseTo =>
        if action.amount < 0 {
          return None;
        }
        target := action.amount;
        if target > p.maxWager || target <= a || target <= o {
          return None;
        }
        var minimum := p.minBet;
        if last == Raised {
          minimum := o - a;
        }
        if target != p.maxWager && target - o < minimum {
          return None;
        }
    }
    if actor == Player1 {
      state := state.(wager1 := target);
    } else {
      state := state.(wager2 := target);
    }
    if target == o {
      if last == Start {
        state := state.(last := Checked, phase := Betting(street, opponent));
      } else {
        state := state.(last := Start);
        if street == River {
          state := state.(phase := ShowdownReveal(FirstPass, opponent));
        } else {
          state := state.(phase := BoardReveal(NextStreet(street), FirstPass, opponent));
        }
      }
    } else {
      state := state.(last := Raised, phase := Betting(street, opponent));
      if target == p.maxWager {
        state := state.(phase := AllIn(street, opponent));
      }
    }
    b := BuildLive(p, held, f, state, []);
  }

  const NO_FUNDING := Funding([], None)

  method BuildBoardReveal(p: Params, s: State, held: int, r: Reveals) returns (b: Option<Built>)
    requires ValidParams(p) && WellFormed(s)
    requires EncodePhase(s.phase).Some?
    ensures b == Live(p, s, held, RevealBoard(r), NO_FUNDING)
  {
    if !LivePredecessor(p, s, held) || !s.phase.BoardReveal? || !StartEqual(s) || s.wager1 >= p.maxWager {
      return None;
    }
    var phase := s.phase;
    var ok, updated, proofs := PublishReveals(s.shares, r, BoardKind(phase.street), phase.actor);
    if !ok {
      return None;
    }
    var state := s.(shares := updated);
    state := state.(phase := Betting(phase.street, Other(phase.actor)));
    if phase.pass == FirstPass {
      state := state.(phase := BoardReveal(phase.street, SecondPass, Other(phase.actor)));
    }
    b := BuildLive(p, held, NO_FUNDING, state, proofs);
  }

  method BuildShowdownReveal(p: Params, s: State, held: int, r: Reveals) returns (b: Option<Built>)
    requires ValidParams(p) && WellFormed(s)
    ensures b == Live(p, s, held, RevealHoles(r), NO_FUNDING)
  {
    if !LivePredecessor(p, s, held) || !s.phase.ShowdownReveal? || !StartEqual(s) {
      return None;
    }
    var phase := s.phase;
    if phase.pass == FirstPass && s.wager1 == p.maxWager {
      return None;
    }
    var ok, updated, proofs := PublishReveals(s.shares, r, OwnHoles, phase.actor);
    if !ok {
      return None;
    }
    var state := s.(shares := updated);
    state := state.(phase := Evaluation);
    if phase.pass == FirstPass {
      state := state.(phase := ShowdownReveal(SecondPass, Other(phase.actor)));
    }
    b := BuildLive(p, held, NO_FUNDING, state, proofs);
  }

  method BuildAllInCall(p: Params, s: State, held: int, f: Funding, r: Reveals) returns (b: Option<Built>)
    requires ValidParams(p) && WellFormed(s)
    ensures b == Live(p, s, held, CallAllIn(r), f)
  {
    if !LivePredecessor(p, s, held) || !s.phase.AllIn? {
      return None;
    }
    var phase := s.phase;
    var a, o := Wager(s, phase.actor), Wager(s, Other(phase.actor));
    if s.last != Raised || o != p.maxWager || a >= p.maxWager {
      return None;
    }
    var ok, updated, proofs := PublishReveals(s.shares, r, RemainingKind(phase.street), phase.actor);
    if !ok {
      return None;
    }
    var state := s.(shares := updated);
    state := state.(wager1 := p.maxWager, wager2 := p.maxWager);
    state := state.(last := Start);
    if phase.street == River {
      state := state.(phase := ShowdownReveal(SecondPass, Other(phase.actor)));
    } else {
      state := state.(phase := AllInReveal(NextStreet(phase.street), Other(phase.actor)));
    }
    b := BuildLive(p, held, f, state, proofs);
  }

  method BuildAllInReveal(p: Params, s: State, held: int, r: Reveals) returns (b: Option<Built>)
    requires ValidParams(p) && WellFormed(s)
    requires EncodePhase(s.phase).Some?
    ensures b == Live(p, s, held, RevealAllIn(r), NO_FUNDING)
  {
    if !LivePredecessor(p, s, held) || !s.phase.AllInReveal? || !StartEqual(s) || s.wager1 != p.maxWager {
      return None;
    }
    var kind, actor := RemainingKind(PreviousStreet(s.phase.street)), s.phase.actor;
    var ok, updated, proofs := PublishReveals(s.shares, r, kind, actor);
    if !ok {
      return None;
    }
    var state := s.(shares := updated);
    state := state.(phase := Evaluation);
    b := BuildLive(p, held, NO_FUNDING, state, proofs);
  }
}
