/** What a player is offered, what it will cost, and why that is exactly what the builders accept. */
module Choices {
  import opened Hand
  import opened Rules
  import opened Runs
  import opened Options

  /** The betting part of a choice; amounts are zero where nothing is offered. */
  datatype Choice = Choice(canCheck: bool, canCall: bool, callAmount: int, minRaiseTo: int, maxRaiseTo: int)

  function Least(a: int, b: int): (m: int) { if a <= b then a else b }

  /** The choice offered to `role`, or None when the wagers make no sense for it. */
  method HandChoice(p: Params, s: State, role: Player) returns (choice: Option<Choice>)
    ensures choice == Offer(p, s, role)
  {
    if s.phase == AwaitOpening {
      return Some(Choice(true, false, 0, p.minBet, p.maxWager));
    }
    if !s.phase.Betting? && !s.phase.AllIn? {
      return None;
    }
    var mine, theirs := Wager(s, role), Wager(s, Other(role));
    if theirs < mine || theirs > p.maxWager {
      return None;
    }
    var call := theirs - mine;
    var c := Choice(call == 0, call > 0, call, 0, 0);
    if s.phase.AllIn? {
      c := c.(canCheck := false);
      c := c.(canCall := true);
      c := c.(callAmount := p.maxWager - mine);
      return Some(c);
    }
    var increment := p.minBet;
    if s.last == Raised {
      increment := call;
    }
    var minimum := Least(theirs + increment, p.maxWager);
    if theirs < p.maxWager {
      c := c.(minRaiseTo := minimum);
      c := c.(maxRaiseTo := p.maxWager);
    }
    return Some(c);
  }

  function Offer(p: Params, s: State, role: Player): (choice: Option<Choice>) {
    if s.phase == AwaitOpening then Some(Choice(true, false, 0, p.minBet, p.maxWager))
    else if !s.phase.Betting? && !s.phase.AllIn? then None
    else
      var mine, theirs := Wager(s, role), Wager(s, Other(role));
      if theirs < mine || theirs > p.maxWager then None
      else if s.phase.AllIn? then Some(Choice(false, true, p.maxWager - mine, 0, 0))
      else
        var call := theirs - mine;
        var open := theirs < p.maxWager;
        var least := Least(theirs + (if s.last == Raised then call else p.minBet), p.maxWager);
        Some(Choice(call == 0, call > 0, call, if open then least else 0, if open then p.maxWager else 0))
  }

  /** Coins to select for an input, or None for an input the choice does not cover. */
  method RequiredFunding(p: Params, s: State, role: Player, action: BettingAction) returns (amount: Option<int>)
    ensures amount == Cost(p, s, role, action)
  {
    if s.phase == AwaitOpening {
      if action.kind == Check {
        return Some(0);
      }
      if action.kind == Call {
        return None;
      }
      if action.amount < 0 || action.amount > p.maxWager || (action.amount != 0 && action.amount < p.minBet) {
        return None;
      }
      return Some(action.amount);
    }
    var choice := HandChoice(p, s, role);
    if choice.None? {
      return None;
    }
    var c := choice.value;
    match action.kind {
      case Check =>
        if c.canCheck {
          return Some(0);
        }
      case Call =>
        if c.canCall {
          return Some(c.callAmount);
        }
      case RaiseTo =>
        if c.maxRaiseTo > 0 && action.amount >= c.minRaiseTo && action.amount <= c.maxRaiseTo {
          return Some(action.amount - Wager(s, role));
        }
    }
    return None;
  }

  function Cost(p: Params, s: State, role: Player, action: BettingAction): (amount: Option<int>) {
    match (s.phase == AwaitOpening, action.kind, Offer(p, s, role))
    case (true, Check, _) => Some(0)
    case (true, Call, _) => None
    case (true, RaiseTo, _) =>
      if action.amount < 0 || action.amount > p.maxWager || (action.amount != 0 && action.amount < p.minBet) then None
      else Some(action.amount)
    case (false, _, None) => None
    case (false, Check, Some(c)) => if c.canCheck then Some(0) else None
    case (false, Call, Some(c)) => if c.canCall then Some(c.callAmount) else None
    case (false, RaiseTo, Some(c)) =>
      if c.maxRaiseTo > 0 && c.minRaiseTo <= action.amount <= c.maxRaiseTo then Some(action.amount - Wager(s, role))
        else None
  }

  predicate Offers(c: Choice, action: BettingAction) {
    match action.kind
    case Check => c.canCheck && action.amount == 0
    case Call => c.canCall && action.amount == 0
    case RaiseTo => c.maxRaiseTo > 0 && c.minRaiseTo <= action.amount <= c.maxRaiseTo
  }

  /** While betting, the actor is offered exactly the legal actions, at the exact price of the built spend. */
  lemma OffersAreExact(p: Params, s: State, action: BettingAction)
    requires ValidParams(p) && Inv(p, s) && s.phase.Betting?
    ensures Offer(p, s, s.phase.actor).Some?
    ensures Offers(Offer(p, s, s.phase.actor).value, action) <==> Apply(p, s, Bet(action)).Some?
    ensures Apply(p, s, Bet(action)).Some? ==>
      Cost(p, s, s.phase.actor, action) == Some(Held(p, Apply(p, s, Bet(action)).value.state) - Held(p, s))
  {
  }

  /** Facing an all-in the only bet offered is the call, priced as the built call. */
  lemma AllInOfferIsExact(p: Params, s: State, r: Reveals)
    requires ValidParams(p) && Inv(p, s) && s.phase.AllIn? && Publishable(r, RemainingKind(s.phase.street))
    ensures Apply(p, s, CallAllIn(r)).Some?
    ensures var cost := Held(p, Apply(p, s, CallAllIn(r)).value.state) - Held(p, s);
      Offer(p, s, s.phase.actor) == Some(Choice(false, true, cost, 0, 0)) && cost > 0
  {
    hide Publishable, KindSlots, KindCards, Write, Proofs, SlotsFit;
  }

  /** The opening bet an input stands for. */
  function OpeningBet(action: BettingAction): (bet: int) { if action.kind == RaiseTo then action.amount else 0 }

  /** An opening input is funded exactly when its bet is legal, and every offered opening is. */
  lemma OpeningOfferIsExact(p: Params, s: State, action: BettingAction, r: Reveals)
    requires ValidParams(p) && Inv(p, s) && s.phase == AwaitOpening && action.kind != Call
    requires Publishable(r, OpponentHoles)
    ensures Cost(p, s, Player2, action).Some? <==> Apply(p, s, Open(OpeningBet(action), r)).Some?
    ensures Cost(p, s, Player2, action).Some? ==>
      Cost(p, s, Player2, action).value == Held(p, Apply(p, s, Open(OpeningBet(action), r)).value.state) - Held(p, s)
    ensures action.kind == RaiseTo ==>
      (Cost(p, s, Player2, action).Some? <==> Offers(Offer(p, s, Player2).value, action) || action.amount == 0)
  {
  }
}
