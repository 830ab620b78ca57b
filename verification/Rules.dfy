/** The rules of the hand as one declarative transition: which moves a state allows and what they leave behind. */
module Rules {
  import opened Bytes
  import opened Hand
  import opened Options

  // ---------- Publishing shares ----------

  datatype RevealKind = OpponentHoles | FlopCards | TurnCard | RiverCard | OwnHoles | FromFlop | FromTurn | FromRiver

  /** The semantic positions a caller fills; the kind decides which of them must be present. */
  datatype Reveals = Reveals(
    kind: RevealKind,
    hole0: CardReveal, hole1: CardReveal,
    flop0: CardReveal, flop1: CardReveal, flop2: CardReveal,
    turn: CardReveal, river: CardReveal)

  function OwnSlots(p: Player): (slots: seq<nat>) { [14 + 2 * Index(p), 15 + 2 * Index(p)] }

  function OpponentSlots(p: Player): (slots: seq<nat>) { [2 * (1 - Index(p)), 2 * (1 - Index(p)) + 1] }

  function BoardSlots(p: Player, s: Street): (slots: seq<nat>) {
    match s
    case PreFlop => []
    case Flop => [4 + 3 * Index(p), 5 + 3 * Index(p), 6 + 3 * Index(p)]
    case Turn => [10 + Index(p)]
    case River => [12 + Index(p)]
  }

  /** The slots a kind of witness publishes for `actor`, in publication order. */
  function KindSlots(kind: RevealKind, actor: Player): (slots: seq<nat>)
    ensures forall i | 0 <= i < |slots| :: slots[i] < SLOTS && SlotPublisher(slots[i]) == actor
    ensures forall i, j | 0 <= i < j < |slots| :: slots[i] != slots[j]
  {
    match kind
    case OpponentHoles => OpponentSlots(actor)
    case OwnHoles => OwnSlots(actor)
    case FlopCards => BoardSlots(actor, Flop)
    case TurnCard => BoardSlots(actor, Turn)
    case RiverCard => BoardSlots(actor, River)
    case FromFlop => BoardSlots(actor, Flop) + BoardSlots(actor, Turn) + BoardSlots(actor, River) + OwnSlots(actor)
    case FromTurn => BoardSlots(actor, Turn) + BoardSlots(actor, River) + OwnSlots(actor)
    case FromRiver => BoardSlots(actor, River) + OwnSlots(actor)
  }

  /** Both players' slots of a kind are as many. */
  lemma KindWidth(kind: RevealKind, actor: Player)
    ensures |KindSlots(kind, actor)| == |KindSlots(kind, Player1)|
  {
  }

  function KindCards(r: Reveals): (cards: seq<CardReveal>) {
    match r.kind
    case OpponentHoles => [r.hole0, r.hole1]
    case OwnHoles => [r.hole0, r.hole1]
    case FlopCards => [r.flop0, r.flop1, r.flop2]
    case TurnCard => [r.turn]
    case RiverCard => [r.river]
    case FromFlop => [r.flop0, r.flop1, r.flop2, r.turn, r.river, r.hole0, r.hole1]
    case FromTurn => [r.turn, r.river, r.hole0, r.hole1]
    case FromRiver => [r.river, r.hole0, r.hole1]
  }

  /** Fields the kind does not use must be zero, so that a witness has one reading. */
  predicate UnusedAbsent(r: Reveals) {
    var holes := r.hole0.Absent? && r.hole1.Absent?;
    var flop := r.flop0.Absent? && r.flop1.Absent? && r.flop2.Absent?;
    match r.kind
    case OpponentHoles => flop && r.turn.Absent? && r.river.Absent?
    case OwnHoles => flop && r.turn.Absent? && r.river.Absent?
    case FlopCards => holes && r.turn.Absent? && r.river.Absent?
    case TurnCard => holes && flop && r.river.Absent?
    case RiverCard => holes && flop && r.turn.Absent?
    case FromFlop => true
    case FromTurn => flop
    case FromRiver => flop && r.turn.Absent?
  }

  predicate Publishable(r: Reveals, expected: RevealKind) {
    && r.kind == expected
    && UnusedAbsent(r)
    && (forall i | 0 <= i < |KindCards(r)| :: Encodable(KindCards(r)[i]))
  }

  /** `shares` after the first `n` cards have been written, each into its slot. */
  function WriteFirst(n: nat, shares: seq<bytes>, slots: seq<nat>, cards: seq<CardReveal>): (w: seq<bytes>)
    requires n <= |slots| == |cards|
    requires forall i | 0 <= i < n :: slots[i] < |shares| && cards[i].Share?
    ensures |w| == |shares|
    decreases n
  {
    if n == 0 then shares else WriteFirst(n - 1, shares, slots, cards)[slots[n - 1] := cards[n - 1].share]
  }

  function Write(shares: seq<bytes>, slots: seq<nat>, cards: seq<CardReveal>): (w: seq<bytes>)
    requires |slots| == |cards|
    requires forall i | 0 <= i < |slots| :: slots[i] < |shares| && cards[i].Share?
    ensures |w| == |shares|
  {
    WriteFirst(|slots|, shares, slots, cards)
  }

  /** Proofs travel in reverse publication order: the lowest slot is on top of the stack. */
  function Proofs(cards: seq<CardReveal>): (w: seq<bytes>)
    requires forall i | 0 <= i < |cards| :: cards[i].Share?
    ensures |w| == |cards|
  {
    seq(|cards|, i requires 0 <= i < |cards| => cards[|cards| - 1 - i].proof)
  }

  /** Writing distinct slots puts every card in its slot and leaves the others alone. */
  lemma {:induction false} WriteAt(n: nat, shares: seq<bytes>, slots: seq<nat>, cards: seq<CardReveal>)
    requires n <= |slots| == |cards|
    requires forall i | 0 <= i < n :: slots[i] < |shares| && cards[i].Share?
    requires forall i, j | 0 <= i < j < |slots| :: slots[i] != slots[j]
    ensures forall i | 0 <= i < n :: WriteFirst(n, shares, slots, cards)[slots[i]] == cards[i].share
    ensures forall k | 0 <= k < |shares| && k !in slots[..n] :: WriteFirst(n, shares, slots, cards)[k] == shares[k]
  {
    if n > 0 {
      WriteAt(n - 1, shares, slots, cards);
      forall k | 0 <= k < |shares| && k !in slots[..n]
        ensures WriteFirst(n, shares, slots, cards)[k] == shares[k]
      {
        assert slots[n - 1] == slots[..n][n - 1];
        forall x | x in slots[..n - 1] ensures x in slots[..n] {}
      }
    }
  }

  // ---------- Moves ----------

  datatype BetKind = Check | Call | RaiseTo
  datatype BettingAction = BettingAction(kind: BetKind, amount: int)

  datatype Move =
    | Fund(shares: Reveals)
    | Open(bet: int, shares: Reveals)
    | Bet(action: BettingAction)
    | RevealBoard(shares: Reveals)
    | RevealHoles(shares: Reveals)
    | CallAllIn(shares: Reveals)
    | RevealAllIn(shares: Reveals)

  datatype Applied = Applied(state: State, proofs: seq<bytes>)

  function InitialState(p: Params): (s: State) {
    State(p.id, AwaitFunding, Start, 0, 0, p.initialDeadline, seq(SLOTS, i => BLANK))
  }

  /** The wager relation that every history of ordinary betting leads to. */
  predicate BettingHistory(p: Params, s: State)
    requires s.phase.Betting?
  {
    var a, o := Wager(s, s.phase.actor), Wager(s, Other(s.phase.actor));
    && a < p.maxWager && o < p.maxWager
    && (s.phase.street == PreFlop ==> s.last != Start && (s.phase.actor == Player2 ==> s.last == Raised))
    && (if s.last == Raised then o - a >= p.minBet else a == o)
  }

  /** The smallest increment a raise must add to the opponent's wager, short of the cap. */
  function MinimumRaise(p: Params, s: State): (m: int)
    requires s.phase.Betting?
  {
    if s.last == Raised then Wager(s, Other(s.phase.actor)) - Wager(s, s.phase.actor) else p.minBet
  }

  predicate LegalBet(p: Params, s: State, action: BettingAction)
    requires s.phase.Betting?
  {
    var a, o := Wager(s, s.phase.actor), Wager(s, Other(s.phase.actor));
    match action.kind
    case Check => action.amount == 0 && s.last != Raised
    case Call => action.amount == 0 && s.last == Raised
    case RaiseTo =>
      && a < action.amount <= p.maxWager && o < action.amount
      && (action.amount == p.maxWager || action.amount - o >= MinimumRaise(p, s))
  }

  /** The actor's cumulative wager after a legal bet. */
  function Target(s: State, action: BettingAction): (t: nat)
    requires s.phase.Betting?
  {
    match action.kind
    case Check => Wager(s, s.phase.actor)
    case Call => Wager(s, Other(s.phase.actor))
    case RaiseTo => if action.amount < 0 then 0 else action.amount
  }

  /** The action a wager change stands for. */
  function ActionOf(s: State, after: State): (a: BettingAction)
    requires s.phase.Betting?
  {
    var target := Wager(after, s.phase.actor);
    if target != Wager(s, Other(s.phase.actor)) then BettingAction(RaiseTo, target)
    else if s.last == Raised then BettingAction(Call, 0)
    else BettingAction(Check, 0)
  }

  /** Closing a street leads to the next board reveal, or to showdown after the river. */
  function AfterStreet(street: Street, next: Player): (p: Phase) {
    if street == River then ShowdownReveal(FirstPass, next) else BoardReveal(NextStreet(street), FirstPass, next)
  }

  function AfterBet(p: Params, s: State, target: nat): (t: State)
    requires s.phase.Betting?
  {
    var actor, street, opponent := s.phase.actor, s.phase.street, Other(s.phase.actor);
    var w := WithWager(s, actor, target);
    if target == Wager(s, opponent) then
      if s.last == Start then w.(phase := Betting(street, opponent), last := Checked)
      else w.(phase := AfterStreet(street, opponent), last := Start)
    else
      w.(phase := if target == p.maxWager then AllIn(street, opponent) else Betting(street, opponent), last := Raised)
  }

  predicate StartEqual(s: State) { s.last == Start && s.wager1 == s.wager2 }

  function BoardKind(street: Street): (k: RevealKind)
    requires street != PreFlop
  {
    match street case Flop => FlopCards case Turn => TurnCard case River => RiverCard
  }

  /** What a player who stops betting on `street` still has to publish. */
  function RemainingKind(street: Street): (k: RevealKind) {
    match street case PreFlop => FromFlop case Flop => FromTurn case Turn => FromRiver case River => OwnHoles
  }

  function PublishAs(s: State, r: Reveals, expected: RevealKind, actor: Player, phase: Phase): (a: Option<Applied>)
    requires |s.shares| == SLOTS
  {
    if !Publishable(r, expected) then None
    else Some(Applied(s.(shares := Write(s.shares, KindSlots(expected, actor), KindCards(r)), phase := phase),
                      Proofs(KindCards(r))))
  }

  /** The successor of a move before its deadline is extended, or None where the move is not allowed. */
  function Apply(p: Params, s: State, m: Move): (a: Option<Applied>)
    requires |s.shares| == SLOTS
  {
    match m
    case Fund(r) =>
      if s != InitialState(p) then None else PublishAs(s, r, OpponentHoles, Player1, AwaitOpening)
    case Open(bet, r) =>
      if s.phase != AwaitOpening || s.last != Start || s.wager1 != 0 || s.wager2 != 0 then None
      else if bet < 0 || bet > p.maxWager || (bet != 0 && bet < p.minBet) then None
      else PublishAs(s.(wager2 := bet, last := if bet == 0 then Checked else Raised), r, OpponentHoles, Player2,
                     if bet == p.maxWager then AllIn(PreFlop, Player1) else Betting(PreFlop, Player1))
    case Bet(action) =>
      if !s.phase.Betting? || !BettingHistory(p, s) || !LegalBet(p, s, action) then None
      else Some(Applied(AfterBet(p, s, Target(s, action)), []))
    case RevealBoard(r) =>
      if !s.phase.BoardReveal? || s.phase.street == PreFlop || !StartEqual(s) || s.wager1 >= p.maxWager then None
      else PublishAs(s, r, BoardKind(s.phase.street), s.phase.actor,
                     if s.phase.pass == FirstPass then BoardReveal(s.phase.street, SecondPass, Other(s.phase.actor))
                     else Betting(s.phase.street, Other(s.phase.actor)))
    case RevealHoles(r) =>
      if !s.phase.ShowdownReveal? || !StartEqual(s) || (s.phase.pass == FirstPass && s.wager1 == p.maxWager) then None
      else PublishAs(s, r, OwnHoles, s.phase.actor,
                     if s.phase.pass == FirstPass then ShowdownReveal(SecondPass, Other(s.phase.actor)) else Evaluation)
    case CallAllIn(r) =>
      if !s.phase.AllIn? || s.last != Raised || Wager(s, Other(s.phase.actor)) != p.maxWager
         || Wager(s, s.phase.actor) >= p.maxWager || p.maxWager < 0 then None
      else PublishAs(s.(wager1 := p.maxWager, wager2 := p.maxWager, last := Start), r,
                     RemainingKind(s.phase.street), s.phase.actor,
                     if s.phase.street == River then ShowdownReveal(SecondPass, Other(s.phase.actor))
                     else AllInReveal(NextStreet(s.phase.street), Other(s.phase.actor)))
    case RevealAllIn(r) =>
      if !s.phase.AllInReveal? || s.phase.street == PreFlop || !StartEqual(s) || s.wager1 != p.maxWager then None
      else PublishAs(s, r, RemainingKind(PreviousStreet(s.phase.street)), s.phase.actor, Evaluation)
  }

  function PreviousStreet(s: Street): (q: Street)
    requires s != PreFlop
  {
    match s case Flop => PreFlop case Turn => Flop case River => Turn
  }

  // ---------- Value and funding ----------

  /** Wallet coins added to a spend, and the change they return. */
  datatype Funding = Funding(inputs: seq<int>, change: Option<int>)

  datatype Built = Built(state: State, value: int, funding: Funding, proofs: seq<bytes>)

  function LiveValue(p: Params, s: State): (v: Option<int>) {
    if s.wager1 > p.maxWager || s.wager2 > p.maxWager then None
    else Some(2 * (p.stake + p.bond) + s.wager1 + s.wager2)
  }

  function Total(inputs: seq<int>): (t: Option<int>) {
    if inputs == [] then Some(0)
    else
      var n := |inputs| - 1;
      match Total(inputs[..n])
      case None => None
      case Some(t) => AddAmount(t, inputs[n])
  }

  /** Coins cover the contribution exactly once positive change is returned; no coins without a contribution. */
  predicate FundingCovers(f: Funding, required: int) {
    && AddAmount(0, required).Some?
    && if required == 0 then f.inputs == [] && f.change.None?
       else
         && f.inputs != []
         && Total(f.inputs).Some?
         && (if Total(f.inputs).value == required then f.change.None?
             else Total(f.inputs).value > required && f.change == Some(Total(f.inputs).value - required))
  }

  /** The value the predecessor's covenant output must hold. */
  function RequiredValue(p: Params, s: State): (v: Option<int>) {
    if s.phase == AwaitFunding then Some(p.stake + p.bond) else LiveValue(p, s)
  }

  /** Extends the deadline, fixes the covenant value and admits the funding. */
  function Finish(p: Params, value: int, a: Applied, f: Funding): (b: Option<Built>) {
    if a.state.deadline > MAX_U64 - DEADLINE_INTERVAL then None
    else match LiveValue(p, a.state)
      case None => None
      case Some(next) =>
        if value < 0 || next < value || !FundingCovers(f, next - value) || AddAmount(value, FundedTotal(f)).None?
          then None
        else Some(Built(a.state.(deadline := a.state.deadline + DEADLINE_INTERVAL), next, f, a.proofs))
  }

  /** The whole live spend a move builds on a predecessor holding `value`. */
  function Live(p: Params, s: State, value: int, m: Move, f: Funding): (b: Option<Built>)
    requires |s.shares| == SLOTS
  {
    if s.id != p.id || (s.phase == AwaitFunding) != m.Fund? || RequiredValue(p, s) != Some(value) then None
    else match Apply(p, s, m) case None => None case Some(a) => Finish(p, value, a, f)
  }

  function FundedTotal(f: Funding): (t: int) {
    match Total(f.inputs) case None => -1 case Some(t) => t
  }
}
