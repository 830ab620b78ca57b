/** What every hand keeps: the history each phase stands for, the published slots, and an end. */
module Runs {
  import opened Bytes
  import opened Hand
  import opened Rules
  import opened Options

  // ---------- The run invariant ----------

  /** How wagers and the last action relate in each phase. */
  predicate WagersFit(p: Params, s: State) {
    match s.phase
    case AwaitFunding => s.last == Start && s.wager1 == 0 == s.wager2
    case AwaitOpening => s.last == Start && s.wager1 == 0 == s.wager2
    case Betting(_, _) => BettingHistory(p, s)
    case AllIn(_, actor) => s.last == Raised && Wager(s, Other(actor)) == p.maxWager && Wager(s, actor) < p.maxWager
    case BoardReveal(_, _, _) => StartEqual(s) && s.wager1 < p.maxWager
    case ShowdownReveal(pass, _) =>
      StartEqual(s) && s.wager1 <= p.maxWager && (pass == FirstPass ==> s.wager1 < p.maxWager)
    case AllInReveal(_, _) => StartEqual(s) && s.wager1 == p.maxWager
    case Evaluation => StartEqual(s) && s.wager1 <= p.maxWager
  }

  /** Opening slots and both players' board slots, up to and including `street`. */
  predicate Dealt(street: Street, slot: nat) {
    match street
    case PreFlop => slot < 4
    case Flop => slot < 10
    case Turn => slot < 12
    case River => slot < 14
  }

  predicate InOwn(p: Player, slot: nat) { 14 + 2 * Index(p) <= slot < 16 + 2 * Index(p) }

  predicate InBoard(p: Player, street: Street, slot: nat) {
    match street
    case PreFlop => false
    case Flop => 4 + 3 * Index(p) <= slot < 7 + 3 * Index(p)
    case Turn => slot == 10 + Index(p)
    case River => slot == 12 + Index(p)
  }

  /** Membership in `KindSlots`, as ranges. */
  predicate InKind(kind: RevealKind, p: Player, slot: nat) {
    match kind
    case OpponentHoles => 2 - 2 * Index(p) <= slot < 4 - 2 * Index(p)
    case OwnHoles => InOwn(p, slot)
    case FlopCards => InBoard(p, Flop, slot)
    case TurnCard => InBoard(p, Turn, slot)
    case RiverCard => InBoard(p, River, slot)
    case FromFlop => InBoard(p, Flop, slot) || InBoard(p, Turn, slot) || InBoard(p, River, slot) || InOwn(p, slot)
    case FromTurn => InBoard(p, Turn, slot) || InBoard(p, River, slot) || InOwn(p, slot)
    case FromRiver => InBoard(p, River, slot) || InOwn(p, slot)
  }

  lemma KindSlotsAre(kind: RevealKind, p: Player, slot: nat)
    ensures slot in KindSlots(kind, p) <==> InKind(kind, p, slot)
  {
    hide OwnSlots, BoardSlots, OpponentSlots, InOwn, InBoard;
    OwnSlotsAre(p, slot);
    BoardSlotsAre(p, Flop, slot);
    BoardSlotsAre(p, Turn, slot);
    BoardSlotsAre(p, River, slot);
  }

  lemma OwnSlotsAre(p: Player, slot: nat)
    ensures slot in OwnSlots(p) <==> InOwn(p, slot)
    ensures slot in OpponentSlots(p) <==> 2 - 2 * Index(p) <= slot < 4 - 2 * Index(p)
  {
  }

  lemma BoardSlotsAre(p: Player, street: Street, slot: nat)
    ensures slot in BoardSlots(p, street) <==> InBoard(p, street, slot)
  {
  }

  /** Exactly the slots published when the hand is in `phase`. */
  predicate Due(phase: Phase, slot: nat) {
    match phase
    case AwaitFunding => false
    case AwaitOpening => InKind(OpponentHoles, Player1, slot)
    case Betting(street, _) => Dealt(street, slot)
    case AllIn(street, _) => Dealt(street, slot)
    case BoardReveal(street, pass, actor) =>
      street != PreFlop
      && (Dealt(PreviousStreet(street), slot) || (pass == SecondPass && InBoard(Other(actor), street, slot)))
    case ShowdownReveal(pass, actor) => Dealt(River, slot) || (pass == SecondPass && InOwn(Other(actor), slot))
    case AllInReveal(street, actor) =>
      street != PreFlop
      && (Dealt(PreviousStreet(street), slot) || InKind(RemainingKind(PreviousStreet(street)), Other(actor), slot))
    case Evaluation => slot < SLOTS
  }

  predicate SlotsFit(s: State)
    requires |s.shares| == SLOTS
  {
    forall i: nat | i < SLOTS :: IsPublished(s, i) <==> Due(s.phase, i)
  }

  predicate Inv(p: Params, s: State) {
    && WellFormed(s) && s.id == p.id
    && EncodePhase(s.phase).Some?
    && (s.phase == AwaitFunding ==> s == InitialState(p))
    && WagersFit(p, s)
    && SlotsFit(s)
  }

  /** The covenant value of a state: the deposit alone before Player1 funds, everything staked afterwards. */
  function Held(p: Params, s: State): (v: int) {
    if s.phase == AwaitFunding then p.stake + p.bond else 2 * (p.stake + p.bond) + s.wager1 + s.wager2
  }

  /** In every reachable state the covenant holds an amount of money that nothing can overflow. */
  lemma HeldInRange(p: Params, s: State)
    requires ValidParams(p) && Inv(p, s)
    ensures 0 < p.bond < Held(p, s) <= MAX_MONEY
  {
  }

  lemma InitialInv(p: Params)
    requires ValidParams(p)
    ensures Inv(p, InitialState(p))
  {
  }

  // ---------- Every move keeps it ----------

  /** The kind of witness a move publishes, if any. */
  function MoveKind(s: State, m: Move): (k: Option<RevealKind>) {
    match m
    case Fund(_) => Some(OpponentHoles)
    case Open(_, _) => Some(OpponentHoles)
    case Bet(_) => None
    case RevealBoard(_) =>
      if s.phase.BoardReveal? && s.phase.street != PreFlop then Some(BoardKind(s.phase.street)) else None
    case RevealHoles(_) => Some(OwnHoles)
    case CallAllIn(_) => if s.phase.AllIn? then Some(RemainingKind(s.phase.street)) else None
    case RevealAllIn(_) =>
      if s.phase.AllInReveal? && s.phase.street != PreFlop then Some(RemainingKind(PreviousStreet(s.phase.street)))
        else None
  }

  /** The slots a move publishes from `s`. */
  function MoveSlots(s: State, m: Move): (slots: seq<nat>)
    ensures forall i | 0 <= i < |slots| :: slots[i] < SLOTS
  {
    match (MoveKind(s, m), RequiredActor(s.phase))
    case (Some(k), Some(actor)) => KindSlots(k, actor)
    case _ => []
  }

  /** The witness of a publishing move. */
  function RevealsOf(m: Move): (r: Reveals)
    requires !m.Bet?
  {
    match m
    case Fund(r) => r
    case Open(_, r) => r
    case RevealBoard(r) => r
    case RevealHoles(r) => r
    case CallAllIn(r) => r
    case RevealAllIn(r) => r
  }

  lemma PublicationWrites(s: State, r: Reveals, kind: RevealKind, actor: Player, phase: Phase)
    requires |s.shares| == SLOTS && PublishAs(s, r, kind, actor, phase).Some?
    ensures Publishable(r, kind) && |KindCards(r)| == |KindSlots(kind, actor)|
    ensures PublishAs(s, r, kind, actor, phase).value.state.shares
      == Write(s.shares, KindSlots(kind, actor), KindCards(r))
    ensures PublishAs(s, r, kind, actor, phase).value.proofs == Proofs(KindCards(r))
  {
  }

  /** Writing encodable cards into distinct slots publishes exactly those. */
  lemma WritesFit(shares: seq<bytes>, slots: seq<nat>, cards: seq<CardReveal>)
    requires |shares| == SLOTS && |slots| == |cards| && forall i | 0 <= i < SLOTS :: |shares[i]| == SHARE
    requires forall i | 0 <= i < |slots| :: slots[i] < SLOTS && cards[i].Share? && Encodable(cards[i])
    requires forall i, j | 0 <= i < j < |slots| :: slots[i] != slots[j]
    ensures var w := Write(shares, slots, cards);
      && (forall i | 0 <= i < SLOTS :: |w[i]| == SHARE)
      && (forall i: nat | i < SLOTS :: w[i] != BLANK <==> shares[i] != BLANK || i in slots)
      && (forall i: nat | i < SLOTS && i !in slots :: w[i] == shares[i])
  {
    hide WriteFirst;
    WriteAt(|slots|, shares, slots, cards);
    assert slots[..|slots|] == slots;
    forall i: nat | i < SLOTS && i in slots
      ensures |Write(shares, slots, cards)[i]| == SHARE && Write(shares, slots, cards)[i] != BLANK
    {
      var j :| 0 <= j < |slots| && slots[j] == i;
      assert Encodable(cards[j]);
    }
  }

  /** The phases a publication can lead to. */
  predicate PublishesInto(phase: Phase, kind: RevealKind, next: Phase) {
    match phase
    case AwaitFunding => kind == OpponentHoles && next == AwaitOpening
    case AwaitOpening => kind == OpponentHoles && next in {Betting(PreFlop, Player1), AllIn(PreFlop, Player1)}
    case Betting(_, _) => false
    case BoardReveal(street, pass, a) =>
      street != PreFlop && kind == BoardKind(street)
      && next == if pass == FirstPass then BoardReveal(street, SecondPass, Other(a)) else Betting(street, Other(a))
    case ShowdownReveal(pass, a) =>
      kind == OwnHoles && next == if pass == FirstPass then ShowdownReveal(SecondPass, Other(a)) else Evaluation
    case AllIn(street, a) =>
      kind == RemainingKind(street)
      && next == if street == River then ShowdownReveal(SecondPass, Other(a))
      else AllInReveal(NextStreet(street), Other(a))
    case AllInReveal(street, _) =>
      street != PreFlop && kind == RemainingKind(PreviousStreet(street)) && next == Evaluation
    case Evaluation => false
  }

  lemma PublishingAdvances(phase: Phase, kind: RevealKind, next: Phase, slot: nat)
    requires PublishesInto(phase, kind, next) && slot < SLOTS
    ensures Due(next, slot) <==> Due(phase, slot) || InKind(kind, RequiredActor(phase).value, slot)
    ensures !(Due(phase, slot) && InKind(kind, RequiredActor(phase).value, slot))
  {
  }

  lemma MovePublishes(p: Params, s: State, m: Move)
    requires Inv(p, s) && Apply(p, s, m).Some?
    ensures var next := Apply(p, s, m).value.state.phase;
      if m.Bet? then MoveKind(s, m).None? && forall i: nat | i < SLOTS :: Due(next, i) <==> Due(s.phase, i)
      else MoveKind(s, m).Some? && RequiredActor(s.phase).Some? && PublishesInto(s.phase, MoveKind(s, m).value, next)
  {
  }

  /** A move's slots are all unpublished before it, and with them the next phase is exactly due. */
  lemma SlotsAdvance(p: Params, s: State, m: Move, slot: nat)
    requires Inv(p, s) && Apply(p, s, m).Some? && slot < SLOTS
    ensures Due(Apply(p, s, m).value.state.phase, slot) <==> Due(s.phase, slot) || slot in MoveSlots(s, m)
    ensures !(Due(s.phase, slot) && slot in MoveSlots(s, m))
  {
    MovePublishes(p, s, m);
    var k := MoveKind(s, m);
    if k.Some? {
      KindSlotsAre(k.value, RequiredActor(s.phase).value, slot);
      PublishingAdvances(s.phase, k.value, Apply(p, s, m).value.state.phase, slot);
    }
  }

  lemma BetAdvances(p: Params, s: State, action: BettingAction)
    requires ValidParams(p) && s.phase.Betting? && BettingHistory(p, s) && LegalBet(p, s, action)
    ensures var t := AfterBet(p, s, Target(s, action));
      WagersFit(p, t) && EncodePhase(t.phase).Some? && t.phase != AwaitFunding && t.wager1 <= p.maxWager
        && t.wager2 <= p.maxWager
  {
  }

  lemma WagersAdvance(p: Params, s: State, m: Move)
    requires ValidParams(p) && Inv(p, s) && Apply(p, s, m).Some?
    ensures var t := Apply(p, s, m).value.state;
      WagersFit(p, t) && EncodePhase(t.phase).Some? && t.phase != AwaitFunding && t.id == s.id
        && t.deadline == s.deadline
      && t.wager1 <= p.maxWager && t.wager2 <= p.maxWager
  {
    hide Publishable, KindCards, KindSlots, Write, Proofs, SlotsFit;
    if m.Bet? {
      BetAdvances(p, s, m.action);
    }
  }

  predicate Wide(s: State) { |s.shares| == SLOTS && forall i | 0 <= i < SLOTS :: |s.shares[i]| == SHARE }

  /** `t` differs from `s` only in the listed slots, which it publishes. */
  predicate Publishes(s: State, slots: seq<nat>, t: State)
    requires |s.shares| == SLOTS == |t.shares|
  {
    && (forall i: nat | i < SLOTS :: IsPublished(t, i) <==> IsPublished(s, i) || i in slots)
    && (forall i: nat | i < SLOTS && i !in slots :: t.shares[i] == s.shares[i])
  }

  /** A publishing move writes its witness's cards into its slots. */
  lemma MoveWrites(p: Params, s: State, m: Move)
    requires Inv(p, s) && !m.Bet? && Apply(p, s, m).Some?
    ensures MoveKind(s, m).Some? && RequiredActor(s.phase).Some?
    ensures var kind, cards := MoveKind(s, m).value, KindCards(RevealsOf(m));
      var slots := KindSlots(kind, RequiredActor(s.phase).value);
      && Publishable(RevealsOf(m), kind) && |cards| == |slots| && MoveSlots(s, m) == slots
      && Apply(p, s, m).value.state.shares == Write(s.shares, slots, cards)
      && Apply(p, s, m).value.proofs == Proofs(cards)
  {
    hide PublishAs, Publishable, KindCards, KindSlots, Write, Proofs, WagersFit, SlotsFit, EncodePhase, PublishesInto;
    MovePublishes(p, s, m);
    var phase := s.phase;
    match m
    case Fund(r) => PublicationWrites(s, r, OpponentHoles, Player1, AwaitOpening);
    case Open(bet, r) =>
      PublicationWrites(s.(wager2 := bet, last := if bet == 0 then Checked else Raised), r, OpponentHoles, Player2,
                        if bet == p.maxWager then AllIn(PreFlop, Player1) else Betting(PreFlop, Player1));
    case RevealBoard(r) =>
      PublicationWrites(s, r, BoardKind(phase.street), phase.actor,
                        if phase.pass == FirstPass then BoardReveal(phase.street, SecondPass, Other(phase.actor))
                        else Betting(phase.street, Other(phase.actor)));
    case RevealHoles(r) =>
      PublicationWrites(s, r, OwnHoles, phase.actor,
                        if phase.pass == FirstPass then ShowdownReveal(SecondPass, Other(phase.actor)) else Evaluation);
    case CallAllIn(r) =>
      PublicationWrites(s.(wager1 := p.maxWager, wager2 := p.maxWager, last := Start), r, RemainingKind(phase.street),
                        phase.actor, Apply(p, s, m).value.state.phase);
    case RevealAllIn(r) =>
      PublicationWrites(s, r, RemainingKind(PreviousStreet(phase.street)), phase.actor, Evaluation);
  }

  lemma BetPublishesNothing(p: Params, s: State, m: Move)
    requires |s.shares| == SLOTS && m.Bet? && Apply(p, s, m).Some?
    ensures Apply(p, s, m).value.state.shares == s.shares && MoveSlots(s, m) == []
  {
  }

  lemma SharesAdvance(p: Params, s: State, m: Move)
    requires ValidParams(p) && Inv(p, s) && Apply(p, s, m).Some?
    ensures var t, slots := Apply(p, s, m).value.state, MoveSlots(s, m);
      Wide(t) && Publishes(s, slots, t)
  {
    hide Apply, PublishAs, KindCards, KindSlots, MoveSlots, MoveKind, RevealsOf, Write, Proofs, WagersFit, SlotsFit,
      EncodePhase, Encodable;
    if m.Bet? {
      BetPublishesNothing(p, s, m);
    } else {
      MoveWrites(p, s, m);
      var r := RevealsOf(m);
      EncodableIsShare(r);
      WritesFit(s.shares, MoveSlots(s, m), KindCards(r));
    }
  }

  lemma EncodableIsShare(r: Reveals)
    ensures forall i | 0 <= i < |KindCards(r)| && Encodable(KindCards(r)[i]) :: KindCards(r)[i].Share?
  {
  }

  lemma SlotsStayFit(p: Params, s: State, m: Move)
    requires ValidParams(p) && Inv(p, s) && Apply(p, s, m).Some?
    requires Wide(Apply(p, s, m).value.state) && Publishes(s, MoveSlots(s, m), Apply(p, s, m).value.state)
    ensures SlotsFit(Apply(p, s, m).value.state)
    ensures forall i: nat | i < SLOTS && i in MoveSlots(s, m) :: !IsPublished(s, i)
  {
    forall i: nat | i < SLOTS
      ensures Due(Apply(p, s, m).value.state.phase, i) <==> IsPublished(s, i) || i in MoveSlots(s, m)
      ensures i in MoveSlots(s, m) ==> !IsPublished(s, i)
    {
      SlotsAdvance(p, s, m, i);
    }
  }

  lemma MoveSlotsOwned(s: State, m: Move)
    ensures forall i: nat | i < SLOTS && i in MoveSlots(s, m) :: Some(SlotPublisher(i)) == RequiredActor(s.phase)
  {
  }

  lemma DeadlineKeepsFit(p: Params, s: State, deadline: nat)
    requires |s.shares| == SLOTS
    ensures WagersFit(p, s.(deadline := deadline)) == WagersFit(p, s)
    ensures SlotsFit(s.(deadline := deadline)) == SlotsFit(s)
  {
  }

  /** One move keeps the whole invariant, writes only its own unpublished slots and fixes the covenant value. */
  lemma MoveKeepsInv(p: Params, s: State, held: int, m: Move, f: Funding)
    requires ValidParams(p) && Inv(p, s) && Live(p, s, held, m, f).Some?
    ensures var b, slots := Live(p, s, held, m, f).value, MoveSlots(s, m);
      && Inv(p, b.state) && Publishes(s, slots, b.state)
      && held == Held(p, s) && b.value == Held(p, b.state)
      && b.state.deadline == s.deadline + DEADLINE_INTERVAL
      && (forall i: nat | i < SLOTS && i in slots ::
          !IsPublished(s, i) && Some(SlotPublisher(i)) == RequiredActor(s.phase))
  {
    hide Apply, WagersFit, SlotsFit, MoveSlots, FundingCovers, EncodePhase;
    WagersAdvance(p, s, m);
    SharesAdvance(p, s, m);
    SlotsStayFit(p, s, m);
    MoveSlotsOwned(s, m);
    DeadlineKeepsFit(p, Apply(p, s, m).value.state, s.deadline + DEADLINE_INTERVAL);
  }

  // ---------- Whole runs ----------

  /** A hand played from the initial deposit: each state is what the builders make of the one before. */
  datatype Run = Run(states: seq<State>, moves: seq<Move>, fundings: seq<Funding>)

  predicate Builds(p: Params, s: State, m: Move, f: Funding, t: State)
    requires |s.shares| == SLOTS
  {
    var b := Live(p, s, Held(p, s), m, f);
    b.Some? && b.value.state == t
  }

  predicate ValidRun(p: Params, run: Run) {
    && |run.states| == |run.moves| + 1 == |run.fundings| + 1
    && run.states[0] == InitialState(p)
    && (forall i | 0 <= i < |run.moves| ::
          |run.states[i].shares| == SLOTS
          && Builds(p, run.states[i], run.moves[i], run.fundings[i], run.states[i + 1]))
  }

  lemma StepKeepsInv(p: Params, s: State, m: Move, f: Funding, t: State)
    requires ValidParams(p) && Inv(p, s) && Builds(p, s, m, f, t)
    ensures Inv(p, t) && t.deadline == s.deadline + DEADLINE_INTERVAL
  {
    MoveKeepsInv(p, s, Held(p, s), m, f);
  }

  /** Every state of every run satisfies the invariant, and its deadline counts its moves. */
  lemma {:induction false} RunKeepsInv(p: Params, run: Run, i: nat)
    requires ValidParams(p) && ValidRun(p, run) && i < |run.states|
    ensures Inv(p, run.states[i])
    ensures run.states[i].deadline == p.initialDeadline + DEADLINE_INTERVAL * i
  {
    hide Inv, Builds;
    if i == 0 {
      InitialInv(p);
    } else {
      RunKeepsInv(p, run, i - 1);
      assert Builds(p, run.states[i - 1], run.moves[i - 1], run.fundings[i - 1], run.states[i - 1 + 1]);
      StepKeepsInv(p, run.states[i - 1], run.moves[i - 1], run.fundings[i - 1], run.states[i]);
    }
  }

  /** `t` repeats every share published in `s`. */
  predicate KeepsShares(s: State, t: State)
    requires |s.shares| == SLOTS
  {
    |t.shares| == SLOTS && forall i: nat | i < SLOTS && IsPublished(s, i) :: t.shares[i] == s.shares[i]
  }

  lemma StepKeepsShares(p: Params, s: State, m: Move, f: Funding, t: State)
    requires ValidParams(p) && Inv(p, s) && Builds(p, s, m, f, t)
    ensures KeepsShares(s, t)
  {
    MoveKeepsInv(p, s, Held(p, s), m, f);
  }

  lemma {:induction false} KeptAlong(states: seq<State>, i: nat, j: nat)
    requires i <= j < |states|
    requires forall k | 0 <= k < |states| :: |states[k].shares| == SLOTS
    requires forall k | 0 <= k < |states| - 1 :: KeepsShares(states[k], states[k + 1])
    ensures KeepsShares(states[i], states[j])
    decreases j - i
  {
    if i < j {
      KeptAlong(states, i, j - 1);
      assert KeepsShares(states[j - 1], states[j - 1 + 1]);
    }
  }

  /** A share, once published, is never written again. */
  lemma PublishedForever(p: Params, run: Run, i: nat, j: nat)
    requires ValidParams(p) && ValidRun(p, run) && i <= j < |run.states|
    ensures |run.states[i].shares| == SLOTS && KeepsShares(run.states[i], run.states[j])
  {
    forall k | 0 <= k < |run.states|
      ensures |run.states[k].shares| == SLOTS
    {
      RunKeepsInv(p, run, k);
    }
    forall k | 0 <= k < |run.moves|
      ensures KeepsShares(run.states[k], run.states[k + 1])
    {
      RunKeepsInv(p, run, k);
      assert Builds(p, run.states[k], run.moves[k], run.fundings[k], run.states[k + 1]);
      StepKeepsShares(p, run.states[k], run.moves[k], run.fundings[k], run.states[k + 1]);
    }
    KeptAlong(run.states, i, j);
  }

  // ---------- The hand ends ----------

  /** An opening bet or a raise. */
  predicate IsRaise(m: Move) {
    (m.Open? && m.bet != 0) || (m.Bet? && m.action.kind == RaiseTo)
  }

  function Raises(moves: seq<Move>): (n: nat)
    ensures n <= |moves|
  {
    if moves == [] then 0
    else Raises(moves[..|moves| - 1]) + if IsRaise(moves[|moves| - 1]) then 1 else 0
  }

  function Top(s: State): (w: nat) { if s.wager1 >= s.wager2 then s.wager1 else s.wager2 }

  function StreetBase(street: Street): (n: nat) {
    match street case PreFlop => 1 case Flop => 5 case Turn => 9 case River => 13
  }

  const LAST_STAGE: nat := 17

  /** How far the hand has come, not counting raises within a street. */
  function Stage(s: State): (n: nat)
    ensures n <= LAST_STAGE
  {
    match s.phase
    case AwaitFunding => 0
    case AwaitOpening => 1
    case Betting(street, _) => StreetBase(street) + if s.last == Start then 0 else 1
    case AllIn(street, _) => StreetBase(street) + 1
    case BoardReveal(street, pass, _) =>
      if street == PreFlop then 0 else StreetBase(street) - if pass == FirstPass then 2 else 1
    case ShowdownReveal(pass, _) => if pass == FirstPass then 15 else 16
    case AllInReveal(_, _) => 16
    case Evaluation => 17
  }

  /** A raise lifts the top wager by at least the minimum bet or to the cap; any other move advances the stage. */
  predicate Progress(p: Params, s: State, raise: bool, t: State) {
    && Stage(s) + (if raise then 0 else 1) <= Stage(t)
    && Top(s) <= Top(t) <= p.maxWager
    && (raise ==> Top(s) < p.maxWager && (Top(t) >= Top(s) + p.minBet || Top(t) == p.maxWager))
  }

  lemma BetProgresses(p: Params, s: State, action: BettingAction)
    requires ValidParams(p) && s.phase.Betting? && BettingHistory(p, s) && LegalBet(p, s, action)
    ensures Progress(p, s, action.kind == RaiseTo, AfterBet(p, s, Target(s, action)))
  {
  }

  lemma MoveProgresses(p: Params, s: State, m: Move)
    requires ValidParams(p) && Inv(p, s) && Apply(p, s, m).Some?
    ensures Progress(p, s, IsRaise(m), Apply(p, s, m).value.state)
  {
    hide Publishable, KindCards, KindSlots, Write, Proofs, SlotsFit, EncodePhase;
    if m.Bet? {
      BetProgresses(p, s, m.action);
    } else {
      WagersAdvance(p, s, m);
    }
  }

  /** A number that every move lowers. */
  function Measure(p: Params, s: State): (n: int) {
    (LAST_STAGE - Stage(s)) * (p.maxWager + 1) + (p.maxWager - Top(s))
  }

  lemma ProgressLowersTheMeasure(p: Params, s: State, raise: bool, t: State)
    requires ValidParams(p) && Progress(p, s, raise, t) && Top(s) <= p.maxWager
    ensures 0 <= Measure(p, t) < Measure(p, s)
  {
    LexicographicDrop(LAST_STAGE - Stage(t), LAST_STAGE - Stage(s), p.maxWager + 1, p.maxWager - Top(t),
                      p.maxWager - Top(s));
  }

  lemma LexicographicDrop(a: int, b: int, width: int, x: int, y: int)
    requires 0 <= a <= b && 0 <= x < width && 0 <= y < width && (a < b || x < y)
    ensures 0 <= a * width + x < b * width + y
  {
    assert a * width >= 0;
    if a < b {
      assert a * width + width == (a + 1) * width <= b * width;
    }
  }

  /** Every built move lowers the measure, so no hand goes on forever. */
  lemma EveryMoveLowersTheMeasure(p: Params, s: State, m: Move)
    requires ValidParams(p) && Inv(p, s) && Apply(p, s, m).Some?
    ensures 0 <= Measure(p, Apply(p, s, m).value.state) < Measure(p, s)
  {
    MoveProgresses(p, s, m);
    ProgressLowersTheMeasure(p, s, IsRaise(m), Apply(p, s, m).value.state);
  }

  lemma StepProgresses(p: Params, s: State, m: Move, f: Funding, t: State)
    requires ValidParams(p) && Inv(p, s) && Builds(p, s, m, f, t)
    ensures Progress(p, s, IsRaise(m), t)
  {
    MoveProgresses(p, s, m);
    DeadlineDoesNotMatter(p, s, IsRaise(m), Apply(p, s, m).value.state, t);
  }

  lemma DeadlineDoesNotMatter(p: Params, s: State, raise: bool, a: State, t: State)
    requires Progress(p, s, raise, a) && t == a.(deadline := t.deadline)
    ensures Progress(p, s, raise, t)
  {
  }

  lemma {:induction false} CountRaises(p: Params, states: seq<State>, moves: seq<Move>, i: nat)
    requires ValidParams(p) && |states| == |moves| + 1 && i < |states|
    requires Top(states[0]) == 0
    requires forall k | 0 <= k < |moves| :: Progress(p, states[k], IsRaise(moves[k]), states[k + 1])
    ensures i <= Stage(states[i]) + Raises(moves[..i])
    ensures var n, top := Raises(moves[..i]), Top(states[i]);
      top <= p.maxWager && (n * p.minBet <= top || top == p.maxWager) && (n - 1) * p.minBet < p.maxWager
  {
    hide Stage, Top, IsRaise, ValidParams;
    CapIsPositive(p);
    if i == 0 {
      assert moves[..0] == [] && Raises([]) == 0;
    } else {
      CountRaises(p, states, moves, i - 1);
      assert moves[..i][..i - 1] == moves[..i - 1];
      assert Progress(p, states[i - 1], IsRaise(moves[i - 1]), states[i - 1 + 1]);
      RaiseCounts(Raises(moves[..i - 1]), IsRaise(moves[i - 1]), Top(states[i - 1]), Top(states[i]), p.minBet,
                  p.maxWager);
    }
  }

  lemma CapIsPositive(p: Params)
    requires ValidParams(p)
    ensures 0 < p.minBet <= p.maxWager
  {
  }

  lemma RaiseCounts(n: nat, raise: bool, top: int, next: int, minBet: int, cap: int)
    requires 0 < minBet && top <= next <= cap && (n * minBet <= top || top == cap) && (n - 1) * minBet < cap
    requires raise ==> top < cap && (next >= top + minBet || next == cap)
    ensures var m := if raise then n + 1 else n;
      (m * minBet <= next || next == cap) && (m - 1) * minBet < cap
  {
    assert (n + 1) * minBet == n * minBet + minBet;
  }

  /** At most ceil(maxWager / minBet) raises, the opening bet included, and so a bounded hand. */
  lemma HandsAreFinite(p: Params, run: Run)
    requires ValidParams(p) && ValidRun(p, run)
    ensures (Raises(run.moves) - 1) * p.minBet < p.maxWager
    ensures |run.moves| <= LAST_STAGE + Raises(run.moves)
  {
    forall k | 0 <= k < |run.moves|
      ensures Progress(p, run.states[k], IsRaise(run.moves[k]), run.states[k + 1])
    {
      RunKeepsInv(p, run, k);
      assert Builds(p, run.states[k], run.moves[k], run.fundings[k], run.states[k + 1]);
      StepProgresses(p, run.states[k], run.moves[k], run.fundings[k], run.states[k + 1]);
    }
    CountRaises(p, run.states, run.moves, |run.moves|);
    assert run.moves[..|run.moves|] == run.moves;
  }

  // ---------- Nobody gets stuck ----------

  /** Coins of exactly the required amount. */
  function ExactFunding(amount: int): (f: Funding) {
    if amount == 0 then Funding([], None) else Funding([amount], None)
  }

  lemma ExactFundingCovers(p: Params, held: int, amount: int)
    requires 0 <= amount && 0 <= held && held + amount <= MAX_MONEY
    ensures FundingCovers(ExactFunding(amount), amount) && AddAmount(held, FundedTotal(ExactFunding(amount))).Some?
  {
    if amount != 0 {
      assert [amount][..0] == [];
      assert Total([amount]) == AddAmount(0, amount);
    }
  }

  /** Some move of the obligated player, given cards it can encode. */
  function AnyMove(s: State, c: CardReveal): (m: Move) {
    var holes := Reveals(OwnHoles, c, c, Absent, Absent, Absent, Absent, Absent);
    match s.phase
    case AwaitFunding => Fund(holes.(kind := OpponentHoles))
    case AwaitOpening => Open(0, holes.(kind := OpponentHoles))
    case Betting(_, _) => Bet(BettingAction(if s.last == Raised then Call else Check, 0))
    case BoardReveal(street, _, _) =>
      RevealBoard(
        match street
        case Turn => Reveals(TurnCard, Absent, Absent, Absent, Absent, Absent, c, Absent)
        case River => Reveals(RiverCard, Absent, Absent, Absent, Absent, Absent, Absent, c)
        case _ => Reveals(FlopCards, Absent, Absent, c, c, c, Absent, Absent))
    case ShowdownReveal(_, _) => RevealHoles(holes)
    case AllIn(street, _) => CallAllIn(AnyRemaining(street, c))
    case AllInReveal(street, _) =>
      RevealAllIn(AnyRemaining(if street == PreFlop then PreFlop else PreviousStreet(street), c))
    case Evaluation => RevealHoles(holes)
  }

  function AnyRemaining(street: Street, c: CardReveal): (r: Reveals) {
    match street
    case PreFlop => Reveals(FromFlop, c, c, c, c, c, c, c)
    case Flop => Reveals(FromTurn, c, c, Absent, Absent, Absent, c, c)
    case Turn => Reveals(FromRiver, c, c, Absent, Absent, Absent, Absent, c)
    case River => Reveals(OwnHoles, c, c, Absent, Absent, Absent, Absent, Absent)
  }

  lemma AnyMoveApplies(p: Params, s: State, c: CardReveal)
    requires ValidParams(p) && Inv(p, s) && Encodable(c) && !s.phase.Evaluation?
    ensures Apply(p, s, AnyMove(s, c)).Some?
  {
  }

  lemma ValueGrows(p: Params, s: State, m: Move)
    requires ValidParams(p) && Inv(p, s) && Apply(p, s, m).Some?
    ensures var v := LiveValue(p, Apply(p, s, m).value.state); v.Some? && 0 <= Held(p, s) <= v.value <= MAX_MONEY
  {
    hide SlotsFit, EncodePhase, Publishable, KindCards, KindSlots, Write, Proofs;
    WagersAdvance(p, s, m);
    MoveProgresses(p, s, m);
  }

  lemma AnyMoveFits(p: Params, s: State, c: CardReveal)
    requires ValidParams(p) && Inv(p, s)
    ensures (s.phase == AwaitFunding) == AnyMove(s, c).Fund? && RequiredValue(p, s) == Some(Held(p, s)) && s.id == p.id
      && |s.shares| == SLOTS
  {
    hide SlotsFit;
  }

  /** Before evaluation the obligated player always has a move, until the deadline field is exhausted. */
  lemma NoDeadlock(p: Params, s: State, c: CardReveal)
    requires ValidParams(p) && Inv(p, s) && Encodable(c) && !s.phase.Evaluation?
    requires s.deadline <= MAX_U64 - DEADLINE_INTERVAL
    ensures exists m, f :: Live(p, s, Held(p, s), m, f).Some?
  {
    hide Apply, Inv, AnyMove, FundingCovers, Held, LiveValue, RequiredValue;
    AnyMoveFits(p, s, c);
    AnyMoveApplies(p, s, c);
    var m := AnyMove(s, c);
    WagersAdvance(p, s, m);
    var t := Apply(p, s, m).value.state;
    ValueGrows(p, s, m);
    ExactFundingCovers(p, Held(p, s), LiveValue(p, t).value - Held(p, s));
    assert Live(p, s, Held(p, s), m, ExactFunding(LiveValue(p, t).value - Held(p, s))).Some?;
  }
}
