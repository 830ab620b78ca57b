/** The betting program and the bet builder agree on every spend. */
module BettingEnforcement {
  import opened Bytes
  import opened Hand
  import opened Codec
  import opened Rules
  import opened Machine
  import opened Pieces
  import opened Preservation
  import opened Betting
  import opened Enforcement
  import opened Options

  /** The betting program's conditions, read off the two states. */
  predicate BetRelation(p: Params, street: Street, actor: Player, before: State, after: State, tx: Spend) {
    var l, a, o, n := ActionByte(before.last), Wager(before, actor), Wager(before, Other(actor)), Wager(after, actor);
    && before.id == p.id && after.id == p.id && before.phase == Betting(street, actor)
    && Wager(after, Other(actor)) == o
    && after.deadline == before.deadline + DEADLINE_INTERVAL
    && HistoryAdmitted(p, LeastAction(street, actor), l, o, a)
    && ValuesAdmitted(p, n, o, a, tx)
    && (n == o || RaiseAdmitted(p, l, n, o, a))
    && ActionByte(after.last) == OutcomeAction(l, n, o)
    && after.phase == OutcomeOf(p, street, actor, l, n, o)
    && after.shares == before.shares
  }

  function OutcomeOf(p: Params, street: Street, actor: Player, l: int, n: int, o: int): (q: Phase) {
    if n == o then (if l == 0 then Phase.Betting(street, Other(actor)) else AfterStreet(street, Other(actor)))
    else if n == p.maxWager then AllIn(street, Other(actor)) else Phase.Betting(street, Other(actor))
  }

  lemma OutcomeByte(p: Params, street: Street, actor: Player, l: int, n: int, o: int, phase: Phase)
    ensures EncodePhase(Phase.Betting(street, actor)) == Some(SourceByte(street, actor))
    ensures var b := OutcomePhase(p, BettingByte(street, actor), ClosingByte(street, actor), l, n, o);
            0 <= b < 256 && DecodePhase(b) == Some(OutcomeOf(p, street, actor, l, n, o))
            && EncodePhase(OutcomeOf(p, street, actor, l, n, o)) == Some(b as byte)
  {
    var q := OutcomeOf(p, street, actor, l, n, o);
    assert EncodePhase(q) == Some(OutcomePhase(p, BettingByte(street, actor), ClosingByte(street, actor), l, n, o));
    DecodeOfEncode(q);
  }

  lemma EnforcedIsRelation(p: Params, street: Street, actor: Player, before: State, after: State, tx: Spend)
    requires |p.id| == 32 && Moves(before, after, tx)
    ensures BettingEnforced(p, street, actor, tx)
      <==> tx.current == 0 && BetRelation(p, street, actor, before, after, tx)
  {
    hide EncodePhase, DecodePhase, Carries, Field, WagerOffset, HeaderFields, HasHeader, SourceByte, BettingByte,
      ClosingByte, OutcomePhase, OutcomeOf, HistoryAdmitted, ValuesAdmitted, RaiseAdmitted, SharesKept, LeastAction,
      ActionByte, OutcomeAction;
    CarriedHeader(SourcePackets(tx), before, p.id);
    CarriedHeader(tx.packets, after, p.id);
    var l, o, n := ActionByte(before.last), Wager(before, Other(actor)), Wager(after, actor);
    OutcomeByte(p, street, actor, l, n, o, after.phase);
    PhaseCodec(after.phase, tx.packets[TYPE_STATE][OFF_PHASE]);
    PhaseCodec(before.phase, SourceByte(street, actor));
    KeptShares([], before, after, tx);
    assert (forall slot: nat | slot < SLOTS :: before.shares[slot] == after.shares[slot])
      <==> before.shares == after.shares;
    PhaseCodec(Phase.Betting(street, actor), SourceByte(street, actor));
    OneByteRange(SourcePackets(tx)[TYPE_STATE], OFF_PHASE, SourceByte(street, actor));
  }

  /** Whatever the relation admits, one of the three betting actions builds. */
  lemma RelationBuilds(p: Params, street: Street, actor: Player, before: State, after: State, tx: Spend)
    requires ValidParams(p) && Moves(before, after, tx) && tx.current == 0
      && BetRelation(p, street, actor, before, after, tx)
    ensures BuildsSpend(p, before, Bet(ActionOf(before, after)),
                   SomeFunding(tx.outputs[0].value - tx.inputs[0].value, |tx.inputs| - 1), after, tx, [])
  {
    hide Carries, Moves, FundingCovers, Zero, SomeFunding, FundedTotal;
    var a, o, n := Wager(before, actor), Wager(before, Other(actor)), Wager(after, actor);
    var action := ActionOf(before, after);
    PotFits(p);
    SomeFundingCovers(tx.inputs[0].value, n - a, |tx.inputs| - 1);
    MovesWell(before, after, tx);
    assert BettingHistory(p, before);
    assert LegalBet(p, before, action) && Target(before, action) == n;
    assert AfterBet(p, before, n).(deadline := after.deadline) == after;
  }

  /** Whatever a betting action builds, the relation admits. */
  lemma BuildsRelation(p: Params, street: Street, actor: Player, before: State, after: State, action: BettingAction,
                       f: Funding, tx: Spend, proofs: seq<bytes>)
    requires ValidParams(p) && Moves(before, after, tx) && before.phase == Phase.Betting(street, actor)
    requires BuildsSpend(p, before, Bet(action), f, after, tx, proofs)
    ensures proofs == [] && tx.current == 0 && BetRelation(p, street, actor, before, after, tx)
  {
    hide Carries, Moves, FundingCovers, FundedTotal;
    MovesWell(before, after, tx);
    PotFits(p);
    var n := Target(before, action);
    assert LegalBet(p, before, action) && BettingHistory(p, before);
    assert after == AfterBet(p, before, n).(deadline := before.deadline + DEADLINE_INTERVAL);
    CoveringCoins(f, tx.outputs[0].value - tx.inputs[0].value);
  }

  /** Headers the program accepts decode, so the spend moves between two states. */
  lemma EnforcedMoves(p: Params, street: Street, actor: Player, tx: Spend) returns (before: State, after: State)
    requires |p.id| == 32 && BettingEnforced(p, street, actor, tx)
    ensures Moves(before, after, tx)
  {
    hide DecodePhase, EncodePhase, Carries, Field, WagerOffset, HasHeader, SourceByte, BettingByte, ClosingByte,
      OutcomePhase, OutcomeOf, ValuesAdmitted, RaiseAdmitted, LeastAction;
    HeaderSized(SourcePackets(tx), p.id);
    HeaderSized(tx.packets, p.id);
    var h, g := SourcePackets(tx)[TYPE_STATE], tx.packets[TYPE_STATE];
    var l, a, o := Field(h, OFF_ACTION, 1), Field(h, WagerOffset(actor), 8), Field(h, WagerOffset(Other(actor)), 8);
    var n := Field(g, WagerOffset(actor), 8);
    OneByteRange(h, OFF_PHASE, SourceByte(street, actor));
    OneByteField(h, OFF_ACTION);
    OneByteField(g, OFF_ACTION);
    OneByteField(g, OFF_PHASE);
    OutcomeByte(p, street, actor, l, n, o, AwaitFunding);
    PhaseCodec(Phase.Betting(street, actor), SourceByte(street, actor));
    StateOfCarries(SourcePackets(tx), p.id);
    StateOfCarries(tx.packets, p.id);
    before, after := StateOf(SourcePackets(tx)), StateOf(tx.packets);
  }

  lemma AcceptedBetIsBuilt(p: Params, street: Street, actor: Player, tx: Spend)
    requires ValidParams(p) && BettingEnforced(p, street, actor, tx)
    ensures SomeBuilder(p, BettingProgram(street, actor), tx, [])
  {
    hide BettingEnforced, BuildsSpend, BetRelation, Moves, SomeBuilder;
    var before, after := EnforcedMoves(p, street, actor, tx);
    EnforcedIsRelation(p, street, actor, before, after, tx);
    RelationPhase(p, street, actor, before, after, tx);
    RelationBuilds(p, street, actor, before, after, tx);
    MovesWell(before, after, tx);
    BetProves(before, ActionOf(before, after), after, tx);
    MakesIsSome(p, BettingProgram(street, actor), before, Bet(ActionOf(before, after)),
                SomeFunding(tx.outputs[0].value - tx.inputs[0].value, |tx.inputs| - 1), after, tx, []);
  }

  /** A bet publishes nothing, so it has nothing to prove. */
  lemma BetProves(before: State, action: BettingAction, after: State, tx: Spend)
    requires before.phase.Betting? && WellFormed(after)
    ensures Proven(before, Bet(action), after, tx, [])
  {
    hide BuildsSpend, Moves;
  }

  lemma BuiltBetIsAccepted(p: Params, street: Street, actor: Player, tx: Spend, proofs: seq<bytes>)
    requires ValidParams(p) && SomeBuilder(p, BettingProgram(street, actor), tx, proofs)
    ensures proofs == [] && BettingEnforced(p, street, actor, tx)
  {
    hide BettingEnforced, BuildsSpend, BetRelation, Moves, SomeBuilder, Proven;
    var before, m, f, after := SomeMakes(p, BettingProgram(street, actor), tx, proofs);
    OnlyBets(p, before, m, f, after, tx, proofs);
    BuildsRelation(p, street, actor, before, after, m.action, f, tx, proofs);
    EnforcedIsRelation(p, street, actor, before, after, tx);
  }

  /** The emitted betting program accepts exactly the spends that the bet builder makes. */
  lemma BettingProgramIsBet(p: Params, street: Street, actor: Player, tx: Spend, proofs: seq<bytes>)
    requires ValidParams(p)
    ensures Accepts(BettingCode(p, street, actor), tx, proofs)
      <==> SomeBuilder(p, BettingProgram(street, actor), tx, proofs)
  {
    hide BettingCode, BettingEnforced, Accepts, SomeBuilder;
    BettingAccepts(p, street, actor, tx, proofs);
    if proofs == [] && BettingEnforced(p, street, actor, tx) {
      AcceptedBetIsBuilt(p, street, actor, tx);
    }
    if SomeBuilder(p, BettingProgram(street, actor), tx, proofs) {
      BuiltBetIsAccepted(p, street, actor, tx, proofs);
    }
  }

  lemma OnlyBets(p: Params, before: State, m: Move, f: Funding, after: State, tx: Spend, proofs: seq<bytes>)
    requires before.phase.Betting? && BuildsSpend(p, before, m, f, after, tx, proofs)
    ensures m.Bet?
  {
  }

  lemma RelationPhase(p: Params, street: Street, actor: Player, before: State, after: State, tx: Spend)
    requires BetRelation(p, street, actor, before, after, tx)
    ensures before.phase == Phase.Betting(street, actor) && tx.outputs != [] && tx.inputs != []
  {
  }
}
