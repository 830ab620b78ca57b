/** How a hand ends on chain: whatever the programs accept pays out exactly what the hand put in. */
module Settlement {
  import opened Bytes
  import opened Hand
  import opened Codec
  import opened Rules
  import opened Runs
  import opened Terminals
  import opened Machine
  import opened Pieces
  import opened Enforcement
  import opened Programs
  import opened TerminalPrograms
  import ShowdownProgram
  import FundingEnforcement
  import opened Options

  datatype Exit = Concede(actor: Player) | TimeOut(beneficiary: Player) | ShowDown

  function ExitPieces(p: Params, payees: Payees, exit: Exit): (q: Pieces)
    requires |p.id| == 32
  {
    match exit
    case Concede(actor) => ConcessionPieces(p, payees, actor)
    case TimeOut(beneficiary) => TimeoutPieces(p, payees, beneficiary)
    case ShowDown => ShowdownProgram.ShowdownPieces(p, payees)
  }

  function TimedOut(exit: Exit): (player: Option<Player>) {
    if exit.TimeOut? then Some(Other(exit.beneficiary)) else None
  }

  /** The covenant output a chain has reached: the initial deposit, or what its last spend created. */
  predicate Reached(p: Params, chain: seq<Link>, packets: Packets, value: int)
    requires ValidParams(p)
  {
    if chain == [] then Carries(packets, InitialState(p)) && value == p.stake + p.bond
    else
      var last := chain[|chain| - 1].tx;
      |last.outputs| > 0 && packets == last.packets && value == last.outputs[0].value
  }

  /** The exit spends the covenant output the chain has reached. */
  predicate Ends(p: Params, payees: Payees, chain: seq<Link>, exit: Exit, tx: Spend, w: seq<bytes>)
    requires ValidParams(p)
  {
    && Chained(p, chain) && Accepts(Flat(ExitPieces(p, payees, exit)), tx, w)
    && |tx.inputs| > 0 && Reached(p, chain, SourcePackets(tx), tx.inputs[0].value)
  }

  /** The state reached is a reachable one, and the covenant output holds exactly its value. */
  lemma LastState(p: Params, chain: seq<Link>, packets: Packets, value: int) returns (s: State)
    requires ValidParams(p) && Chained(p, chain) && Reached(p, chain, packets, value)
    ensures Inv(p, s) && WellFormed(s) && Carries(packets, s) && Held(p, s) == value
  {
    hide Carries, Inv, Accepts, InitialState;
    if chain == [] {
      s := InitialState(p);
      InitialInv(p);
      InitialHeld(p);
    } else {
      var n := |chain| - 1;
      var run := ChainsAreSafe(p, chain);
      s := run.states[n + 1];
      assert Moves(run.states[n], run.states[n + 1], chain[n].tx);
      var before, after, m, f := AdmittedStep(p, chain[n]);
      SpendIsStep(p, before, m, f, after, chain[n].tx, chain[n].proofs);
      FundingEnforcement.SameCarried(chain[n].tx.packets, s, after);
      SpendPhase(p, before, m, f, after, chain[n].tx, chain[n].proofs);
    }
  }

  lemma InitialHeld(p: Params)
    requires ValidParams(p)
    ensures Held(p, InitialState(p)) == p.stake + p.bond && WellFormed(InitialState(p))
  {
  }

  lemma SpendPhase(p: Params, before: State, m: Move, f: Funding, after: State, tx: Spend, proofs: seq<bytes>)
    requires BuildsSpend(p, before, m, f, after, tx, proofs)
    ensures after.phase != AwaitFunding && |tx.outputs| > 0
  {
  }

  lemma ExitPhaseIs(p: Params, s: State, tx: Spend)
    requires ValidParams(p) && WellFormed(s) && Carries(SourcePackets(tx), s)
    ensures ExitPhase(p, tx).Some? ==> ExitPhase(p, tx).value == s.phase
  {
    hide Carries, DecodePhase, EncodePhase, HeaderPrefix, Field, ActionByte;
    CarriedHeader(SourcePackets(tx), s, p.id);
    PhaseCodec(s.phase, SourcePackets(tx)[TYPE_STATE][OFF_PHASE]);
  }

  /** Every settlement any exit program accepts, of the initial deposit or after any chain of accepted spends, pays out
      exactly what the covenant holds, and everyone who has not timed out gets at least the bond back. */
  lemma SettlementsConserve(p: Params, payees: Payees, chain: seq<Link>, exit: Exit, tx: Spend, w: seq<bytes>)
    returns (s: State, payouts: seq<Payout>)
    requires ValidParams(p) && Ends(p, payees, chain, exit, tx, w)
    ensures Inv(p, s) && WellFormed(s) && Carries(SourcePackets(tx), s) && tx.inputs[0].value == Held(p, s)
    ensures Pays(payees, payouts, tx) && Conserves(p, s, payouts, TimedOut(exit))
  {
    hide Accepts, Carries, Pays, Conserves, Inv, Chained, Reached;
    s := LastState(p, chain, SourcePackets(tx), tx.inputs[0].value);
    HeldInRange(p, s);
    match exit
    case Concede(actor) =>
      ConcessionProgramIsConcession(p, payees, actor, tx, w);
      ExitPhaseIs(p, s, tx);
      ConcessionConserves(p, s);
      payouts := ConcessionPayouts(p, s.phase, Held(p, s)).value;
    case TimeOut(beneficiary) =>
      TimeoutProgramIsTimeout(p, payees, beneficiary, tx, w);
      ExitPhaseIs(p, s, tx);
      TimeoutConserves(p, s);
      payouts := TimeoutPayouts(s.phase, Held(p, s)).value;
    case ShowDown =>
      payouts := ShowdownConserved(p, payees, s, tx, w);
  }

  lemma ShowdownConserved(p: Params, payees: Payees, s: State, tx: Spend, w: seq<bytes>) returns (payouts: seq<Payout>)
    requires ValidParams(p) && Inv(p, s) && WellFormed(s) && Carries(SourcePackets(tx), s)
    requires Accepts(Flat(ShowdownProgram.ShowdownPieces(p, payees)), tx, w)
    requires |tx.inputs| > 0 && tx.inputs[0].value == Held(p, s)
    ensures Pays(payees, payouts, tx) && Conserves(p, s, payouts, None)
  {
    hide Accepts, Carries, Pays, Conserves, Inv, ShowdownClaim;
    ShowdownProgram.ShowdownProgramIsShowdown(p, payees, tx, w);
    var t :| ShowdownProgram.EvaluatedState(p, t, tx)
      && ShowdownPayouts(p, t, tx.inputs[0].value, w[6], LittleEndian(w[0]), LittleEndian(w[3])).Some?
      && Pays(payees, ShowdownPayouts(p, t, tx.inputs[0].value, w[6], LittleEndian(w[0]), LittleEndian(w[3])).value,
              tx);
    FundingEnforcement.SameCarried(SourcePackets(tx), s, t);
    ShowdownConserves(p, s, w[6], LittleEndian(w[0]), LittleEndian(w[3]));
    payouts := ShowdownPayouts(p, s, Held(p, s), w[6], LittleEndian(w[0]), LittleEndian(w[3])).value;
  }
}
