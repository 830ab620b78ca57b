/** The seven live programs together: each enforces its builder, and a chain of accepted spends is a run of the hand. */
module Programs {
  import opened Bytes
  import opened Hand
  import opened Codec
  import opened Rules
  import opened Runs
  import opened Machine
  import opened Pieces
  import Betting
  import BettingEnforcement
  import RevealPrograms
  import RevealEnforcement
  import AllInPrograms
  import AllInEnforcement
  import FundingPrograms
  import FundingEnforcement
  import opened Enforcement
  import opened Options

  /** Board and last-reveal programs exist from the flop on. */
  predicate Emitted(program: Program) {
    match program
    case BoardProgram(street, _) => street != PreFlop
    case LastRevealProgram(street, _) => street != PreFlop
    case _ => true
  }

  function PiecesOf(p: Params, program: Program): (q: Pieces)
    requires ValidParams(p) && Emitted(program)
  {
    match program
    case FundingProgram => FundingPrograms.FundingPieces(p)
    case OpeningProgram => FundingPrograms.OpeningPieces(p)
    case BettingProgram(street, actor) => Betting.BettingPieces(p, street, actor)
    case BoardProgram(street, actor) => RevealPrograms.BoardPieces(p, street, actor)
    case HolesProgram(actor) => RevealPrograms.ShowdownRevealPieces(p, actor)
    case CallProgram(street, actor) => AllInPrograms.CallPieces(p, street, actor)
    case LastRevealProgram(street, actor) => AllInPrograms.LastRevealPieces(p, street, actor)
  }

  /** Every live program accepts exactly the spends that an action builder makes from a state it serves. */
  lemma EveryProgramIsItsBuilder(p: Params, program: Program, tx: Spend, proofs: seq<bytes>)
    requires ValidParams(p) && Emitted(program)
    ensures Accepts(Flat(PiecesOf(p, program)), tx, proofs) <==> SomeBuilder(p, program, tx, proofs)
  {
    hide Accepts, SomeBuilder, ValidParams;
    match program
    case FundingProgram => FundingEnforcement.FundingProgramIsFunding(p, tx, proofs);
    case OpeningProgram => FundingEnforcement.OpeningProgramIsOpening(p, tx, proofs);
    case BettingProgram(street, actor) => BettingEnforcement.BettingProgramIsBet(p, street, actor, tx, proofs);
    case BoardProgram(street, actor) => RevealEnforcement.RevealProgramIsReveal(p, true, street, actor, tx, proofs);
    case HolesProgram(actor) => RevealEnforcement.RevealProgramIsReveal(p, false, Flop, actor, tx, proofs);
    case CallProgram(street, actor) => AllInEnforcement.CapProgramIsCap(p, true, street, actor, tx, proofs);
    case LastRevealProgram(street, actor) => AllInEnforcement.CapProgramIsCap(p, false, street, actor, tx, proofs);
  }

  // ---------- Packets of other kinds ----------

  /** A spend a program accepts can be read as a state exactly when it carries no packet of another kind. */
  lemma AcceptedIsReadable(p: Params, program: Program, tx: Spend, proofs: seq<bytes>)
    requires ValidParams(p) && Emitted(program) && Accepts(Flat(PiecesOf(p, program)), tx, proofs)
    ensures DecodeState(tx.packets).Some? <==> OnlyKnown(tx.packets)
  {
    hide Accepts, SomeBuilder, BuildsSpend, Proven, Carries, WellFormed, DecodeState;
    EveryProgramIsItsBuilder(p, program, tx, proofs);
    var before, m, f, after := SomeMakes(p, program, tx, proofs);
    StateCodec(tx.packets, after);
    if DecodeState(tx.packets).Some? {
      StateCodec(tx.packets, DecodeState(tx.packets).value);
    }
  }

  /** The programs look at the four packets of a state and no further: with another packet beside them an accepted spend
      is still accepted, and no longer read. */
  lemma ForeignPacketPasses(p: Params, program: Program, tx: Spend, proofs: seq<bytes>, kind: int, b: bytes)
    requires ValidParams(p) && Emitted(program) && Accepts(Flat(PiecesOf(p, program)), tx, proofs)
    requires !(TYPE_STATE <= kind <= TYPE_STATE + 3) && kind != TYPE_EMULATOR
    ensures var more := tx.(packets := tx.packets[kind := b]);
      Accepts(Flat(PiecesOf(p, program)), more, proofs) && DecodeState(more.packets).None?
  {
    hide Accepts, SomeBuilder, Makes, DecodeState;
    var more := tx.(packets := tx.packets[kind := b]);
    EveryProgramIsItsBuilder(p, program, tx, proofs);
    var before, m, f, after := SomeMakes(p, program, tx, proofs);
    MakesStill(p, program, before, m, f, after, tx, proofs, kind, b);
    MakesIsSome(p, program, before, m, f, after, more, proofs);
    EveryProgramIsItsBuilder(p, program, more, proofs);
    AcceptedIsReadable(p, program, more, proofs);
    assert kind in more.packets;
  }

  lemma MakesStill(p: Params, program: Program, before: State, m: Move, f: Funding, after: State, tx: Spend,
                   proofs: seq<bytes>, kind: int, b: bytes)
    requires Makes(p, program, before, m, f, after, tx, proofs) && !(TYPE_STATE <= kind <= TYPE_STATE + 3)
    ensures Makes(p, program, before, m, f, after, tx.(packets := tx.packets[kind := b]), proofs)
  {
    hide Live, SharesProven, WellFormed, EncodeHeader, SharePacket, ProgramOf;
    var more := tx.(packets := tx.packets[kind := b]);
    SameOracle(before, m, after, tx, more, proofs);
    StillCarries(tx.packets, kind, b, after);
  }

  lemma StillCarries(packets: Packets, kind: int, b: bytes, s: State)
    requires WellFormed(s) && Carries(packets, s) && !(TYPE_STATE <= kind <= TYPE_STATE + 3)
    ensures Carries(packets[kind := b], s)
  {
    hide WellFormed, EncodeHeader, SharePacket;
  }

  lemma SameOracle(before: State, m: Move, after: State, tx: Spend, other: Spend, proofs: seq<bytes>)
    requires Proven(before, m, after, tx, proofs) && other.shareValid == tx.shareValid
    ensures Proven(before, m, after, other, proofs)
  {
    hide MoveSlots;
  }

  // ---------- Chains of spends ----------

  /** One spend of the covenant, the program that let it through and the witness it was given. */
  datatype Link = Link(tx: Spend, program: Program, proofs: seq<bytes>)

  predicate Admitted(p: Params, link: Link)
    requires ValidParams(p)
  {
    Emitted(link.program) && Accepts(Flat(PiecesOf(p, link.program)), link.tx, link.proofs)
  }

  /** Each spend consumes the covenant output its predecessor created, starting from the initial deposit. */
  predicate Chained(p: Params, chain: seq<Link>)
    requires ValidParams(p)
  {
    && (forall k | 0 <= k < |chain| :: Admitted(p, chain[k]))
    && (chain != [] ==> chain[0].program == FundingProgram)
    && (forall k | 0 <= k < |chain| - 1 :: SourcePackets(chain[k + 1].tx) == chain[k].tx.packets)
  }

  /** The run whose states the chain's packets carry. */
  predicate Follows(chain: seq<Link>, run: Run) {
    && |run.moves| == |chain| && |run.states| == |chain| + 1
    && (forall k | 0 <= k < |chain| :: Moves(run.states[k], run.states[k + 1], chain[k].tx))
  }

  lemma SpendIsStep(p: Params, before: State, m: Move, f: Funding, after: State, tx: Spend, proofs: seq<bytes>)
    requires BuildsSpend(p, before, m, f, after, tx, proofs)
    ensures |before.shares| == SLOTS && Builds(p, before, m, f, after)
    ensures Held(p, before) == tx.inputs[0].value && LiveValue(p, after) == Some(tx.outputs[0].value)
  {
    hide Apply, FundingCovers, FundedTotal, AddAmount;
  }

  lemma AwaitingIsInitial(p: Params, before: State, m: Move, f: Funding, after: State, tx: Spend, proofs: seq<bytes>)
    requires BuildsSpend(p, before, m, f, after, tx, proofs) && before.phase == AwaitFunding
    ensures before == InitialState(p)
  {
  }

  function Extend(run: Run, t: State, m: Move, f: Funding): (longer: Run) {
    Run(run.states + [t], run.moves + [m], run.fundings + [f])
  }

  lemma ExtendedRun(p: Params, run: Run, t: State, m: Move, f: Funding)
    requires ValidRun(p, run) && |run.states[|run.states| - 1].shares| == SLOTS
    requires Builds(p, run.states[|run.states| - 1], m, f, t)
    ensures ValidRun(p, Extend(run, t, m, f))
  {
    var longer := Extend(run, t, m, f);
    forall i | 0 <= i < |longer.moves|
      ensures |longer.states[i].shares| == SLOTS
      ensures Builds(p, longer.states[i], longer.moves[i], longer.fundings[i], longer.states[i + 1])
    {
      if i < |run.moves| {
        assert Builds(p, run.states[i], run.moves[i], run.fundings[i], run.states[i + 1]);
      }
    }
  }

  /** The builder behind an admitted spend. */
  lemma AdmittedStep(p: Params, link: Link) returns (before: State, after: State, m: Move, f: Funding)
    requires ValidParams(p) && Admitted(p, link)
    ensures Moves(before, after, link.tx) && ProgramOf(before.phase) == Some(link.program)
    ensures BuildsSpend(p, before, m, f, after, link.tx, link.proofs)
  {
    hide Accepts, Moves, BuildsSpend, Proven, PiecesOf;
    EveryProgramIsItsBuilder(p, link.program, link.tx, link.proofs);
    before, after, m, f :|
      Moves(before, after, link.tx) && ProgramOf(before.phase) == Some(link.program)
      && BuildsSpend(p, before, m, f, after, link.tx, link.proofs) && Proven(before, m, after, link.tx, link.proofs);
  }

  /** The state a chain's last link spends is where the run so far ends. */
  lemma NextSource(p: Params, chain: seq<Link>, shorter: Run, before: State, after: State, m: Move, f: Funding)
    requires ValidParams(p) && Chained(p, chain) && chain != []
    requires shorter.states != [] && shorter.states[0] == InitialState(p) && Follows(chain[..|chain| - 1], shorter)
    requires var link := chain[|chain| - 1];
      Moves(before, after, link.tx) && ProgramOf(before.phase) == Some(link.program)
      && BuildsSpend(p, before, m, f, after, link.tx, link.proofs)
    ensures shorter.states[|chain| - 1] == before
  {
    hide Admitted, Moves, BuildsSpend, ValidParams, InitialState;
    var n := |chain| - 1;
    if n == 0 {
      AwaitingIsInitial(p, before, m, f, after, chain[n].tx, chain[n].proofs);
    } else {
      var prefix := chain[..n];
      assert Moves(shorter.states[n - 1], shorter.states[n - 1 + 1], prefix[n - 1].tx);
      assert SourcePackets(chain[n - 1 + 1].tx) == chain[n - 1].tx.packets;
      LinkedStates(shorter.states[n - 1], shorter.states[n], chain[n - 1].tx, before, after, chain[n].tx);
    }
  }

  /** Whatever the programs let through on chain is a run of the hand: nobody can leave the rules. */
  lemma {:induction false} ChainIsRun(p: Params, chain: seq<Link>) returns (run: Run)
    requires ValidParams(p) && Chained(p, chain)
    ensures ValidRun(p, run) && Follows(chain, run)
  {
    hide Admitted, Moves, BuildsSpend, Builds, InitialState;
    if chain == [] {
      run := Run([InitialState(p)], [], []);
    } else {
      var n := |chain| - 1;
      var shorter := ChainIsRun(p, chain[..n]);
      var before, after, m, f := AdmittedStep(p, chain[n]);
      SpendIsStep(p, before, m, f, after, chain[n].tx, chain[n].proofs);
      NextSource(p, chain, shorter, before, after, m, f);
      ExtendedRun(p, shorter, after, m, f);
      run := Extend(shorter, after, m, f);
      ExtendedFollows(chain[..n], chain[n], shorter, after, m, f);
      assert chain == chain[..n] + [chain[n]];
    }
  }

  lemma ExtendedFollows(chain: seq<Link>, link: Link, run: Run, t: State, m: Move, f: Funding)
    requires Follows(chain, run) && Moves(run.states[|chain|], t, link.tx)
    ensures Follows(chain + [link], Extend(run, t, m, f))
  {
    hide Moves;
    var longer, all := Extend(run, t, m, f), chain + [link];
    forall k | 0 <= k < |all| ensures Moves(longer.states[k], longer.states[k + 1], all[k].tx) {
      if k < |chain| {
        assert Moves(run.states[k], run.states[k + 1], chain[k].tx);
      }
    }
  }

  lemma LinkedStates(s: State, t: State, tx: Spend, before: State, after: State, next: Spend)
    requires Moves(s, t, tx) && Moves(before, after, next) && SourcePackets(next) == tx.packets
    ensures t == before
  {
    hide Carries;
    FundingEnforcement.SameCarried(tx.packets, t, before);
  }

  /** On chain, from the initial deposit on: every carried state keeps the hand's invariant, locks its exact value,
      and the chain has a bounded number of raises and spends. */
  lemma ChainsAreSafe(p: Params, chain: seq<Link>) returns (run: Run)
    requires ValidParams(p) && Chained(p, chain)
    ensures ValidRun(p, run) && Follows(chain, run)
    ensures forall k | 0 <= k <= |chain| ::
      Inv(p, run.states[k]) && run.states[k].deadline == p.initialDeadline + DEADLINE_INTERVAL * k
    ensures (Raises(run.moves) - 1) * p.minBet < p.maxWager && |chain| <= LAST_STAGE + Raises(run.moves)
  {
    run := ChainIsRun(p, chain);
    forall k | 0 <= k <= |chain|
      ensures Inv(p, run.states[k]) && run.states[k].deadline == p.initialDeadline + DEADLINE_INTERVAL * k
    {
      RunKeepsInv(p, run, k);
    }
    HandsAreFinite(p, run);
  }
}
