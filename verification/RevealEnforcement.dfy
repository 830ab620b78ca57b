/** The two-pass reveal programs and the reveal builders agree on every spend. */
module RevealEnforcement {
  import opened Bytes
  import opened Hand
  import opened Codec
  import opened Rules
  import opened Runs
  import opened Machine
  import opened Pieces
  import opened Preservation
  import opened RevealPrograms
  import opened Enforcement
  import opened Options

  function PassPhase(board: bool, street: Street, pass: Pass, actor: Player): (q: Phase) {
    if board then BoardReveal(street, pass, actor) else ShowdownReveal(pass, actor)
  }

  function AfterPass(board: bool, street: Street, pass: Pass, actor: Player): (q: Phase) {
    if pass == FirstPass then PassPhase(board, street, SecondPass, Other(actor))
    else if board then Betting(street, Other(actor)) else Evaluation
  }

  function PassKind(board: bool, street: Street): (k: RevealKind)
    requires board ==> street != PreFlop
  {
    if board then BoardKind(street) else OwnHoles
  }

  function FirstByte(board: bool, street: Street, actor: Player): (b: byte)
    requires board ==> street != PreFlop
  {
    if board then 0x0a + 4 * (StreetIndex(street) - 1) + Index(actor) else 0x16 + Index(actor)
  }

  function NextByte(board: bool, street: Street, pass: Pass, actor: Player): (b: byte)
    requires board ==> street != PreFlop
  {
    if board then
      if pass == FirstPass then 0x0a + 4 * (StreetIndex(street) - 1) + 2 + 1 - Index(actor)
      else 4 + 2 * (StreetIndex(street) - 1) + 1 - Index(actor)
    else if pass == FirstPass then 0x18 + 1 - Index(actor) else 0x1a
  }

  /** The code of either program. */
  function RevealPieces(p: Params, board: bool, street: Street, actor: Player): (q: Pieces)
    requires |p.id| == 32 && (board ==> street != PreFlop)
  {
    if board then BoardPieces(p, street, actor) else ShowdownRevealPieces(p, actor)
  }

  /** The phase bytes the emitters compute are the bytes of the phases they stand for. */
  lemma PassBytes(board: bool, street: Street, pass: Pass, actor: Player)
    requires board ==> street != PreFlop
    ensures EncodePhase(PassPhase(board, street, pass, actor))
         == Some(FirstByte(board, street, actor) + (if pass == FirstPass then 0 else 2))
    ensures EncodePhase(AfterPass(board, street, pass, actor)) == Some(NextByte(board, street, pass, actor))
  {
  }

  // ---------- From bytes to states ----------

  /** The state-level reading of what a two-pass program enforces. */
  predicate RevealRelation(p: Params, board: bool, street: Street, actor: Player, pass: Pass, before: State,
                           after: State, tx: Spend) {
    && tx.current == 0 && |tx.inputs| == 1 && before.id == p.id && after.id == p.id
    && before.phase == PassPhase(board, street, pass, actor) && after.phase == AfterPass(board, street, pass, actor)
    && before.last == Start && after.last == Start
    && CapAdmits(p, board, if pass == FirstPass then 0 else 1, before.wager1) && before.wager2 == before.wager1
    && Locks(2 * (Half(p) + before.wager1), tx)
    && after.wager1 == before.wager1 && after.wager2 == before.wager2
    && after.deadline == before.deadline + DEADLINE_INTERVAL
  }

  predicate HeaderEnforced(p: Params, board: bool, street: Street, actor: Player, pass: Pass, tx: Spend)
    requires |p.id| == 32 && (board ==> street != PreFlop)
  {
    && tx.current == 0 && |tx.inputs| == 1 && HasHeader(SourcePackets(tx), HeaderPrefix(p.id))
    && var h := SourcePackets(tx)[TYPE_STATE];
       var w := Field(h, OFF_WAGER1, 8);
       && h[OFF_ACTION..OFF_ACTION + 1] == [0]
       && Field(h, OFF_PHASE, 1) == FirstByte(board, street, actor) + (if pass == FirstPass then 0 else 2)
       && CapAdmits(p, board, if pass == FirstPass then 0 else 1, w) && Field(h, OFF_WAGER2, 8) == w
       && Locks(2 * (Half(p) + w), tx)
       && PassFollows(HeaderPrefix(p.id), NextByte(board, street, pass, actor), h, tx)
  }

  /** The program's conditions, pass by pass. */
  lemma EnforcedByPass(p: Params, board: bool, street: Street, actor: Player, tx: Spend, proofs: seq<bytes>)
    requires |p.id| == 32 && (board ==> street != PreFlop)
    ensures Batch(KindSlots(PassKind(board, street), actor))
    ensures Accepts(Flat(RevealPieces(p, board, street, actor)), tx, proofs)
      <==> SharesPublished(actor, KindSlots(PassKind(board, street), actor), tx, proofs)
           && exists pass :: HeaderEnforced(p, board, street, actor, pass, tx)
  {
    hide Accepts, Flat, TwoPassPieces, HasHeader, CapAdmits, Locks, PassFollows, SharesPublished, KindSlots, Field,
      Batch, HeaderPrefix;
    var slots := KindSlots(PassKind(board, street), actor);
    KindBatches(PassKind(board, street), actor);
    var first, next1, next2 := FirstByte(board, street, actor), NextByte(board, street, FirstPass, actor),
      NextByte(board, street, SecondPass, actor);
    TwoPassAccepts(p, board, actor, slots, first, next1, next2, tx, proofs);
    PublishedCounts(actor, slots, tx, proofs);
    if TwoPassEnforced(p, board, actor, slots, first, next1, next2, tx, proofs) {
      HeaderSized(SourcePackets(tx), p.id);
      var phase := Field(SourcePackets(tx)[TYPE_STATE], OFF_PHASE, 1);
      assert HeaderEnforced(p, board, street, actor, if phase == first then FirstPass else SecondPass, tx);
    }
  }

  lemma HeaderIsRelation(p: Params, board: bool, street: Street, actor: Player, pass: Pass, before: State,
                         after: State, tx: Spend)
    requires |p.id| == 32 && (board ==> street != PreFlop) && Moves(before, after, tx)
    ensures HeaderEnforced(p, board, street, actor, pass, tx)
      <==> RevealRelation(p, board, street, actor, pass, before, after, tx)
  {
    hide EncodePhase, DecodePhase, Carries, Field, HeaderFields, HasHeader, FirstByte, NextByte, CapAdmits, Locks,
      PassPhase, AfterPass, HeaderPrefix;
    CarriedHeader(SourcePackets(tx), before, p.id);
    CarriedHeader(tx.packets, after, p.id);
    var h, g := SourcePackets(tx)[TYPE_STATE], tx.packets[TYPE_STATE];
    CarriedWagers(SourcePackets(tx), before);
    CarriedWagers(tx.packets, after);
    PassBytes(board, street, pass, actor);
    SamePhase(before.phase, PassPhase(board, street, pass, actor));
    SamePhase(after.phase, AfterPass(board, street, pass, actor));
    ActionRange(h, before.last);
    ActionRange(g, after.last);
    SixteenBytes(h, g);
  }

  lemma CarriedWagers(packets: Packets, s: State)
    requires WellFormed(s) && Carries(packets, s)
    ensures Sized(packets, TYPE_STATE, HEADER)
    ensures Field(packets[TYPE_STATE], OFF_WAGER1, 8) == s.wager1
      && Field(packets[TYPE_STATE], OFF_WAGER2, 8) == s.wager2
    ensures packets[TYPE_STATE][OFF_ACTION] == ActionByte(s.last)
  {
    hide EncodePhase, ActionByte, Carries, Field;
    CarriesIsCodec(packets, s);
  }

  lemma ActionRange(h: bytes, last: LastAction)
    requires |h| == HEADER && h[OFF_ACTION] == ActionByte(last)
    ensures h[OFF_ACTION..OFF_ACTION + 1] == [0] <==> last == Start
  {
    OneByteRange(h, OFF_ACTION, 0);
  }

  // ---------- The builders ----------

  function RevealMove(board: bool, r: Reveals): (m: Move) { if board then RevealBoard(r) else RevealHoles(r) }

  /** The guards of the two reveal builders, in one form. */
  lemma ApplyReveal(p: Params, board: bool, street: Street, actor: Player, pass: Pass, s: State, r: Reveals)
    requires WellFormed(s) && s.phase == PassPhase(board, street, pass, actor) && (board ==> street != PreFlop)
    ensures Apply(p, s, RevealMove(board, r))
      == if StartEqual(s) && (if board then s.wager1 < p.maxWager else pass == FirstPass ==> s.wager1 != p.maxWager)
         then PublishAs(s, r, PassKind(board, street), actor, AfterPass(board, street, pass, actor)) else None
    ensures MoveSlots(s, RevealMove(board, r)) == KindSlots(PassKind(board, street), actor)
    ensures RequiredActor(s.phase) == Some(actor)
  {
    hide PublishAs;
  }

  lemma RelationReveals(p: Params, board: bool, street: Street, actor: Player, pass: Pass, before: State, after: State,
                        tx: Spend, proofs: seq<bytes>) returns (r: Reveals)
    requires ValidParams(p) && (board ==> street != PreFlop) && Moves(before, after, tx)
    requires Batch(KindSlots(PassKind(board, street), actor))
    requires RevealRelation(p, board, street, actor, pass, before, after, tx)
    requires SharesPublished(actor, KindSlots(PassKind(board, street), actor), tx, proofs)
    ensures BuildsSpend(p, before, RevealMove(board, r), Funding([], None), after, tx, proofs)
    ensures Proven(before, RevealMove(board, r), after, tx, proofs)
  {
    hide Apply, PublishAs, KindSlots, SharesPublished, Carries, SharesProven, MoveSlots, Batch;
    r := PublishedBuilds(before, after, before, PassKind(board, street), actor, AfterPass(board, street, pass, actor),
                         tx, proofs);
    ApplyReveal(p, board, street, actor, pass, before, r);
    SpendUnfolds(p, before, RevealMove(board, r), Funding([], None), after, tx, proofs);
    PotFits(p);
  }

  lemma RevealsRelation(p: Params, board: bool, street: Street, actor: Player, pass: Pass, before: State, after: State,
                        r: Reveals, f: Funding, tx: Spend, proofs: seq<bytes>)
    requires ValidParams(p) && (board ==> street != PreFlop) && Moves(before, after, tx)
    requires before.phase == PassPhase(board, street, pass, actor) && Batch(KindSlots(PassKind(board, street), actor))
    requires BuildsSpend(p, before, RevealMove(board, r), f, after, tx, proofs)
      && Proven(before, RevealMove(board, r), after, tx, proofs)
    ensures RevealRelation(p, board, street, actor, pass, before, after, tx)
    ensures SharesPublished(actor, KindSlots(PassKind(board, street), actor), tx, proofs)
  {
    hide Apply, KindSlots, SharesPublished, Carries, SharesProven, MoveSlots, Batch, Publishable, Write, Proofs;
    ApplyReveal(p, board, street, actor, pass, before, r);
    SpendUnfolds(p, before, RevealMove(board, r), f, after, tx, proofs);
    CoveringCoins(f, tx.outputs[0].value - tx.inputs[0].value);
    BuiltIsPublished(before, after, before, r, PassKind(board, street), actor, AfterPass(board, street, pass, actor),
                     tx, proofs);
  }

  lemma OnlyReveals(p: Params, board: bool, street: Street, actor: Player, pass: Pass, before: State, m: Move,
                    f: Funding, after: State, tx: Spend, proofs: seq<bytes>) returns (r: Reveals)
    requires before.phase == PassPhase(board, street, pass, actor) && BuildsSpend(p, before, m, f, after, tx, proofs)
    ensures (board ==> street != PreFlop) && m == RevealMove(board, r)
  {
    r := m.shares;
  }

  /** Headers a reveal program accepts decode, so the spend moves between two states. */
  lemma EnforcedMoves(p: Params, board: bool, street: Street, actor: Player, pass: Pass, tx: Spend)
    returns (before: State, after: State)
    requires |p.id| == 32 && (board ==> street != PreFlop) && HeaderEnforced(p, board, street, actor, pass, tx)
    requires HasShares(SourcePackets(tx)) && HasShares(tx.packets)
    ensures Moves(before, after, tx)
  {
    hide DecodePhase, EncodePhase, Carries, Field, HasHeader, FirstByte, NextByte, PassPhase, AfterPass, CapAdmits,
      Locks;
    HeaderSized(SourcePackets(tx), p.id);
    HeaderSized(tx.packets, p.id);
    var h, g := SourcePackets(tx)[TYPE_STATE], tx.packets[TYPE_STATE];
    OneByteField(h, OFF_PHASE);
    OneByteField(g, OFF_PHASE);
    OneByteRange(h, OFF_ACTION, 0);
    OneByteRange(g, OFF_ACTION, 0);
    PassBytes(board, street, pass, actor);
    PhaseCodec(PassPhase(board, street, pass, actor), h[OFF_PHASE]);
    PhaseCodec(AfterPass(board, street, pass, actor), g[OFF_PHASE]);
    StateOfCarries(SourcePackets(tx), p.id);
    StateOfCarries(tx.packets, p.id);
    before, after := StateOf(SourcePackets(tx)), StateOf(tx.packets);
  }

  function RevealProgram(board: bool, street: Street, actor: Player): (program: Program) {
    if board then BoardProgram(street, actor) else HolesProgram(actor)
  }

  lemma ServedPass(board: bool, street: Street, actor: Player, phase: Phase)
    ensures ProgramOf(phase) == Some(RevealProgram(board, street, actor))
      <==> exists pass :: phase == PassPhase(board, street, pass, actor)
  {
    if ProgramOf(phase) == Some(RevealProgram(board, street, actor)) {
      assert phase == PassPhase(board, street, phase.pass, actor);
    }
  }

  /** The emitted board and showdown reveal programs accept exactly the spends that the reveal builders make. */
  lemma RevealProgramIsReveal(p: Params, board: bool, street: Street, actor: Player, tx: Spend, proofs: seq<bytes>)
    requires ValidParams(p) && (board ==> street != PreFlop)
    ensures Accepts(Flat(RevealPieces(p, board, street, actor)), tx, proofs)
      <==> SomeBuilder(p, RevealProgram(board, street, actor), tx, proofs)
  {
    hide RevealPieces, HeaderEnforced, Accepts, BuildsSpend, Proven, RevealRelation, Moves, PassPhase, ProgramOf, Batch,
      KindSlots, SharesPublished, HasShares;
    EnforcedByPass(p, board, street, actor, tx, proofs);
    var slots := KindSlots(PassKind(board, street), actor);
    if Accepts(Flat(RevealPieces(p, board, street, actor)), tx, proofs) {
      var pass :| HeaderEnforced(p, board, street, actor, pass, tx);
      PublishedCounts(actor, slots, tx, proofs);
      var before, after := EnforcedMoves(p, board, street, actor, pass, tx);
      HeaderIsRelation(p, board, street, actor, pass, before, after, tx);
      RelationPhase(p, board, street, actor, pass, before, after, tx);
      ServedPass(board, street, actor, before.phase);
      var r := RelationReveals(p, board, street, actor, pass, before, after, tx, proofs);
      MakesIsSome(p, RevealProgram(board, street, actor), before, RevealMove(board, r), Funding([], None), after, tx,
                  proofs);
    }
    if SomeBuilder(p, RevealProgram(board, street, actor), tx, proofs) {
      var before, m, f, after := SomeMakes(p, RevealProgram(board, street, actor), tx, proofs);
      ServedPass(board, street, actor, before.phase);
      var pass :| before.phase == PassPhase(board, street, pass, actor);
      var r := OnlyReveals(p, board, street, actor, pass, before, m, f, after, tx, proofs);
      RevealsRelation(p, board, street, actor, pass, before, after, r, f, tx, proofs);
      HeaderIsRelation(p, board, street, actor, pass, before, after, tx);
    }
  }

  lemma RelationPhase(p: Params, board: bool, street: Street, actor: Player, pass: Pass, before: State, after: State,
                      tx: Spend)
    requires RevealRelation(p, board, street, actor, pass, before, after, tx)
    ensures before.phase == PassPhase(board, street, pass, actor)
  {
  }
}
