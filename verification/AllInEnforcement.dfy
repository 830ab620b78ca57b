/** The all-in programs and the all-in builders agree on every spend. */
module AllInEnforcement {
  import opened Bytes
  import opened Hand
  import opened Codec
  import opened Rules
  import opened Runs
  import opened Machine
  import opened Pieces
  import opened Preservation
  import opened RevealPrograms
  import opened AllInPrograms
  import opened Enforcement
  import opened Options

  function CapPhase(call: bool, street: Street, actor: Player): (q: Phase) {
    if call then AllIn(street, actor) else AllInReveal(street, actor)
  }

  function AfterCap(call: bool, street: Street, actor: Player): (q: Phase) {
    if !call then Evaluation
    else if street == River then ShowdownReveal(SecondPass, Other(actor))
    else AllInReveal(NextStreet(street), Other(actor))
  }

  function CapKind(call: bool, street: Street): (k: RevealKind)
    requires !call ==> street != PreFlop
  {
    if call then RemainingKind(street) else RemainingKind(PreviousStreet(street))
  }

  function CapByte(call: bool, street: Street, actor: Player): (b: byte)
    requires !call ==> street != PreFlop
  {
    if call then 0x1c + 2 * StreetIndex(street) + Index(actor) else 0x24 + 2 * (StreetIndex(street) - 1) + Index(actor)
  }

  function AfterCapByte(call: bool, street: Street, actor: Player): (b: byte) {
    if call then (if street == River then 0x18 else 0x24 + 2 * StreetIndex(street)) + 1 - Index(actor) else 0x1a
  }

  function CapProgram(call: bool, street: Street, actor: Player): (program: Program) {
    if call then CallProgram(street, actor) else LastRevealProgram(street, actor)
  }

  /** The code of either program. */
  function CapPieces(p: Params, call: bool, street: Street, actor: Player): (q: Pieces)
    requires ValidParams(p) && (!call ==> street != PreFlop)
  {
    if call then CallPieces(p, street, actor) else LastRevealPieces(p, street, actor)
  }

  lemma CapBytes(call: bool, street: Street, actor: Player)
    requires !call ==> street != PreFlop
    ensures EncodePhase(CapPhase(call, street, actor)) == Some(CapByte(call, street, actor))
    ensures EncodePhase(AfterCap(call, street, actor)) == Some(AfterCapByte(call, street, actor))
  {
  }

  // ---------- From bytes to states ----------

  predicate CapRelation(p: Params, call: bool, street: Street, actor: Player, before: State, after: State, tx: Spend) {
    && tx.current == 0 && before.id == p.id && after.id == p.id
    && before.phase == CapPhase(call, street, actor) && after.phase == AfterCap(call, street, actor)
    && before.last == (if call then Raised else Start) && after.last == Start
    && (if call then |tx.inputs| > 1 else |tx.inputs| == 1)
    && Wager(before, Other(actor)) == p.maxWager
    && (if call then Wager(before, actor) < p.maxWager else Wager(before, actor) == p.maxWager)
    && |tx.inputs| > 0 && tx.inputs[0].value == Wager(before, actor) + 2 * Half(p) + p.maxWager
    && |tx.outputs| > 0 && tx.outputs[0].value == 2 * (Half(p) + p.maxWager) && ScriptKept(tx)
    && after.wager1 == p.maxWager && after.wager2 == p.maxWager
    && after.deadline == before.deadline + DEADLINE_INTERVAL
  }

  lemma CapRange(p: Params, h: bytes, o: nat)
    requires ValidParams(p) && o + 8 <= |h|
    ensures h[o..o + 8] == Cap(p) <==> Field(h, o, 8) == p.maxWager
  {
    hide ToLittleEndian;
    PotFits(p);
    ReadU64(p.maxWager);
    FieldWritten(h, o);
  }

  lemma TwoByteRange(h: bytes, a: byte, b: byte)
    requires |h| == HEADER
    ensures h[OFF_PHASE..OFF_PHASE + 2] == [a, b] <==> h[OFF_PHASE] == a && h[OFF_ACTION] == b
  {
    assert h[OFF_PHASE..OFF_PHASE + 2] == [h[OFF_PHASE], h[OFF_ACTION]];
  }

  predicate HeaderEnforced(p: Params, call: bool, street: Street, actor: Player, tx: Spend)
    requires ValidParams(p) && (!call ==> street != PreFlop)
  {
    && tx.current == 0 && (if call then |tx.inputs| > 1 else |tx.inputs| == 1)
    && HasHeader(SourcePackets(tx), HeaderPrefix(p.id))
    && var h := SourcePackets(tx)[TYPE_STATE];
       && h[OFF_PHASE..OFF_PHASE + 2] == [CapByte(call, street, actor), if call then 2 else 0]
       && (if call then CallAdmitted(p, actor, h, tx) else CappedAdmitted(p, h, tx))
       && Opens(HeaderPrefix(p.id), AfterCapByte(call, street, actor), tx)
       && WagersFollow(p, call, h, tx.packets[TYPE_STATE])
       && Field(tx.packets[TYPE_STATE], OFF_DEADLINE, 8) == Field(h, OFF_DEADLINE, 8) + DEADLINE_INTERVAL
  }

  lemma HeaderAndShares(p: Params, call: bool, street: Street, actor: Player, tx: Spend, proofs: seq<bytes>)
    requires ValidParams(p) && (!call ==> street != PreFlop)
    ensures Batch(KindSlots(CapKind(call, street), actor))
    ensures Accepts(Flat(CapPieces(p, call, street, actor)), tx, proofs)
      <==> HeaderEnforced(p, call, street, actor, tx)
           && SharesPublished(actor, KindSlots(CapKind(call, street), actor), tx, proofs)
  {
    hide Accepts, Flat, AllInPieces, HasHeader, CallAdmitted, CappedAdmitted, Opens, WagersFollow, SharesPublished,
      KindSlots, Field, Batch, HeaderPrefix;
    var slots := KindSlots(CapKind(call, street), actor);
    KindBatches(CapKind(call, street), actor);
    AllInAccepts(p, call, actor, slots, CapByte(call, street, actor), AfterCapByte(call, street, actor), tx, proofs);
    PublishedCounts(actor, slots, tx, proofs);
  }

  lemma HeaderIsRelation(p: Params, call: bool, street: Street, actor: Player, before: State, after: State, tx: Spend)
    requires ValidParams(p) && (!call ==> street != PreFlop) && Moves(before, after, tx)
    ensures HeaderEnforced(p, call, street, actor, tx) <==> CapRelation(p, call, street, actor, before, after, tx)
  {
    hide EncodePhase, DecodePhase, Carries, Field, HeaderFields, HasHeader, CapByte, AfterCapByte, CapPhase, AfterCap,
      Cap, HeaderPrefix, ScriptKept, ValidAmounts;
    CarriedHeader(SourcePackets(tx), before, p.id);
    CarriedHeader(tx.packets, after, p.id);
    var h, g := SourcePackets(tx)[TYPE_STATE], tx.packets[TYPE_STATE];
    assert Field(h, WagerOffset(Player1), 8) == before.wager1 && Field(h, WagerOffset(Player2), 8) == before.wager2;
    assert Field(g, WagerOffset(Player1), 8) == after.wager1 && Field(g, WagerOffset(Player2), 8) == after.wager2;
    OneByteField(h, OFF_ACTION);
    OneByteField(g, OFF_ACTION);
    CapBytes(call, street, actor);
    SamePhase(before.phase, CapPhase(call, street, actor));
    SamePhase(after.phase, AfterCap(call, street, actor));
    TwoByteRange(h, CapByte(call, street, actor), if call then 2 else 0);
    TwoByteRange(g, AfterCapByte(call, street, actor), 0);
    CapRange(p, h, OFF_WAGER1);
    CapRange(p, h, OFF_WAGER2);
    CapRange(p, g, OFF_WAGER1);
    CapRange(p, g, OFF_WAGER2);
    SixteenBytes(h, g);
  }

  // ---------- The builders ----------

  function CapMove(call: bool, r: Reveals): (m: Move) { if call then CallAllIn(r) else RevealAllIn(r) }

  /** Both wagers at the cap and nothing left to answer. */
  function Capped(p: Params, s: State): (t: State)
    requires ValidParams(p)
  {
    s.(wager1 := p.maxWager, wager2 := p.maxWager, last := Start)
  }

  /** The guards of the two all-in builders, in one form. */
  lemma ApplyCap(p: Params, call: bool, street: Street, actor: Player, s: State, r: Reveals)
    requires ValidParams(p) && WellFormed(s) && s.phase == CapPhase(call, street, actor)
      && (!call ==> street != PreFlop)
    ensures Apply(p, s, CapMove(call, r))
      == if s.last == (if call then Raised else Start) && Wager(s, Other(actor)) == p.maxWager
            && (if call then Wager(s, actor) < p.maxWager else Wager(s, actor) == p.maxWager)
         then PublishAs(Capped(p, s), r, CapKind(call, street), actor, AfterCap(call, street, actor)) else None
    ensures MoveSlots(s, CapMove(call, r)) == KindSlots(CapKind(call, street), actor)
    ensures RequiredActor(s.phase) == Some(actor)
  {
    hide PublishAs;
    if !call && s.last == Start && s.wager1 == p.maxWager == s.wager2 {
      assert Capped(p, s) == s;
    }
  }

  lemma RelationCalls(p: Params, call: bool, street: Street, actor: Player, before: State, after: State, tx: Spend,
                      proofs: seq<bytes>) returns (r: Reveals, f: Funding)
    requires ValidParams(p) && (!call ==> street != PreFlop) && Moves(before, after, tx)
    requires Batch(KindSlots(CapKind(call, street), actor))
    requires CapRelation(p, call, street, actor, before, after, tx)
    requires SharesPublished(actor, KindSlots(CapKind(call, street), actor), tx, proofs)
    ensures BuildsSpend(p, before, CapMove(call, r), f, after, tx, proofs)
    ensures Proven(before, CapMove(call, r), after, tx, proofs)
  {
    hide Apply, PublishAs, KindSlots, SharesPublished, Carries, SharesProven, MoveSlots, Batch, SomeFunding,
      FundingCovers, FundedTotal, AddAmount;
    r := PublishedBuilds(before, after, Capped(p, before), CapKind(call, street), actor, AfterCap(call, street, actor),
                         tx, proofs);
    f := SomeFunding(tx.outputs[0].value - tx.inputs[0].value, |tx.inputs| - 1);
    PotFits(p);
    SomeFundingCovers(tx.inputs[0].value, tx.outputs[0].value - tx.inputs[0].value, |tx.inputs| - 1);
    ApplyCap(p, call, street, actor, before, r);
    SpendUnfolds(p, before, CapMove(call, r), f, after, tx, proofs);
  }

  lemma CallsRelation(p: Params, call: bool, street: Street, actor: Player, before: State, after: State, r: Reveals,
                      f: Funding, tx: Spend, proofs: seq<bytes>)
    requires ValidParams(p) && (!call ==> street != PreFlop) && Moves(before, after, tx)
    requires before.phase == CapPhase(call, street, actor) && Batch(KindSlots(CapKind(call, street), actor))
    requires BuildsSpend(p, before, CapMove(call, r), f, after, tx, proofs)
      && Proven(before, CapMove(call, r), after, tx, proofs)
    ensures CapRelation(p, call, street, actor, before, after, tx)
    ensures SharesPublished(actor, KindSlots(CapKind(call, street), actor), tx, proofs)
  {
    hide Apply, KindSlots, SharesPublished, Carries, SharesProven, MoveSlots, Batch, Publishable, Write, Proofs,
      FundingCovers, FundedTotal, AddAmount;
    ApplyCap(p, call, street, actor, before, r);
    SpendUnfolds(p, before, CapMove(call, r), f, after, tx, proofs);
    CoveringCoins(f, tx.outputs[0].value - tx.inputs[0].value);
    BuiltIsPublished(before, after, Capped(p, before), r, CapKind(call, street), actor, AfterCap(call, street, actor),
                     tx, proofs);
  }

  lemma OnlyCalls(p: Params, call: bool, street: Street, actor: Player, before: State, m: Move, f: Funding,
                  after: State, tx: Spend, proofs: seq<bytes>) returns (r: Reveals)
    requires before.phase == CapPhase(call, street, actor) && BuildsSpend(p, before, m, f, after, tx, proofs)
    ensures (!call ==> street != PreFlop) && m == CapMove(call, r)
  {
    r := m.shares;
  }

  /** Headers an all-in program accepts decode, so the spend moves between two states. */
  lemma EnforcedMoves(p: Params, call: bool, street: Street, actor: Player, tx: Spend)
    returns (before: State, after: State)
    requires ValidParams(p) && (!call ==> street != PreFlop) && HeaderEnforced(p, call, street, actor, tx)
    requires HasShares(SourcePackets(tx)) && HasShares(tx.packets)
    ensures Moves(before, after, tx)
  {
    hide DecodePhase, EncodePhase, Carries, Field, HasHeader, CapByte, AfterCapByte, CapPhase, AfterCap, CallAdmitted,
         CappedAdmitted, WagersFollow;
    HeaderSized(SourcePackets(tx), p.id);
    HeaderSized(tx.packets, p.id);
    var h, g := SourcePackets(tx)[TYPE_STATE], tx.packets[TYPE_STATE];
    TwoByteRange(h, CapByte(call, street, actor), if call then 2 else 0);
    TwoByteRange(g, AfterCapByte(call, street, actor), 0);
    CapBytes(call, street, actor);
    PhaseCodec(CapPhase(call, street, actor), h[OFF_PHASE]);
    PhaseCodec(AfterCap(call, street, actor), g[OFF_PHASE]);
    StateOfCarries(SourcePackets(tx), p.id);
    StateOfCarries(tx.packets, p.id);
    before, after := StateOf(SourcePackets(tx)), StateOf(tx.packets);
  }

  lemma ServedCap(call: bool, street: Street, actor: Player, phase: Phase)
    ensures ProgramOf(phase) == Some(CapProgram(call, street, actor)) <==> phase == CapPhase(call, street, actor)
  {
  }

  /** The emitted all-in programs accept exactly the spends that the all-in builders make. */
  lemma CapProgramIsCap(p: Params, call: bool, street: Street, actor: Player, tx: Spend, proofs: seq<bytes>)
    requires ValidParams(p) && (!call ==> street != PreFlop)
    ensures Accepts(Flat(CapPieces(p, call, street, actor)), tx, proofs)
      <==> SomeBuilder(p, CapProgram(call, street, actor), tx, proofs)
  {
    hide CapPieces, HeaderEnforced, Accepts, BuildsSpend, Proven, Moves, CapPhase, ProgramOf, Batch, KindSlots,
      SharesPublished, HasShares, ValidParams;
    HeaderAndShares(p, call, street, actor, tx, proofs);
    var slots := KindSlots(CapKind(call, street), actor);
    if Accepts(Flat(CapPieces(p, call, street, actor)), tx, proofs) {
      PublishedCounts(actor, slots, tx, proofs);
      var before, after := EnforcedMoves(p, call, street, actor, tx);
      HeaderIsRelation(p, call, street, actor, before, after, tx);
      ServedCap(call, street, actor, before.phase);
      var r, f := RelationCalls(p, call, street, actor, before, after, tx, proofs);
      MakesIsSome(p, CapProgram(call, street, actor), before, CapMove(call, r), f, after, tx, proofs);
    }
    if SomeBuilder(p, CapProgram(call, street, actor), tx, proofs) {
      var before, m, f, after := SomeMakes(p, CapProgram(call, street, actor), tx, proofs);
      ServedCap(call, street, actor, before.phase);
      var r := OnlyCalls(p, call, street, actor, before, m, f, after, tx, proofs);
      CallsRelation(p, call, street, actor, before, after, r, f, tx, proofs);
      HeaderIsRelation(p, call, street, actor, before, after, tx);
    }
  }
}
