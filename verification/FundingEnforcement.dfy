/** The funding and opening programs agree with their builders on every spend. */
module FundingEnforcement {
  import opened Bytes
  import opened Hand
  import opened Codec
  import opened Rules
  import opened Runs
  import opened Machine
  import opened Pieces
  import opened Preservation
  import opened RevealPrograms
  import opened FundingPrograms
  import opened Enforcement
  import opened Options

  // ---------- Zero bytes ----------

  lemma {:induction false} ZeroField(n: nat)
    ensures ToLittleEndian(0, n) == Zeros(n)
  {
    if n > 0 {
      ZeroField(n - 1);
      assert Zeros(n) == [0] + Zeros(n - 1);
    }
  }

  lemma ZeroRange(h: bytes, o: nat)
    requires o + 8 <= |h|
    ensures h[o..o + 8] == Zeros(8) <==> Field(h, o, 8) == 0
  {
    ZeroField(8);
    FieldWritten(h, o);
    ReadU64(0);
  }

  lemma ZerosSplit(a: nat, b: nat)
    ensures Zeros(a + b) == Zeros(a) + Zeros(b)
  {
  }

  // ---------- The initial state ----------

  lemma InitialHeaderEncodes(p: Params)
    requires ValidParams(p)
    ensures EncodeHeader(InitialState(p)) == Some(InitialHeader(p))
  {
    ZeroField(8);
    ZerosSplit(2, 16);
    ZerosSplit(8, 8);
    assert Zeros(2) == [0] + [0];
    var d := ToLittleEndian(p.initialDeadline, 8);
    var z8, z18 := Zeros(8), Zeros(OFF_DEADLINE - OFF_PHASE);
    assert z18 == [0] + [0] + z8 + z8;
    hide ToLittleEndian, Zeros, HeaderPrefix;
    assert HeaderPrefix(p.id) + [0] + [0] + z8 + z8 + d == HeaderPrefix(p.id) + z18 + d;
  }

  lemma InitialShares(p: Params, packet: nat)
    requires ValidParams(p) && 1 <= packet <= 3
    ensures SharePacket(InitialState(p), packet) == Zeros(PacketLength(packet))
  {
    var z, s := Zeros(PacketLength(packet)), InitialState(p);
    Layout(packet, 0);
    forall i | 0 <= i < |PacketSlots(packet)|
      ensures z[SHARE * i..SHARE * i + SHARE] == s.shares[PacketSlots(packet)[i]]
    {
      Layout(packet, i);
      assert SHARE * i + SHARE <= PacketLength(packet);
    }
    PacketIsShares(s, packet, z);
  }

  /** The initialised packets are exactly the encoding of the initial state. */
  lemma InitialSourceCarries(p: Params, tx: Spend)
    requires ValidParams(p)
    ensures WellFormed(InitialState(p))
    ensures InitialSource(p, tx) <==> Carries(SourcePackets(tx), InitialState(p))
  {
    hide InitialHeader, EncodeHeader, SharePacket, Zeros;
    InitialHeaderEncodes(p);
    InitialShares(p, 1);
    InitialShares(p, 2);
    InitialShares(p, 3);
  }

  // ---------- The header of a state awaiting the opening ----------

  lemma FundedPieces(p: Params, h: bytes)
    requires ValidParams(p) && |h| == HEADER
    ensures h[0..OFF_DEADLINE] == FundedHeader(p)
      <==> h[0..OFF_PHASE] == HeaderPrefix(p.id) && h[OFF_PHASE] == 1 && h[OFF_ACTION] == 0
           && h[OFF_WAGER1..OFF_WAGER1 + 8] == Zeros(8) && h[OFF_WAGER2..OFF_WAGER2 + 8] == Zeros(8)
  {
    hide HeaderPrefix, Zeros;
    ZerosSplit(1, 16);
    ZerosSplit(8, 8);
    assert Zeros(1) == [0];
    var f := FundedHeader(p);
    assert f == HeaderPrefix(p.id) + [1] + [0] + Zeros(8) + Zeros(8);
    assert h[0..OFF_DEADLINE] == h[0..OFF_PHASE] + [h[OFF_PHASE]] + [h[OFF_ACTION]]
        + h[OFF_WAGER1..OFF_WAGER1 + 8] + h[OFF_WAGER2..OFF_WAGER2 + 8];
    if h[0..OFF_DEADLINE] == f {
      assert f[0..OFF_PHASE] == HeaderPrefix(p.id) && h[0..OFF_PHASE] == h[0..OFF_DEADLINE][0..OFF_PHASE];
      assert h[OFF_PHASE] == h[0..OFF_DEADLINE][OFF_PHASE] && h[OFF_ACTION] == h[0..OFF_DEADLINE][OFF_ACTION];
      assert f[OFF_WAGER1..OFF_WAGER1 + 8] == Zeros(8) && f[OFF_WAGER2..OFF_WAGER2 + 8] == Zeros(8);
      assert h[OFF_WAGER1..OFF_WAGER1 + 8] == h[0..OFF_DEADLINE][OFF_WAGER1..OFF_WAGER1 + 8];
      assert h[OFF_WAGER2..OFF_WAGER2 + 8] == h[0..OFF_DEADLINE][OFF_WAGER2..OFF_WAGER2 + 8];
    }
  }

  predicate Awaiting(p: Params, s: State) {
    s.id == p.id && s.phase == AwaitOpening && s.last == Start && s.wager1 == 0 && s.wager2 == 0
  }

  lemma FundedIsAwaiting(p: Params, packets: Packets, s: State)
    requires ValidParams(p) && WellFormed(s) && Carries(packets, s)
    ensures Sized(packets, TYPE_STATE, HEADER)
    ensures packets[TYPE_STATE][0..OFF_DEADLINE] == FundedHeader(p) <==> Awaiting(p, s)
  {
    hide EncodePhase, Carries, Field, HeaderFields, HeaderPrefix, FundedHeader, Zeros;
    CarriedHeader(packets, s, p.id);
    var h := packets[TYPE_STATE];
    assert Field(h, WagerOffset(Player1), 8) == s.wager1 && Field(h, WagerOffset(Player2), 8) == s.wager2;
    FundedPieces(p, h);
    ZeroRange(h, OFF_WAGER1);
    ZeroRange(h, OFF_WAGER2);
    OneByteField(h, OFF_ACTION);
    AwaitingByte();
    SamePhase(s.phase, AwaitOpening);
  }

  lemma AwaitingByte()
    ensures EncodePhase(AwaitOpening) == Some(1) && DecodePhase(1) == Some(AwaitOpening)
  {
  }

  /** Packets with a funded header and all shares decode. */
  lemma FundedDecodes(p: Params, packets: Packets) returns (s: State)
    requires ValidParams(p) && HasShares(packets) && Sized(packets, TYPE_STATE, HEADER)
    requires packets[TYPE_STATE][0..OFF_DEADLINE] == FundedHeader(p)
    ensures WellFormed(s) && Carries(packets, s)
  {
    hide DecodePhase, Carries, FundedHeader, HeaderPrefix;
    FundedPieces(p, packets[TYPE_STATE]);
    AwaitingByte();
    StateOfCarries(packets, p.id);
    s := StateOf(packets);
  }

  // ---------- Funding ----------

  predicate FundRelation(p: Params, before: State, after: State, tx: Spend) {
    && tx.current == 0 && |tx.inputs| >= 2 && before == InitialState(p) && Awaiting(p, after)
    && after.deadline == p.initialDeadline + DEADLINE_INTERVAL && FundedLocks(p, tx)
  }

  lemma ApplyFund(p: Params, r: Reveals)
    requires ValidParams(p)
    ensures Apply(p, InitialState(p), Fund(r)) == PublishAs(InitialState(p), r, OpponentHoles, Player1, AwaitOpening)
    ensures MoveSlots(InitialState(p), Fund(r)) == KindSlots(OpponentHoles, Player1)
  {
  }

  lemma RelationFunds(p: Params, before: State, after: State, tx: Spend, proofs: seq<bytes>)
    returns (r: Reveals, f: Funding)
    requires ValidParams(p) && Moves(before, after, tx) && FundRelation(p, before, after, tx)
    requires Batch(KindSlots(OpponentHoles, Player1))
    requires SharesPublished(Player1, KindSlots(OpponentHoles, Player1), tx, proofs)
    ensures BuildsSpend(p, before, Fund(r), f, after, tx, proofs) && Proven(before, Fund(r), after, tx, proofs)
  {
    hide Apply, PublishAs, KindSlots, SharesPublished, Carries, SharesProven, MoveSlots, Batch, SomeFunding,
      FundingCovers, FundedTotal, AddAmount;
    r := PublishedBuilds(before, after, before, OpponentHoles, Player1, AwaitOpening, tx, proofs);
    f := SomeFunding(tx.outputs[0].value - tx.inputs[0].value, |tx.inputs| - 1);
    PotFits(p);
    HalfFits(p);
    SomeFundingCovers(tx.inputs[0].value, tx.outputs[0].value - tx.inputs[0].value, |tx.inputs| - 1);
    ApplyFund(p, r);
    SpendUnfolds(p, before, Fund(r), f, after, tx, proofs);
  }

  lemma HalfFits(p: Params)
    requires ValidParams(p)
    ensures 0 < Half(p) && Pot(p) == 2 * Half(p)
  {
  }

  lemma FundsRelation(p: Params, before: State, after: State, m: Move, f: Funding, tx: Spend, proofs: seq<bytes>)
    requires ValidParams(p) && Moves(before, after, tx) && before.phase == AwaitFunding
    requires BuildsSpend(p, before, m, f, after, tx, proofs) && Proven(before, m, after, tx, proofs)
    requires Batch(KindSlots(OpponentHoles, Player1))
    ensures FundRelation(p, before, after, tx)
      && SharesPublished(Player1, KindSlots(OpponentHoles, Player1), tx, proofs)
  {
    hide KindSlots, SharesPublished, Carries, SharesProven, MoveSlots, Batch, Publishable, Write, Proofs, FundingCovers,
         FundedTotal, AddAmount;
    SpendUnfolds(p, before, m, f, after, tx, proofs);
    HalfFits(p);
    CoveringCoins(f, tx.outputs[0].value - tx.inputs[0].value);
    ApplyFund(p, m.shares);
    BuiltIsPublished(before, after, before, m.shares, OpponentHoles, Player1, AwaitOpening, tx, proofs);
  }

  lemma FundHeader(p: Params, before: State, after: State, tx: Spend)
    requires ValidParams(p) && Moves(before, after, tx)
    ensures tx.current == 0 && |tx.inputs| >= 2 && InitialSource(p, tx) && FundedSuccessor(p, tx) && FundedLocks(p, tx)
      <==> FundRelation(p, before, after, tx)
  {
    hide Carries, InitialSource, FundedHeader, Awaiting, FundedLocks, InitialState, Field;
    InitialSourceCarries(p, tx);
    FundedIsAwaiting(p, tx.packets, after);
    CarriedHeader(tx.packets, after, p.id);
    if InitialSource(p, tx) {
      SameCarried(SourcePackets(tx), before, InitialState(p));
    }
  }

  /** Packets carry one state only. */
  lemma SameCarried(packets: Packets, s: State, t: State)
    requires WellFormed(s) && WellFormed(t) && Carries(packets, s) && Carries(packets, t)
    ensures s == t
  {
    hide Carries, EncodePhase, ActionByte, Field, HeaderPrefix;
    CarriesIsCodec(packets, s);
    CarriesIsCodec(packets, t);
    var h := packets[TYPE_STATE];
    SamePhase(s.phase, t.phase);
    PrefixIsId(h, s.id);
    PrefixIsId(h, t.id);
    ActionCodec(s.last, h[OFF_ACTION]);
    ActionCodec(t.last, h[OFF_ACTION]);
  }

  /** The emitted funding program accepts exactly the spends that the funding builder makes. */
  lemma FundingProgramIsFunding(p: Params, tx: Spend, proofs: seq<bytes>)
    requires ValidParams(p)
    ensures Accepts(Flat(FundingPieces(p)), tx, proofs) <==> SomeBuilder(p, FundingProgram, tx, proofs)
  {
    hide FundingPieces, Accepts, BuildsSpend, Proven, Moves, Batch, KindSlots, SharesPublished, HasShares, ValidParams,
         InitialSource, FundedSuccessor, FundedLocks, FundRelation;
    KindBatches(OpponentHoles, Player1);
    FundingAccepts(p, tx, proofs);
    PublishedCounts(Player1, KindSlots(OpponentHoles, Player1), tx, proofs);
    FundingSlots();
    if FundingEnforced(p, tx, proofs) {
      var before, after := FundingMoves(p, tx);
      FundHeader(p, before, after, tx);
      assert before.phase == AwaitFunding;
      var r, f := RelationFunds(p, before, after, tx, proofs);
      MakesIsSome(p, FundingProgram, before, Fund(r), f, after, tx, proofs);
    }
    if SomeBuilder(p, FundingProgram, tx, proofs) {
      var before, m, f, after := SomeMakes(p, FundingProgram, tx, proofs);
      FundsRelation(p, before, after, m, f, tx, proofs);
      FundHeader(p, before, after, tx);
    }
  }

  lemma FundingSlots()
    ensures |KindSlots(OpponentHoles, Player1)| == 2 && |KindSlots(OpponentHoles, Player2)| == 2
  {
  }

  lemma FundingMoves(p: Params, tx: Spend) returns (before: State, after: State)
    requires ValidParams(p) && InitialSource(p, tx) && FundedSuccessor(p, tx) && HasShares(tx.packets)
    ensures Moves(before, after, tx) && before.phase == AwaitFunding
  {
    hide Carries, InitialSource;
    InitialSourceCarries(p, tx);
    before := InitialState(p);
    after := FundedDecodes(p, tx.packets);
  }

  // ---------- Opening ----------

  predicate OpenRelation(p: Params, before: State, after: State, tx: Spend) {
    var b := after.wager2;
    && tx.current == 0 && Awaiting(p, before) && after.id == p.id && after.wager1 == 0
    && after.deadline == before.deadline + DEADLINE_INTERVAL
    && b <= p.maxWager && (b == 0 || b >= p.minBet) && (b > 0 <==> |tx.inputs| > 1)
    && after.last == (if b > 0 then Raised else Checked)
    && after.phase == (if b == p.maxWager then AllIn(PreFlop, Player1) else Betting(PreFlop, Player1))
    && OpeningLocks(p, b, tx)
  }

  predicate OpeningHeaders(p: Params, tx: Spend)
    requires ValidParams(p)
  {
    && tx.current == 0 && AwaitingSource(p, tx)
    && OpeningHeader(p, Field(SourcePackets(tx)[TYPE_STATE], OFF_DEADLINE, 8), tx)
    && var g := tx.packets[TYPE_STATE];
       var b := Field(g, OFF_WAGER2, 8);
       OpeningAdmitted(p, b, g, tx) && OpeningLocks(p, b, tx)
  }

  lemma OpenHeader(p: Params, before: State, after: State, tx: Spend)
    requires ValidParams(p) && Moves(before, after, tx)
    ensures OpeningHeaders(p, tx) <==> OpenRelation(p, before, after, tx)
  {
    hide Carries, FundedHeader, Awaiting, OpeningLocks, Field, HeaderPrefix, EncodePhase, Zeros, HeaderFields,
      HasHeader, ValidAmounts;
    FundedIsAwaiting(p, SourcePackets(tx), before);
    CarriedHeader(SourcePackets(tx), before, p.id);
    CarriedHeader(tx.packets, after, p.id);
    var g := tx.packets[TYPE_STATE];
    assert Field(g, WagerOffset(Player1), 8) == after.wager1 && Field(g, WagerOffset(Player2), 8) == after.wager2;
    ZeroRange(g, OFF_WAGER1);
    OneByteField(g, OFF_ACTION);
    OpeningBytes();
    SamePhase(after.phase, AllIn(PreFlop, Player1));
    SamePhase(after.phase, Betting(PreFlop, Player1));
  }

  lemma OpeningBytes()
    ensures EncodePhase(AllIn(PreFlop, Player1)) == Some(28) && EncodePhase(Betting(PreFlop, Player1)) == Some(2)
    ensures DecodePhase(28).Some? && DecodePhase(2).Some?
  {
  }

  /** The opened state before its deadline moves and its shares are written. */
  function Opened(p: Params, s: State, bet: nat): (t: State) {
    s.(wager2 := bet, last := if bet == 0 then Checked else Raised)
  }

  function OpenedPhase(p: Params, bet: nat): (q: Phase) {
    if bet == p.maxWager then AllIn(PreFlop, Player1) else Betting(PreFlop, Player1)
  }

  lemma ApplyOpen(p: Params, s: State, bet: int, r: Reveals)
    requires ValidParams(p) && WellFormed(s) && s.phase == AwaitOpening
    ensures Apply(p, s, Open(bet, r))
      == if s.last == Start && s.wager1 == 0 && s.wager2 == 0 && 0 <= bet <= p.maxWager && (bet == 0 || bet >= p.minBet)
         then PublishAs(Opened(p, s, bet), r, OpponentHoles, Player2, OpenedPhase(p, bet)) else None
    ensures MoveSlots(s, Open(bet, r)) == KindSlots(OpponentHoles, Player2)
  {
  }

  lemma RelationOpens(p: Params, before: State, after: State, tx: Spend, proofs: seq<bytes>)
    returns (r: Reveals, f: Funding)
    requires ValidParams(p) && Moves(before, after, tx) && OpenRelation(p, before, after, tx)
    requires Batch(KindSlots(OpponentHoles, Player2))
    requires SharesPublished(Player2, KindSlots(OpponentHoles, Player2), tx, proofs)
    ensures BuildsSpend(p, before, Open(after.wager2, r), f, after, tx, proofs)
    ensures Proven(before, Open(after.wager2, r), after, tx, proofs)
  {
    hide Apply, PublishAs, KindSlots, SharesPublished, Carries, SharesProven, MoveSlots, Batch, SomeFunding,
      FundingCovers, FundedTotal, AddAmount;
    var b := after.wager2;
    r := PublishedBuilds(before, after, Opened(p, before, b), OpponentHoles, Player2, OpenedPhase(p, b), tx, proofs);
    f := SomeFunding(tx.outputs[0].value - tx.inputs[0].value, |tx.inputs| - 1);
    PotFits(p);
    SomeFundingCovers(tx.inputs[0].value, tx.outputs[0].value - tx.inputs[0].value, |tx.inputs| - 1);
    ApplyOpen(p, before, b, r);
    SpendUnfolds(p, before, Open(b, r), f, after, tx, proofs);
  }

  lemma OpensRelation(p: Params, before: State, after: State, m: Move, f: Funding, tx: Spend, proofs: seq<bytes>)
    requires ValidParams(p) && Moves(before, after, tx) && before.phase == AwaitOpening && m.Open?
    requires BuildsSpend(p, before, m, f, after, tx, proofs) && Proven(before, m, after, tx, proofs)
    requires Batch(KindSlots(OpponentHoles, Player2))
    ensures OpenRelation(p, before, after, tx)
      && SharesPublished(Player2, KindSlots(OpponentHoles, Player2), tx, proofs)
  {
    hide Apply, KindSlots, SharesPublished, Carries, SharesProven, MoveSlots, Batch, Publishable, Write, Proofs,
      FundingCovers, FundedTotal, AddAmount;
    ApplyOpen(p, before, m.bet, m.shares);
    SpendUnfolds(p, before, m, f, after, tx, proofs);
    CoveringCoins(f, tx.outputs[0].value - tx.inputs[0].value);
    BuiltIsPublished(before, after, Opened(p, before, m.bet), m.shares, OpponentHoles, Player2, OpenedPhase(p, m.bet),
                     tx, proofs);
  }

  lemma OnlyOpens(p: Params, before: State, m: Move, f: Funding, after: State, tx: Spend, proofs: seq<bytes>)
    requires before.phase == AwaitOpening && BuildsSpend(p, before, m, f, after, tx, proofs)
    ensures m.Open?
  {
  }

  lemma OpeningMoves(p: Params, tx: Spend) returns (before: State, after: State)
    requires ValidParams(p) && OpeningHeaders(p, tx) && HasShares(SourcePackets(tx)) && HasShares(tx.packets)
    ensures Moves(before, after, tx)
  {
    hide Carries, FundedHeader, HeaderPrefix, Field, OpeningLocks, DecodePhase;
    before := FundedDecodes(p, SourcePackets(tx));
    var g := tx.packets[TYPE_STATE];
    OneByteField(g, OFF_ACTION);
    OneByteField(g, OFF_PHASE);
    OpeningBytes();
    StateOfCarries(tx.packets, p.id);
    after := StateOf(tx.packets);
  }

  /** The emitted opening program accepts exactly the spends that the opening builder makes. */
  lemma OpeningProgramIsOpening(p: Params, tx: Spend, proofs: seq<bytes>)
    requires ValidParams(p)
    ensures Accepts(Flat(OpeningPieces(p)), tx, proofs) <==> SomeBuilder(p, OpeningProgram, tx, proofs)
  {
    hide OpeningPieces, Accepts, BuildsSpend, Proven, Moves, Batch, KindSlots, SharesPublished, HasShares, ValidParams,
         AwaitingSource, OpeningHeader, OpeningAdmitted, OpeningLocks, OpenRelation, Field;
    KindBatches(OpponentHoles, Player2);
    OpeningAccepts(p, tx, proofs);
    PublishedCounts(Player2, KindSlots(OpponentHoles, Player2), tx, proofs);
    FundingSlots();
    if OpeningEnforced(p, tx, proofs) {
      var before, after := OpeningMoves(p, tx);
      OpenHeader(p, before, after, tx);
      OpenRelationPhase(p, before, after, tx);
      var r, f := RelationOpens(p, before, after, tx, proofs);
      MakesIsSome(p, OpeningProgram, before, Open(after.wager2, r), f, after, tx, proofs);
    }
    if SomeBuilder(p, OpeningProgram, tx, proofs) {
      var before, m, f, after := SomeMakes(p, OpeningProgram, tx, proofs);
      OnlyOpens(p, before, m, f, after, tx, proofs);
      OpensRelation(p, before, after, m, f, tx, proofs);
      OpenHeader(p, before, after, tx);
    }
  }

  lemma OpenRelationPhase(p: Params, before: State, after: State, tx: Spend)
    requires OpenRelation(p, before, after, tx)
    ensures before.phase == AwaitOpening
  {
  }
}
