/** The programs that start a hand: Player 1's funding with the first reveal, and Player 2's reveal with the opening. */
module FundingPrograms {
  import opened Bytes
  import opened Hand
  import opened Codec
  import opened Rules
  import opened Machine
  import opened Laws
  import opened Pieces
  import opened Preservation
  import opened RevealPrograms

  // ---------- Player 1's funding ----------

  function InitialHeader(p: Params): (h: bytes)
    requires ValidParams(p)
  {
    HeaderPrefix(p.id) + Zeros(OFF_DEADLINE - OFF_PHASE) + ToLittleEndian(p.initialDeadline, 8)
  }

  /** The header of a funded state awaiting the opening, up to its deadline: only the phase byte is new. */
  function FundedHeader(p: Params): (h: bytes)
    requires ValidParams(p)
  {
    HeaderPrefix(p.id) + [1] + Zeros(OFF_DEADLINE - OFF_ACTION)
  }

  /** The source packet of a kind is exactly these bytes. */
  function SourceIs(kind: int, b: bytes): (c: Code) { [NUM(kind), NUM(0), INPUTPACKET, VERIFY, DATA(b), EQUALVERIFY] }

  function InitialReveals(rest: Pieces): (q: Pieces) {
    Then(SourceIs(TYPE_STATE + 1, Zeros(PacketLength(1))), Then(SourceIs(TYPE_STATE + 2, Zeros(PacketLength(2))),
    Then(SourceIs(TYPE_STATE + 3, Zeros(PacketLength(3))), rest)))
  }

  function OpenFunding(p: Params, rest: Pieces): (q: Pieces)
    requires ValidParams(p)
  {
    Then(OnlyFirstInput(), Then([NUMINPUTS, NUM(2), GREATERTHANOREQUAL, VERIFY], Then(WitnessCount(2),
    Then(SourceIs(TYPE_STATE, InitialHeader(p)), InitialReveals(rest)))))
  }

  function CheckFunded(p: Params, rest: Pieces): (q: Pieces)
    requires ValidParams(p)
  {
    Then(OpenNext(TYPE_STATE, HEADER), Then(RangeIs(0, OFF_DEADLINE, FundedHeader(p)), Then(TakeField(OFF_DEADLINE, 8),
    Then([NUM(p.initialDeadline), NUM(DEADLINE_INTERVAL), ADD, NUMEQUALVERIFY], rest))))
  }

  function FundedValues(p: Params, rest: Pieces): (q: Pieces) {
    Then([NUM(0), INPUTVALUE, NUM(Half(p)), NUMEQUALVERIFY], Then([NUM(0), OUTPUTVALUE, NUM(Pot(p)), NUMEQUALVERIFY],
    Then(KeepScript(), rest)))
  }

  function FundingPieces(p: Params): (q: Pieces)
    requires ValidParams(p)
  {
    KindBatches(OpponentHoles, Player1);
    var slots := KindSlots(OpponentHoles, Player1);
    var tail := FundedValues(p, ProofPieces(Player1, slots, Then([NUM(1)], Done)));
    OpenFunding(p, CheckFunded(p, PreservationPieces(slots, tail)))
  }

  lemma SourceIsGoes(q: Pieces, kind: int, b: bytes, s: Stack, tx: Spend)
    requires q.Then? && q.piece == SourceIs(kind, b)
    ensures Go(q, tx, Ok(s, Bottom)) == if Holds(SourcePackets(tx), kind, b) then Go(q.rest, tx, Ok(s, Bottom))
      else Failed
  {
    hide Run, Go, Step, Exec;
    PushLaws(tx);
    CheckLaws(tx);
    ScriptLaws(tx);
    Go6(q, NUM(kind), NUM(0), INPUTPACKET, VERIFY, DATA(b), EQUALVERIFY, tx, Ok(s, Bottom));
  }

  predicate InitialSource(p: Params, tx: Spend)
    requires ValidParams(p)
  {
    && Holds(SourcePackets(tx), TYPE_STATE, InitialHeader(p))
    && Holds(SourcePackets(tx), TYPE_STATE + 1, Zeros(PacketLength(1)))
    && Holds(SourcePackets(tx), TYPE_STATE + 2, Zeros(PacketLength(2)))
    && Holds(SourcePackets(tx), TYPE_STATE + 3, Zeros(PacketLength(3)))
  }

  lemma OpenFundingGoes(p: Params, rest: Pieces, s: Stack, tx: Spend)
    requires ValidParams(p)
    ensures Go(OpenFunding(p, rest), tx, Ok(s, Bottom))
      == if tx.current == 0 && |tx.inputs| >= 2 && Depth(s) == 2 && InitialSource(p, tx)
        then Go(rest, tx, Ok(s, Bottom))
         else Failed
  {
    hide Run, Go, Step, Exec, OnlyFirstInput, WitnessCount, SourceIs, InitialHeader, Zeros, Depth;
    PushLaws(tx);
    CheckLaws(tx);
    ComparisonLaws(tx);
    InspectionLaws(tx);
    var q := OpenFunding(p, rest);
    OnlyFirstInputGoes(q, tx, s, Bottom, NoBranch);
    q := q.rest;
    Go4(q, NUMINPUTS, NUM(2), GREATERTHANOREQUAL, VERIFY, tx, Ok(s, Bottom));
    q := q.rest;
    WitnessCountGoes(q, 2, tx, s, Bottom, NoBranch);
    q := q.rest;
    SourceIsGoes(q, TYPE_STATE, InitialHeader(p), s, tx);
    q := q.rest;
    SourceIsGoes(q, TYPE_STATE + 1, Zeros(PacketLength(1)), s, tx);
    q := q.rest;
    SourceIsGoes(q, TYPE_STATE + 2, Zeros(PacketLength(2)), s, tx);
    q := q.rest;
    SourceIsGoes(q, TYPE_STATE + 3, Zeros(PacketLength(3)), s, tx);
  }

  predicate FundedSuccessor(p: Params, tx: Spend)
    requires ValidParams(p)
  {
    && Sized(tx.packets, TYPE_STATE, HEADER) && tx.packets[TYPE_STATE][0..OFF_DEADLINE] == FundedHeader(p)
    && Field(tx.packets[TYPE_STATE], OFF_DEADLINE, 8) == p.initialDeadline + DEADLINE_INTERVAL
  }

  lemma CheckFundedGoes(p: Params, rest: Pieces, s: Stack, tx: Spend)
    requires ValidParams(p)
    ensures Go(CheckFunded(p, rest), tx, Ok(s, Bottom))
      == if FundedSuccessor(p, tx) then Go(rest, tx, Ok(s, Bottom)) else Failed
  {
    hide Run, Go, Step, Exec, OpenNext, RangeIs, TakeField, FundedHeader, Field;
    var q := CheckFunded(p, rest);
    OpenNextGoes(q, TYPE_STATE, HEADER, tx, s, Bottom, NoBranch);
    q := q.rest;
    if Sized(tx.packets, TYPE_STATE, HEADER) {
      var g := tx.packets[TYPE_STATE];
      RangeIsGoes(q, 0, OFF_DEADLINE, FundedHeader(p), g, tx, s, Bottom, NoBranch);
      q := q.rest;
      TakeFieldGoes(q, OFF_DEADLINE, 8, g, tx, s, Bottom, NoBranch);
      PushLaws(tx);
      CheckLaws(tx);
      ArithmeticLaws(tx);
      Go4(q.rest, NUM(p.initialDeadline), NUM(DEADLINE_INTERVAL), ADD, NUMEQUALVERIFY, tx,
          Ok(Push(Num(Field(g, OFF_DEADLINE, 8)), s), Bottom));
    }
  }

  predicate FundedLocks(p: Params, tx: Spend) {
    |tx.inputs| > 0 && tx.inputs[0].value == Half(p) && |tx.outputs| > 0 && tx.outputs[0].value == Pot(p)
      && ScriptKept(tx)
  }

  lemma FundedValuesGoes(p: Params, rest: Pieces, s: Stack, tx: Spend)
    ensures Go(FundedValues(p, rest), tx, Ok(s, Bottom)) == if FundedLocks(p, tx) then Go(rest, tx, Ok(s, Bottom))
      else Failed
  {
    hide Run, Go, Step, Exec, KeepScript, Half, Pot;
    PushLaws(tx);
    CheckLaws(tx);
    InspectionLaws(tx);
    var q := FundedValues(p, rest);
    Go4(q, NUM(0), INPUTVALUE, NUM(Half(p)), NUMEQUALVERIFY, tx, Ok(s, Bottom));
    q := q.rest;
    Go4(q, NUM(0), OUTPUTVALUE, NUM(Pot(p)), NUMEQUALVERIFY, tx, Ok(s, Bottom));
    KeepScriptGoes(q.rest, tx, s, Bottom, NoBranch);
  }

  /** What the funding program enforces, on bytes. */
  predicate FundingEnforced(p: Params, tx: Spend, proofs: seq<bytes>)
    requires ValidParams(p)
  {
    KindBatches(OpponentHoles, Player1);
    && tx.current == 0 && |tx.inputs| >= 2 && |proofs| == 2 && InitialSource(p, tx) && FundedSuccessor(p, tx)
    && FundedLocks(p, tx) && SharesPublished(Player1, KindSlots(OpponentHoles, Player1), tx, proofs)
  }

  lemma FundingAccepts(p: Params, tx: Spend, proofs: seq<bytes>)
    requires ValidParams(p)
    ensures Accepts(Flat(FundingPieces(p)), tx, proofs) <==> FundingEnforced(p, tx, proofs)
  {
    hide Run, Go, Step, Exec, OpenFunding, CheckFunded, FundedValues, PreservationPieces, ProofPieces, InitialSource,
         FundedSuccessor, FundedLocks, SharesKept, ProofsHold, Depth, Witness, Flat;
    KindBatches(OpponentHoles, Player1);
    var slots, s, end := KindSlots(OpponentHoles, Player1), Witness(proofs), Then([NUM(1)], Done);
    var q3 := ProofPieces(Player1, slots, end);
    var q2 := FundedValues(p, q3);
    var q1 := CheckFunded(p, PreservationPieces(slots, q2));
    GoIsRun(FundingPieces(p), tx, Ok(s, Bottom));
    WitnessDepth(proofs);
    OpenFundingGoes(p, q1, s, tx);
    CheckFundedGoes(p, PreservationPieces(slots, q2), s, tx);
    PreservationRuns(slots, q2, tx, s, Bottom, NoBranch);
    FundedValuesGoes(p, q3, s, tx);
    if |proofs| == 2 {
      ProofsGo(Player1, slots, end, tx, proofs);
      EndGoes(tx);
    }
  }

  // ---------- Player 2's opening ----------

  function OpenOpening(p: Params, rest: Pieces): (q: Pieces)
    requires ValidParams(p)
  {
    Then(OnlyFirstInput(), Then(WitnessCount(2), Then(OpenSource(TYPE_STATE, HEADER),
    Then(RangeIs(0, OFF_DEADLINE, FundedHeader(p)), Then(TakeField(OFF_DEADLINE, 8), Then([TOALT], rest))))))
  }

  function ReadOpening(p: Params, rest: Pieces): (q: Pieces)
    requires ValidParams(p)
  {
    Then(OpenNext(TYPE_STATE, HEADER),
         Then(RangeIs(0, OFF_PHASE, HeaderPrefix(p.id)), Then(RangeIs(OFF_WAGER1, 8, Zeros(8)),
    Then(UnsignedField(0, OFF_DEADLINE, 8), Then([FROMALT, NUM(DEADLINE_INTERVAL), ADD, NUMEQUALVERIFY],
    Then(UnsignedField(0, OFF_WAGER2, 8), rest))))))
  }

  /** A check or a bet between the minimum and the cap, with the matching layout, action and phase. */
  function CheckOpening(p: Params, rest: Pieces): (q: Pieces) {
    Then([DUP, NUM(p.maxWager), LESSTHANOREQUAL, VERIFY],
    Then([DUP, NUM(0), NUMEQUAL, OVER, NUM(p.minBet), GREATERTHANOREQUAL, BOOLOR, VERIFY],
    Then([DUP, NUM(0), GREATERTHAN], Then([DUP, NUMINPUTS, NUM(1), GREATERTHAN, NUMEQUALVERIFY], Then([NUM(1), ADD],
    Then(UnsignedField(2, OFF_ACTION, 1), Then([NUMEQUALVERIFY],
    Then([DUP, NUM(p.maxWager), NUMEQUAL, NUM(26), MUL, NUM(2), ADD], Then(UnsignedField(2, OFF_PHASE, 1),
    Then([NUMEQUALVERIFY], rest))))))))))
  }

  function OpeningValues(p: Params, rest: Pieces): (q: Pieces) {
    Then([NUM(Pot(p)), ADD, NUM(0), OUTPUTVALUE, NUMEQUALVERIFY, DROP],
         Then([NUM(0), INPUTVALUE, NUM(Pot(p)), NUMEQUALVERIFY],
    Then(KeepScript(), rest)))
  }

  function OpeningPieces(p: Params): (q: Pieces)
    requires ValidParams(p)
  {
    KindBatches(OpponentHoles, Player2);
    var tail := PublishPieces(Player2, KindSlots(OpponentHoles, Player2));
    OpenOpening(p, ReadOpening(p, CheckOpening(p, OpeningValues(p, tail))))
  }

  predicate AwaitingSource(p: Params, tx: Spend)
    requires ValidParams(p)
  {
    Sized(SourcePackets(tx), TYPE_STATE, HEADER) && SourcePackets(tx)[TYPE_STATE][0..OFF_DEADLINE] == FundedHeader(p)
  }

  lemma OpenOpeningGoes(p: Params, rest: Pieces, s: Stack, tx: Spend)
    requires ValidParams(p)
    ensures Go(OpenOpening(p, rest), tx, Ok(s, Bottom))
      == if tx.current == 0 && Depth(s) == 2 && AwaitingSource(p, tx)
         then Go(rest, tx, Ok(s, Push(Num(Field(SourcePackets(tx)[TYPE_STATE], OFF_DEADLINE, 8)), Bottom))) else Failed
  {
    hide Run, Go, Step, Exec, OnlyFirstInput, WitnessCount, OpenSource, RangeIs, TakeField, FundedHeader, Field, Depth;
    PushLaws(tx);
    StackLaws(tx);
    var q := OpenOpening(p, rest);
    OnlyFirstInputGoes(q, tx, s, Bottom, NoBranch);
    q := q.rest;
    WitnessCountGoes(q, 2, tx, s, Bottom, NoBranch);
    q := q.rest;
    OpenSourceGoes(q, TYPE_STATE, HEADER, tx, s, Bottom, NoBranch);
    q := q.rest;
    if Sized(SourcePackets(tx), TYPE_STATE, HEADER) {
      var h := SourcePackets(tx)[TYPE_STATE];
      RangeIsGoes(q, 0, OFF_DEADLINE, FundedHeader(p), h, tx, s, Bottom, NoBranch);
      q := q.rest;
      TakeFieldGoes(q, OFF_DEADLINE, 8, h, tx, s, Bottom, NoBranch);
      Go1(q.rest, TOALT, tx, Ok(Push(Num(Field(h, OFF_DEADLINE, 8)), s), Bottom));
    }
  }

  predicate OpeningHeader(p: Params, deadline: int, tx: Spend)
    requires ValidParams(p)
  {
    && HasHeader(tx.packets, HeaderPrefix(p.id))
    && tx.packets[TYPE_STATE][OFF_WAGER1..OFF_WAGER1 + 8] == Zeros(8)
    && Field(tx.packets[TYPE_STATE], OFF_DEADLINE, 8) == deadline + DEADLINE_INTERVAL
  }

  lemma ReadOpeningGoes(p: Params, rest: Pieces, deadline: int, s: Stack, tx: Spend)
    requires ValidParams(p)
    ensures Go(ReadOpening(p, rest), tx, Ok(s, Push(Num(deadline), Bottom)))
      == if OpeningHeader(p, deadline, tx)
         then Go(rest, tx,
                 Ok(Push(Num(Field(tx.packets[TYPE_STATE], OFF_WAGER2, 8)), Push(Data(tx.packets[TYPE_STATE]), s)),
                    Bottom))
         else Failed
  {
    hide Run, Go, Step, Exec, OpenNext, RangeIs, UnsignedField, HeaderPrefix, Field, Zeros;
    PushLaws(tx);
    StackLaws(tx);
    CheckLaws(tx);
    ArithmeticLaws(tx);
    var q, alt := ReadOpening(p, rest), Push(Num(deadline), Bottom);
    OpenNextGoes(q, TYPE_STATE, HEADER, tx, s, alt, NoBranch);
    q := q.rest;
    if Sized(tx.packets, TYPE_STATE, HEADER) {
      var g := tx.packets[TYPE_STATE];
      var d := Push(Data(g), s);
      RangeIsGoes(q, 0, OFF_PHASE, HeaderPrefix(p.id), g, tx, s, alt, NoBranch);
      q := q.rest;
      RangeIsGoes(q, OFF_WAGER1, 8, Zeros(8), g, tx, s, alt, NoBranch);
      q := q.rest;
      UnsignedFieldGoes(q, 0, OFF_DEADLINE, 8, g, tx, d, alt, NoBranch);
      q := q.rest;
      Go4(q, FROMALT, NUM(DEADLINE_INTERVAL), ADD, NUMEQUALVERIFY, tx,
          Ok(Push(Num(Field(g, OFF_DEADLINE, 8)), d), alt));
      UnsignedFieldGoes(q.rest, 0, OFF_WAGER2, 8, g, tx, d, Bottom, NoBranch);
    }
  }

  predicate OpeningAdmitted(p: Params, b: int, g: bytes, tx: Spend)
    requires |g| == HEADER
  {
    && b <= p.maxWager && (b == 0 || b >= p.minBet) && (b > 0 <==> |tx.inputs| > 1)
    && Field(g, OFF_ACTION, 1) == (if b > 0 then 2 else 1)
    && Field(g, OFF_PHASE, 1) == (if b == p.maxWager then 28 else 2)
  }

  lemma CheckOpeningGoes(p: Params, rest: Pieces, b: int, g: bytes, s: Stack, tx: Spend)
    requires |g| == HEADER
    ensures Go(CheckOpening(p, rest), tx, Ok(Push(Num(b), Push(Data(g), s)), Bottom))
      == if OpeningAdmitted(p, b, g, tx) then Go(rest, tx, Ok(Push(Num(b), Push(Data(g), s)), Bottom)) else Failed
  {
    hide Run, Go, Step, Exec, UnsignedField, Field;
    PushLaws(tx);
    StackLaws(tx);
    CheckLaws(tx);
    ArithmeticLaws(tx);
    EqualityLaws(tx);
    ComparisonLaws(tx);
    InspectionLaws(tx);
    var q, f := CheckOpening(p, rest), Push(Num(b), Push(Data(g), s));
    var v, action := Ok(f, Bottom), if b > 0 then 2 else 1;
    Go4(q, DUP, NUM(p.maxWager), LESSTHANOREQUAL, VERIFY, tx, v);
    q := q.rest;
    Go8(q, DUP, NUM(0), NUMEQUAL, OVER, NUM(p.minBet), GREATERTHANOREQUAL, BOOLOR, VERIFY, tx, v);
    q := q.rest;
    Go3(q, DUP, NUM(0), GREATERTHAN, tx, v);
    q := q.rest;
    Go5(q, DUP, NUMINPUTS, NUM(1), GREATERTHAN, NUMEQUALVERIFY, tx, Ok(Push(Flag(b > 0), f), Bottom));
    q := q.rest;
    Go2(q, NUM(1), ADD, tx, Ok(Push(Flag(b > 0), f), Bottom));
    q := q.rest;
    var f1 := Push(Num(action), f);
    UnsignedFieldGoes(q, 2, OFF_ACTION, 1, g, tx, f1, Bottom, NoBranch);
    q := q.rest;
    Go1(q, NUMEQUALVERIFY, tx, Ok(Push(Num(Field(g, OFF_ACTION, 1)), f1), Bottom));
    OpeningPhaseGoes(p, q.rest, rest, b, g, s, tx);
  }

  lemma OpeningPhaseGoes(p: Params, q: Pieces, rest: Pieces, b: int, g: bytes, s: Stack, tx: Spend)
    requires |g| == HEADER && q == CheckOpening(p, rest).rest.rest.rest.rest.rest.rest.rest
    ensures Go(q, tx, Ok(Push(Num(b), Push(Data(g), s)), Bottom))
      == if Field(g, OFF_PHASE, 1) == (if b == p.maxWager then 28 else 2)
         then Go(rest, tx, Ok(Push(Num(b), Push(Data(g), s)), Bottom)) else Failed
  {
    hide Run, Go, Step, Exec, UnsignedField, Field;
    PushLaws(tx);
    StackLaws(tx);
    CheckLaws(tx);
    ArithmeticLaws(tx);
    EqualityLaws(tx);
    var f := Push(Num(b), Push(Data(g), s));
    Go7(q, DUP, NUM(p.maxWager), NUMEQUAL, NUM(26), MUL, NUM(2), ADD, tx, Ok(f, Bottom));
    var f1 := Push(Num(if b == p.maxWager then 28 else 2), f);
    UnsignedFieldGoes(q.rest, 2, OFF_PHASE, 1, g, tx, f1, Bottom, NoBranch);
    Go1(q.rest.rest, NUMEQUALVERIFY, tx, Ok(Push(Num(Field(g, OFF_PHASE, 1)), f1), Bottom));
  }

  predicate OpeningLocks(p: Params, b: int, tx: Spend) {
    && |tx.inputs| > 0 && tx.inputs[0].value == Pot(p)
    && |tx.outputs| > 0 && tx.outputs[0].value == b + Pot(p) && ScriptKept(tx)
  }

  lemma OpeningValuesGoes(p: Params, rest: Pieces, b: int, g: bytes, s: Stack, tx: Spend)
    ensures Go(OpeningValues(p, rest), tx, Ok(Push(Num(b), Push(Data(g), s)), Bottom))
      == if OpeningLocks(p, b, tx) then Go(rest, tx, Ok(s, Bottom)) else Failed
  {
    hide Run, Go, Step, Exec, KeepScript, Pot;
    PushLaws(tx);
    StackLaws(tx);
    CheckLaws(tx);
    ArithmeticLaws(tx);
    InspectionLaws(tx);
    var q := OpeningValues(p, rest);
    Go6(q, NUM(Pot(p)), ADD, NUM(0), OUTPUTVALUE, NUMEQUALVERIFY, DROP, tx, Ok(Push(Num(b), Push(Data(g), s)), Bottom));
    q := q.rest;
    Go4(q, NUM(0), INPUTVALUE, NUM(Pot(p)), NUMEQUALVERIFY, tx, Ok(s, Bottom));
    KeepScriptGoes(q.rest, tx, s, Bottom, NoBranch);
  }

  /** What the opening program enforces, on bytes. */
  predicate OpeningEnforced(p: Params, tx: Spend, proofs: seq<bytes>)
    requires ValidParams(p)
  {
    KindBatches(OpponentHoles, Player2);
    && tx.current == 0 && |proofs| == 2 && AwaitingSource(p, tx)
    && OpeningHeader(p, Field(SourcePackets(tx)[TYPE_STATE], OFF_DEADLINE, 8), tx)
    && var g := tx.packets[TYPE_STATE];
       var b := Field(g, OFF_WAGER2, 8);
       OpeningAdmitted(p, b, g, tx) && OpeningLocks(p, b, tx)
       && SharesPublished(Player2, KindSlots(OpponentHoles, Player2), tx, proofs)
  }

  lemma OpeningAccepts(p: Params, tx: Spend, proofs: seq<bytes>)
    requires ValidParams(p)
    ensures Accepts(Flat(OpeningPieces(p)), tx, proofs) <==> OpeningEnforced(p, tx, proofs)
  {
    hide Run, Go, Step, Exec, OpenOpening, ReadOpening, CheckOpening, OpeningValues, PublishPieces, FundedHeader,
         OpeningAdmitted, OpeningLocks, SharesPublished, Depth, Witness, Flat, Field, HeaderPrefix, Zeros;
    KindBatches(OpponentHoles, Player2);
    var slots, s := KindSlots(OpponentHoles, Player2), Witness(proofs);
    var q4 := PublishPieces(Player2, slots);
    var q3 := OpeningValues(p, q4);
    var q2 := CheckOpening(p, q3);
    var q1 := ReadOpening(p, q2);
    GoIsRun(OpeningPieces(p), tx, Ok(s, Bottom));
    WitnessDepth(proofs);
    OpenOpeningGoes(p, q1, s, tx);
    if AwaitingSource(p, tx) {
      var deadline := Field(SourcePackets(tx)[TYPE_STATE], OFF_DEADLINE, 8);
      ReadOpeningGoes(p, q2, deadline, s, tx);
      if OpeningHeader(p, deadline, tx) {
        var g := tx.packets[TYPE_STATE];
        var b := Field(g, OFF_WAGER2, 8);
        CheckOpeningGoes(p, q3, b, g, s, tx);
        OpeningValuesGoes(p, q4, b, g, s, tx);
        if |proofs| == 2 {
          PublishGoes(Player2, slots, tx, proofs);
        }
      }
    }
  }
}
