/** The emitters of the programs that publish shares. */
module RevealEmitters {
  import opened Bytes
  import opened Hand
  import opened Codec
  import opened Rules
  import opened Machine
  import opened Pieces
  import opened Preservation
  import opened RevealPrograms
  import opened AllInPrograms
  import opened FundingPrograms
  import opened Emitters
  import opened Options

  // ---------- Two-pass reveals ----------

  method AddReadPass(b: ProgramBuilder, prefix: bytes, count: nat, first: byte, ghost rest: Pieces)
    requires b.Valid() && b.pending == ReadPass(prefix, count, first, rest)
    modifies b
    ensures b.Valid() && b.pending == rest
  {
    hide Flat, UnsignedField;
    b.Add([CURRENTINPUT, NUM(0), NUMEQUALVERIFY]);
    b.Add([NUMINPUTS, NUM(1), NUMEQUALVERIFY]);
    b.Add([DEPTH, NUM(count), NUMEQUALVERIFY]);
    b.Add(OpenSource(TYPE_STATE, HEADER));
    b.Add(RangeIs(0, OFF_PHASE, prefix));
    b.Add(RangeIs(OFF_ACTION, 1, [0]));
    b.AddUnsignedField(0, OFF_PHASE, 1);
    b.Add([NUM(first), SUB]);
    b.Add([DUP, NUM(0), NUMEQUAL, OVER, NUM(2), NUMEQUAL, BOOLOR, VERIFY]);
    b.Add([NUM(2), DIV]);
  }

  method AddEqual(b: ProgramBuilder, p: Params, board: bool, ghost rest: Pieces)
    requires b.Valid() && b.pending == CheckEqual(p, board, rest)
    modifies b
    ensures b.Valid() && b.pending == rest
  {
    hide Flat, UnsignedField;
    b.AddUnsignedField(1, OFF_WAGER1, 8);
    if board {
      b.Add([DUP, NUM(p.maxWager), LESSTHAN, VERIFY]);
    } else {
      b.Add([DUP, NUM(p.maxWager), LESSTHANOREQUAL, VERIFY]);
      b.Add([DUP, NUM(p.maxWager), LESSTHAN, NUM(2), PICK, BOOLOR, VERIFY]);
    }
    b.AddUnsignedField(2, OFF_WAGER2, 8);
    b.Add([OVER, NUMEQUALVERIFY]);
    b.Add([NUM(Half(p)), ADD, NUM(2), MUL]);
    b.Add([DUP, NUM(0), INPUTVALUE, NUMEQUALVERIFY]);
    b.Add([NUM(0), OUTPUTVALUE, NUMEQUALVERIFY]);
    b.Add(KeepScript());
  }

  method AddPass(b: ProgramBuilder, prefix: bytes, nextFirst: int, step: int, ghost rest: Pieces)
    requires b.Valid() && b.pending == CheckPass(prefix, nextFirst, step, rest)
    modifies b
    ensures b.Valid() && b.pending == rest
  {
    hide Flat, UnsignedField;
    b.Add(OpenNext(TYPE_STATE, HEADER));
    b.Add(RangeIs(0, OFF_PHASE, prefix));
    b.Add(RangeIs(OFF_ACTION, 1, [0]));
    b.Add([DUP, NUM(OFF_WAGER1), NUM(16), SUBSTR, NUM(3), PICK, NUM(OFF_WAGER1), NUM(16), SUBSTR, EQUALVERIFY]);
    b.AddUnsignedField(0, OFF_DEADLINE, 8);
    b.AddUnsignedField(3, OFF_DEADLINE, 8);
    b.Add([NUM(DEADLINE_INTERVAL), ADD, NUMEQUALVERIFY]);
    b.Add([NUM(1), PICK, NUM(step), MUL, NUM(nextFirst), ADD]);
    b.AddUnsignedField(1, OFF_PHASE, 1);
    b.Add([NUMEQUALVERIFY]);
    b.Add([DROP2, DROP]);
  }

  method EmitTwoPass(p: Params, board: bool, actor: Player, slots: seq<nat>, first: byte, nextFirst: int,
                     nextSecond: int)
    returns (code: Code)
    requires |p.id| == 32 && Batch(slots)
    ensures code == Flat(TwoPassPieces(p, board, actor, slots, first, nextFirst, nextSecond))
  {
    hide Flat, ReadPass, CheckEqual, CheckPass, PublishPieces, HeaderPrefix;
    var prefix := HeaderPrefix(p.id);
    ghost var q3 := PublishPieces(actor, slots);
    ghost var q2 := CheckPass(prefix, nextFirst, nextSecond - nextFirst, q3);
    ghost var q1 := CheckEqual(p, board, q2);
    var b := new ProgramBuilder(TwoPassPieces(p, board, actor, slots, first, nextFirst, nextSecond));
    AddReadPass(b, prefix, |slots|, first, q1);
    AddEqual(b, p, board, q2);
    AddPass(b, prefix, nextFirst, nextSecond - nextFirst, q3);
    AddRemainingShares(b, actor, slots);
    FlatDone(b.code);
    return b.code;
  }

  /** The slots of a board street, from the actor's first slot on. */
  method BoardBatch(street: Street, actor: Player) returns (slots: seq<nat>)
    requires street != PreFlop
    ensures slots == KindSlots(BoardKind(street), actor)
  {
    var first, count := 4, 3;
    if street == Turn {
      first, count := 10, 1;
    }
    if street == River {
      first, count := 12, 1;
    }
    var start := first + Index(actor) * count;
    slots := [];
    for i := 0 to count
      invariant |slots| == i && forall k | 0 <= k < i :: slots[k] == start + k
    {
      slots := slots + [start + i];
    }
  }

  method EmitBoardReveal(p: Params, street: Street, actor: Player) returns (code: Option<Code>)
    requires |p.id| == 32
    ensures code == if ValidAmounts(p) && street != PreFlop then Some(Flat(BoardPieces(p, street, actor))) else None
  {
    hide Flat, TwoPassPieces;
    var ok := ValidateAmounts(p);
    if !ok || street == PreFlop {
      return None;
    }
    var player, k := Index(actor), StreetIndex(street) - 1;
    var firstPhase, bettingPhase := 0x0a + 4 * k, 4 + 2 * k;
    var slots := BoardBatch(street, actor);
    KindBatches(BoardKind(street), actor);
    var out := EmitTwoPass(p, true, actor, slots, firstPhase + player, firstPhase + 2 + 1 - player,
                           bettingPhase + 1 - player);
    return Some(out);
  }

  method EmitShowdownReveal(p: Params, actor: Player) returns (code: Option<Code>)
    requires |p.id| == 32
    ensures code == if ValidAmounts(p) then Some(Flat(ShowdownRevealPieces(p, actor))) else None
  {
    hide Flat, TwoPassPieces;
    var ok := ValidateAmounts(p);
    if !ok {
      return None;
    }
    var player := Index(actor);
    var slots := RemainingBatch(River, actor);
    KindBatches(OwnHoles, actor);
    var out := EmitTwoPass(p, false, actor, slots, 0x16 + player, 0x18 + 1 - player, 0x1a);
    return Some(out);
  }

  function FlopOf(player: nat): (slots: seq<nat>) { [4 + 3 * player, 5 + 3 * player, 6 + 3 * player] }

  function OwnOf(player: nat): (slots: seq<nat>) { [14 + 2 * player, 15 + 2 * player] }

  lemma RemainingSlotsAre(street: Street, actor: Player)
    ensures var player := Index(actor);
      KindSlots(RemainingKind(street), actor)
        == (((if street == PreFlop then FlopOf(player) else [])
             + (if street == PreFlop || street == Flop then [10 + player] else []))
            + (if street != River then [12 + player] else []))
           + OwnOf(player)
  {
  }

  /** What a player still owes after betting stops on `street`, gathered street by street. */
  method RemainingBatch(street: Street, actor: Player) returns (slots: seq<nat>)
    ensures slots == KindSlots(RemainingKind(street), actor)
  {
    hide KindSlots, RemainingKind;
    RemainingSlotsAre(street, actor);
    var player := Index(actor);
    slots := [];
    if street == PreFlop {
      for i := 0 to 3
        invariant slots == FlopOf(player)[..i]
      {
        slots := slots + [4 + 3 * player + i];
      }
    }
    if street == PreFlop || street == Flop {
      slots := slots + [10 + player];
    }
    if street != River {
      slots := slots + [12 + player];
    }
    ghost var board := slots;
    for i := 0 to 2
      invariant slots == board + OwnOf(player)[..i]
    {
      slots := slots + [14 + 2 * player + i];
    }
  }

  // ---------- All-in ----------

  method AddReadExact(b: ProgramBuilder, prefix: bytes, call: bool, count: nat, phase: byte, action: byte,
                      ghost rest: Pieces)
    requires b.Valid() && b.pending == ReadExact(prefix, call, count, phase, action, rest)
    modifies b
    ensures b.Valid() && b.pending == rest
  {
    hide Flat;
    b.Add([CURRENTINPUT, NUM(0), NUMEQUALVERIFY]);
    if call {
      b.Add([NUMINPUTS, NUM(1), GREATERTHAN, VERIFY]);
    } else {
      b.Add([NUMINPUTS, NUM(1), NUMEQUALVERIFY]);
    }
    b.Add([DEPTH, NUM(count), NUMEQUALVERIFY]);
    b.Add(OpenSource(TYPE_STATE, HEADER));
    b.Add(RangeIs(0, OFF_PHASE, prefix));
    b.Add(RangeIs(OFF_PHASE, 2, [phase, action]));
  }

  method AddCall(b: ProgramBuilder, p: Params, actor: Player, ghost rest: Pieces)
    requires b.Valid() && b.pending == CheckCall(p, actor, rest)
    modifies b
    ensures b.Valid() && b.pending == rest
  {
    hide Flat, UnsignedField;
    b.AddUnsignedField(0, WagerOffset(Other(actor)), 8);
    b.Add([NUM(p.maxWager), NUMEQUALVERIFY]);
    b.AddUnsignedField(0, WagerOffset(actor), 8);
    b.Add([DUP, NUM(p.maxWager), LESSTHAN, VERIFY]);
    b.Add([NUM(2 * Half(p) + p.maxWager), ADD, NUM(0), INPUTVALUE, NUMEQUALVERIFY]);
    b.Add([NUM(2 * (Half(p) + p.maxWager)), NUM(0), OUTPUTVALUE, NUMEQUALVERIFY]);
    b.Add(KeepScript());
  }

  method AddCapped(b: ProgramBuilder, p: Params, ghost rest: Pieces)
    requires ValidParams(p) && b.Valid() && b.pending == CheckCapped(p, rest)
    modifies b
    ensures b.Valid() && b.pending == rest
  {
    hide Flat;
    b.Add(RangeIs(OFF_WAGER1, 8, Cap(p)));
    b.Add(RangeIs(OFF_WAGER2, 8, Cap(p)));
    b.Add([NUM(2 * (Half(p) + p.maxWager)), NUM(0), INPUTVALUE, NUMEQUALVERIFY]);
    b.Add([NUM(2 * (Half(p) + p.maxWager)), NUM(0), OUTPUTVALUE, NUMEQUALVERIFY]);
    b.Add(KeepScript());
  }

  method AddSuccessor(b: ProgramBuilder, p: Params, prefix: bytes, call: bool, phase: byte, ghost rest: Pieces)
    requires ValidParams(p) && b.Valid()
      && b.pending == OpenSuccessor(prefix, phase, CheckWagers(p, call, CheckDeadline(rest)))
    modifies b
    ensures b.Valid() && b.pending == rest
  {
    hide Flat, UnsignedField;
    b.Add(OpenNext(TYPE_STATE, HEADER));
    b.Add(RangeIs(0, OFF_PHASE, prefix));
    b.Add(RangeIs(OFF_PHASE, 2, [phase, 0]));
    if call {
      b.Add(RangeIs(OFF_WAGER1, 8, Cap(p)));
      b.Add(RangeIs(OFF_WAGER2, 8, Cap(p)));
    } else {
      b.Add([DUP, NUM(OFF_WAGER1), NUM(16), SUBSTR, NUM(2), PICK, NUM(OFF_WAGER1), NUM(16), SUBSTR, EQUALVERIFY]);
    }
    b.AddUnsignedField(0, OFF_DEADLINE, 8);
    b.AddUnsignedField(2, OFF_DEADLINE, 8);
    b.Add([NUM(DEADLINE_INTERVAL), ADD, NUMEQUALVERIFY]);
    b.Add([DROP2]);
  }

  method EmitAllIn(p: Params, call: bool, actor: Player, slots: seq<nat>, phase: byte, next: byte) returns (code: Code)
    requires ValidParams(p) && Batch(slots)
    ensures code == Flat(AllInPieces(p, call, actor, slots, phase, next))
  {
    hide Flat, ReadExact, CheckCall, CheckCapped, OpenSuccessor, CheckWagers, CheckDeadline, PublishPieces,
      HeaderPrefix;
    var prefix := HeaderPrefix(p.id);
    ghost var q2 := PublishPieces(actor, slots);
    ghost var q1 := OpenSuccessor(prefix, next, CheckWagers(p, call, CheckDeadline(q2)));
    var b := new ProgramBuilder(AllInPieces(p, call, actor, slots, phase, next));
    if call {
      AddReadExact(b, prefix, true, |slots|, phase, 2, CheckCall(p, actor, q1));
      AddCall(b, p, actor, q1);
    } else {
      AddReadExact(b, prefix, false, |slots|, phase, 0, CheckCapped(p, q1));
      AddCapped(b, p, q1);
    }
    AddSuccessor(b, p, prefix, call, next, q2);
    AddRemainingShares(b, actor, slots);
    FlatDone(b.code);
    return b.code;
  }

  method EmitAllInCall(p: Params, street: Street, actor: Player) returns (code: Option<Code>)
    requires |p.id| == 32 && p.initialDeadline <= MAX_U64
    ensures code == if ValidAmounts(p) then Some(Flat(CallPieces(p, street, actor))) else None
  {
    hide Flat, AllInPieces;
    var ok := ValidateAmounts(p);
    if !ok {
      return None;
    }
    var player, k := Index(actor), StreetIndex(street);
    var phase, next := 0x1c + 2 * k, 0x24 + 2 * k;
    if street == River {
      next := 0x18;
    }
    var slots := RemainingBatch(street, actor);
    KindBatches(RemainingKind(street), actor);
    var out := EmitAllIn(p, true, actor, slots, phase + player, next + 1 - player);
    return Some(out);
  }

  method EmitAllInReveal(p: Params, street: Street, actor: Player) returns (code: Option<Code>)
    requires |p.id| == 32 && p.initialDeadline <= MAX_U64
    ensures code == if ValidAmounts(p) && street != PreFlop then Some(Flat(LastRevealPieces(p, street, actor)))
      else None
  {
    hide Flat, AllInPieces;
    var ok := ValidateAmounts(p);
    if !ok || street == PreFlop {
      return None;
    }
    var slots := RemainingBatch(PreviousStreet(street), actor);
    KindBatches(RemainingKind(PreviousStreet(street)), actor);
    var out := EmitAllIn(p, false, actor, slots, 0x24 + 2 * (StreetIndex(street) - 1) + Index(actor), 0x1a);
    return Some(out);
  }

  // ---------- Funding and opening ----------

  method EmitPlayer1Funding(p: Params) returns (code: Option<Code>)
    requires |p.id| == 32 && p.initialDeadline <= MAX_U64
    ensures code == if ValidAmounts(p) then Some(Flat(FundingPieces(p))) else None
  {
    hide Flat, PreservationPieces, ProofPieces, KindSlots, Batch;
    var ok := ValidateAmounts(p);
    if !ok {
      return None;
    }
    KindBatches(OpponentHoles, Player1);
    var slots := KindSlots(OpponentHoles, Player1);
    ghost var q3 := Then([NUM(1)], Done);
    ghost var q2 := ProofPieces(Player1, slots, q3);
    ghost var q1 := FundedValues(p, q2);
    var b := new ProgramBuilder(FundingPieces(p));
    b.Add([CURRENTINPUT, NUM(0), NUMEQUALVERIFY]);
    b.Add([NUMINPUTS, NUM(2), GREATERTHANOREQUAL, VERIFY]);
    b.Add([DEPTH, NUM(2), NUMEQUALVERIFY]);
    b.Add(SourceIs(TYPE_STATE, InitialHeader(p)));
    AddInitialReveals(b, CheckFunded(p, PreservationPieces(slots, q1)));
    b.Add(OpenNext(TYPE_STATE, HEADER));
    b.Add(RangeIs(0, OFF_DEADLINE, FundedHeader(p)));
    b.Add(TakeField(OFF_DEADLINE, 8));
    b.Add([NUM(p.initialDeadline), NUM(DEADLINE_INTERVAL), ADD, NUMEQUALVERIFY]);
    AddPreservation(b, slots, q1);
    b.Add([NUM(0), INPUTVALUE, NUM(Half(p)), NUMEQUALVERIFY]);
    b.Add([NUM(0), OUTPUTVALUE, NUM(Pot(p)), NUMEQUALVERIFY]);
    b.Add(KeepScript());
    AddProofs(b, Player1, slots, q3);
    b.Add([NUM(1)]);
    FlatDone(b.code);
    return Some(b.code);
  }

  /** The three share packets of the source are all zero. */
  method AddInitialReveals(b: ProgramBuilder, ghost rest: Pieces)
    requires b.Valid() && b.pending == InitialReveals(rest)
    modifies b
    ensures b.Valid() && b.pending == rest
  {
    hide Flat, SourceIs;
    for k := 1 to 4
      invariant b.Valid()
      invariant b.pending == if k == 1 then InitialReveals(rest) else if k == 2 then InitialReveals(rest).rest
                             else if k == 3 then InitialReveals(rest).rest.rest else rest
    {
      b.Add(SourceIs(TYPE_STATE + k, Zeros(PacketLength(k))));
    }
  }

  method AddOpening(b: ProgramBuilder, p: Params, ghost rest: Pieces)
    requires ValidParams(p) && b.Valid() && b.pending == OpenOpening(p, ReadOpening(p, rest))
    modifies b
    ensures b.Valid() && b.pending == rest
  {
    hide Flat, UnsignedField;
    b.Add([CURRENTINPUT, NUM(0), NUMEQUALVERIFY]);
    b.Add([DEPTH, NUM(2), NUMEQUALVERIFY]);
    b.Add(OpenSource(TYPE_STATE, HEADER));
    b.Add(RangeIs(0, OFF_DEADLINE, FundedHeader(p)));
    b.Add(TakeField(OFF_DEADLINE, 8));
    b.Add([TOALT]);
    b.Add(OpenNext(TYPE_STATE, HEADER));
    b.Add(RangeIs(0, OFF_PHASE, HeaderPrefix(p.id)));
    b.Add(RangeIs(OFF_WAGER1, 8, Zeros(8)));
    b.AddUnsignedField(0, OFF_DEADLINE, 8);
    b.Add([FROMALT, NUM(DEADLINE_INTERVAL), ADD, NUMEQUALVERIFY]);
    b.AddUnsignedField(0, OFF_WAGER2, 8);
  }

  method AddBet(b: ProgramBuilder, p: Params, ghost rest: Pieces)
    requires b.Valid() && b.pending == CheckOpening(p, OpeningValues(p, rest))
    modifies b
    ensures b.Valid() && b.pending == rest
  {
    hide Flat, UnsignedField;
    b.Add([DUP, NUM(p.maxWager), LESSTHANOREQUAL, VERIFY]);
    b.Add([DUP, NUM(0), NUMEQUAL, OVER, NUM(p.minBet), GREATERTHANOREQUAL, BOOLOR, VERIFY]);
    b.Add([DUP, NUM(0), GREATERTHAN]);
    b.Add([DUP, NUMINPUTS, NUM(1), GREATERTHAN, NUMEQUALVERIFY]);
    b.Add([NUM(1), ADD]);
    b.AddUnsignedField(2, OFF_ACTION, 1);
    b.Add([NUMEQUALVERIFY]);
    b.Add([DUP, NUM(p.maxWager), NUMEQUAL, NUM(26), MUL, NUM(2), ADD]);
    b.AddUnsignedField(2, OFF_PHASE, 1);
    b.Add([NUMEQUALVERIFY]);
    b.Add([NUM(Pot(p)), ADD, NUM(0), OUTPUTVALUE, NUMEQUALVERIFY, DROP]);
    b.Add([NUM(0), INPUTVALUE, NUM(Pot(p)), NUMEQUALVERIFY]);
    b.Add(KeepScript());
  }

  method EmitPlayer2Opening(p: Params) returns (code: Option<Code>)
    requires |p.id| == 32 && p.initialDeadline <= MAX_U64
    ensures code == if ValidAmounts(p) then Some(Flat(OpeningPieces(p))) else None
  {
    hide Flat, OpenOpening, ReadOpening, CheckOpening, OpeningValues, PublishPieces, KindSlots, Batch;
    var ok := ValidateAmounts(p);
    if !ok {
      return None;
    }
    KindBatches(OpponentHoles, Player2);
    var slots := KindSlots(OpponentHoles, Player2);
    ghost var q2 := PublishPieces(Player2, slots);
    var b := new ProgramBuilder(OpeningPieces(p));
    AddOpening(b, p, CheckOpening(p, OpeningValues(p, q2)));
    AddBet(b, p, q2);
    AddRemainingShares(b, Player2, slots);
    FlatDone(b.code);
    return Some(b.code);
  }
}
