/** The emitters of the programs that settle a hand. */
module TerminalEmitters {
  import opened Bits
  import opened Bytes
  import opened Hand
  import opened Codec
  import opened Machine
  import opened Pieces
  import opened RevealPrograms
  import opened TerminalPrograms
  import opened ShowdownProgram
  import opened Emitters
  import opened Options

  // ---------- Exits ----------

  /** One bit for each phase, whatever the order and however often it is listed. */
  method PhaseMask(phases: seq<byte>) returns (allowed: nat)
    ensures allowed == Mask(phases)
    ensures forall b: byte :: Bit(allowed, b) <==> b in phases
  {
    allowed := 0;
    for i := 0 to |phases|
      invariant allowed == Mask(phases[..i])
    {
      assert phases[..i + 1][..i] == phases[..i];
      allowed := SetBit(allowed, phases[i]);
    }
    assert phases[..|phases|] == phases;
    forall b: byte ensures Bit(allowed, b) <==> b in phases {
      MaskTests(phases, b);
    }
  }

  method AddTerminalSource(b: ProgramBuilder, prefix: bytes, phases: seq<byte>, ghost rest: Pieces)
    requires b.Valid() && b.pending == TerminalSource(prefix, phases, rest)
    modifies b
    ensures b.Valid() && b.pending == rest
  {
    hide Flat, UnsignedField, Mask;
    var allowed := PhaseMask(phases);
    b.Add([CURRENTINPUT, NUM(0), NUMEQUALVERIFY]);
    b.Add([NUMINPUTS, NUM(1), NUMEQUALVERIFY]);
    b.Add(OpenSource(TYPE_STATE, HEADER));
    b.Add(RangeIs(0, OFF_PHASE, prefix));
    b.Add([NUM(allowed)]);
    b.AddUnsignedField(1, OFF_PHASE, 1);
    b.Add([RSHIFT, NUM(2), MOD, VERIFY]);
    b.Add([NUM(0), INPUTVALUE]);
  }

  method AddAbsence(b: ProgramBuilder, ghost rest: Pieces)
    requires b.Valid() && b.pending == NoSuccessor(rest)
    modifies b
    ensures b.Valid() && b.pending == rest
  {
    hide Flat;
    ghost var q := NoSuccessor(rest);
    for kind := 0 to 4
      invariant b.Valid()
      invariant b.pending == if kind == 0 then q else if kind == 1 then q.rest else if kind == 2 then q.rest.rest
                             else if kind == 3 then q.rest.rest.rest else rest
    {
      b.Add([NUM(TYPE_STATE + kind), PACKET, NOT, VERIFY, DROP]);
    }
  }

  /** Player 2's phases follow Player 1's by one. */
  method ActorPhases(actor: Player) returns (phases: seq<byte>)
    ensures phases == ConcessionPhases(actor)
  {
    var shifted: array<byte> := new byte[13](i requires 0 <= i < 13 => CONCESSION_PHASES[i]);
    for i := 0 to 13
      invariant forall k | 0 <= k < i :: shifted[k] == CONCESSION_PHASES[k] + Index(actor)
      invariant forall k | i <= k < 13 :: shifted[k] == CONCESSION_PHASES[k]
    {
      shifted[i] := shifted[i] + Index(actor);
    }
    phases := shifted[..];
  }

  method EmitConcession(p: Params, payees: Payees, actor: Player) returns (code: Option<Code>)
    requires |p.id| == 32
    ensures code == if ValidAmounts(p) then Some(Flat(ConcessionPieces(p, payees, actor))) else None
  {
    hide Flat, TerminalSource, NoSuccessor, ConcessionPhases, HeaderPrefix;
    var ok := ValidateAmounts(p);
    if !ok {
      return None;
    }
    var phases := ActorPhases(actor);
    var output := Index(actor);
    var b := new ProgramBuilder(ConcessionPieces(p, payees, actor));
    b.Add([DEPTH, NUM(0), NUMEQUALVERIFY]);
    AddTerminalSource(b, HeaderPrefix(p.id), phases, ConcessionTail(p, payees, actor));
    b.Add([SWAP, DROP, DUP]);
    b.Add([NUM(p.bond), GREATERTHANOREQUAL, VERIFY]);
    b.Add([NUM(p.bond), NUM(output), OUTPUTVALUE, NUMEQUALVERIFY]);
    b.Add([NUM(p.bond), SUB, NUM(1 - output), OUTPUTVALUE, NUMEQUALVERIFY]);
    b.Add(PayoutTo(0, payees.script1));
    b.Add(PayoutTo(1, payees.script2));
    AddAbsence(b, Verdict());
    b.Add([NUM(1)]);
    FlatDone(b.code);
    return Some(b.code);
  }

  /** Every live phase whose obligated actor is the beneficiary's opponent. */
  method OpponentPhases(beneficiary: Player) returns (phases: seq<byte>)
    ensures phases == TimeoutPhases(beneficiary)
  {
    var parity := 0;
    if beneficiary == Player1 {
      parity := 1;
    }
    phases := [];
    for phase := 0 to 0x2a
      invariant phases == TimeoutPhasesBelow(beneficiary, phase)
    {
      if phase != 0x1a && phase != 0x1b && phase % 2 == parity {
        phases := phases + [phase];
      }
    }
  }

  method EmitTimeout(p: Params, payees: Payees, beneficiary: Player) returns (code: Option<Code>)
    requires |p.id| == 32
    ensures code == if ValidAmounts(p) then Some(Flat(TimeoutPieces(p, payees, beneficiary))) else None
  {
    hide Flat, TerminalSource, NoSuccessor, TimeoutPhases, HeaderPrefix;
    var ok := ValidateAmounts(p);
    if !ok {
      return None;
    }
    var phases := OpponentPhases(beneficiary);
    var destination := payees.script1;
    if beneficiary == Player2 {
      destination := payees.script2;
    }
    var b := new ProgramBuilder(TimeoutPieces(p, payees, beneficiary));
    b.Add([DEPTH, NUM(0), NUMEQUALVERIFY]);
    AddTerminalSource(b, HeaderPrefix(p.id), phases, TimeoutTail(payees, beneficiary));
    b.Add([SWAP]);
    b.Add(TakeField(OFF_DEADLINE, 8));
    b.Add([CHECKTIMEVERIFY]);
    b.Add([NUM(0), OUTPUTVALUE, NUMEQUALVERIFY]);
    b.Add(PayoutTo(0, destination));
    AddAbsence(b, Verdict());
    b.Add([NUM(1)]);
    FlatDone(b.code);
    return Some(b.code);
  }

  // ---------- Showdown ----------

  method AddShowdownSource(b: ProgramBuilder, p: Params, ghost rest: Pieces)
    requires |p.id| == 32 && b.Valid() && b.pending == ReadEvaluation(p, ReadWager(p, CheckShapes(rest)))
    modifies b
    ensures b.Valid() && b.pending == rest
  {
    hide Flat, UnsignedField;
    b.Add([DEPTH, NUM(7), NUMEQUALVERIFY]);
    b.Add([CURRENTINPUT, NUM(0), NUMEQUALVERIFY]);
    b.Add([NUMINPUTS, NUM(1), NUMEQUALVERIFY]);
    b.Add(OpenSource(TYPE_STATE, HEADER));
    b.Add(RangeIs(0, OFF_PHASE, HeaderPrefix(p.id)));
    b.Add(RangeIs(OFF_PHASE, 2, [0x1a, 0]));
    b.AddUnsignedField(0, OFF_WAGER1, 8);
    b.Add([DUP, NUM(p.maxWager), LESSTHANOREQUAL, VERIFY]);
    b.AddUnsignedField(1, OFF_WAGER2, 8);
    b.Add([OVER, NUMEQUALVERIFY]);
    b.Add([SWAP, DROP]);
    b.Add([DUP, NUM(Half(p)), ADD, NUM(2), MUL]);
    b.Add([DUP, NUM(0), INPUTVALUE, NUMEQUALVERIFY]);
    AddShapes(b, rest);
  }

  method AddShapes(b: ProgramBuilder, ghost rest: Pieces)
    requires b.Valid() && b.pending == CheckShapes(rest)
    modifies b
    ensures b.Valid() && b.pending == rest
  {
    hide Flat, OpenSource;
    ghost var q := CheckShapes(rest);
    for k := 1 to 4
      invariant b.Valid()
      invariant b.pending == if k == 1 then q else if k == 2 then q.rest.rest else if k == 3 then q.rest.rest.rest.rest
        else rest
    {
      b.Add(OpenSource(TYPE_STATE + k, PacketLength(k)));
      b.Add([DROP]);
    }
  }

  method AddOpenedCards(b: ProgramBuilder, ghost rest: Pieces)
    requires b.Valid() && b.pending == OpenCards(0, rest)
    modifies b
    ensures b.Valid() && b.pending == rest
  {
    hide Flat, CardSlots;
    for i := 0 to CARDS
      invariant b.Valid() && b.pending == OpenCards(i, rest)
    {
      b.Add([DEALTCARD(i, CardSlots(i).0, CardSlots(i).1)]);
    }
  }

  method AddReadCards(b: ProgramBuilder, ghost rest: Pieces)
    requires b.Valid() && b.pending == ReadCards(0, rest)
    modifies b
    ensures b.Valid() && b.pending == rest
  {
    hide Flat, TakeField;
    for i := 0 to CARDS
      invariant b.Valid() && b.pending == ReadCards(i, rest)
    {
      b.Add([NUM(i), PICK]);
      b.Add(TakeField(i, 1));
    }
  }

  /** Every card against every later one. */
  method AddDistinct(b: ProgramBuilder, ghost rest: Pieces)
    requires b.Valid() && b.pending == Distinct(0, rest)
    modifies b
    ensures b.Valid() && b.pending == rest
  {
    hide Flat;
    for i := 0 to CARDS
      invariant b.Valid() && b.pending == Distinct(i, rest)
    {
      for j := i + 1 to CARDS
        invariant b.Valid() && b.pending == DistinctFrom(i, j, Distinct(i + 1, rest))
      {
        b.Add([NUM(8 - i), PICK, NUM(9 - j), PICK, NUMNOTEQUAL, VERIFY]);
      }
    }
  }

  method AddMask(b: ProgramBuilder, player: Player, ghost rest: Pieces)
    requires b.Valid() && b.pending == MaskPieces(player, rest)
    modifies b
    ensures b.Valid() && b.pending == rest
  {
    hide Flat, Seven;
    var positions := Seven(player);
    b.Add([NUM(0)]);
    for i := 0 to |positions|
      invariant b.Valid() && b.pending == AddBits(10 + Index(player), positions[i..], rest)
    {
      assert positions[i..][0] == positions[i] && positions[i..][1..] == positions[i + 1..];
      var depth := 10 + Index(player) - positions[i];
      b.Add([NUM(1), NUM(depth), PICK, LSHIFT, ADD]);
    }
  }

  method AddSettlement(b: ProgramBuilder, p: Params, payees: Payees, ghost rest: Pieces)
    requires b.Valid() && b.pending == ProveRank(18, ProveRank(16, SplitPieces(p, PayBoth(payees, rest))))
    modifies b
    ensures b.Valid() && b.pending == rest
  {
    hide Flat, NoSuccessor;
    b.Add([NUM(1), PICK, NUM(18), PICK, NUM(18), PICK, NUM(18), PICK]);
    b.Add([RANKPROOF]);
    b.Add([NUM(1), PICK, NUM(16), PICK, NUM(16), PICK, NUM(16), PICK]);
    b.Add([RANKPROOF]);
    b.Add([DUP2, GREATERTHAN, NUM(2), MUL, TOALT]);
    b.Add([NUMEQUAL, FROMALT, ADD]);
    b.Add([FROMALT, MUL, NUM(p.bond), ADD]);
    b.Add([FROMALT, OVER, SUB]);
    b.Add([NUM(1), OUTPUTVALUE, NUMEQUALVERIFY]);
    b.Add([NUM(0), OUTPUTVALUE, NUMEQUALVERIFY]);
    b.Add(PayoutTo(0, payees.script1));
    b.Add(PayoutTo(1, payees.script2));
    AddAbsence(b, rest);
  }

  method EmitShowdown(p: Params, payees: Payees) returns (code: Option<Code>)
    requires |p.id| == 32
    ensures code == if ValidAmounts(p) then Some(Flat(ShowdownPieces(p, payees))) else None
  {
    hide Flat, ReadEvaluation, ReadWager, CheckShapes, OpenCards, ReadCards, Distinct, MaskPieces, ProveRank,
      SplitPieces, PayBoth;
    var ok := ValidateAmounts(p);
    if !ok {
      return None;
    }
    ghost var q5 := DropAll(Verdict());
    ghost var q4 := ProveRank(18, ProveRank(16, SplitPieces(p, PayBoth(payees, q5))));
    ghost var q3 := SettlePieces(p, payees);
    ghost var q2 := OpenCards(0, ReadCards(0, Distinct(0, q3)));
    ghost var q1 := Then([TOALT, NUM(p.stake), ADD, TOALT], Then([SIZE, NUM(CARDS), NUMEQUALVERIFY], q2));
    var b := new ProgramBuilder(ShowdownPieces(p, payees));
    AddShowdownSource(b, p, q1);
    b.Add([TOALT, NUM(p.stake), ADD, TOALT]);
    b.Add([SIZE, NUM(CARDS), NUMEQUALVERIFY]);
    AddOpenedCards(b, ReadCards(0, Distinct(0, q3)));
    AddReadCards(b, Distinct(0, q3));
    AddDistinct(b, q3);
    AddMask(b, Player1, MaskPieces(Player2, q4));
    AddMask(b, Player2, q4);
    AddSettlement(b, p, payees, q5);
    b.Add([DROP2, DROP2]);
    b.Add([DROP2, DROP2, DROP2]);
    b.Add([DROP2, DROP2]);
    b.Add([DROP2, DROP2]);
    b.Add([NUM(1)]);
    FlatDone(b.code);
    return Some(b.code);
  }
}
