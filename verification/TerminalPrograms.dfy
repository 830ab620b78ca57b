/** The exit programs: concession and timeout, which authenticate only the header, the phase and the value. */
module TerminalPrograms {
  import opened Bits
  import opened Bytes
  import opened Hand
  import opened Codec
  import opened Terminals
  import opened Machine
  import opened Laws
  import opened Pieces
  import opened Options

  /** Where each player is paid. */
  datatype Payees = Payees(script1: Script, script2: Script)

  function Payee(payees: Payees, player: Player): (s: Script) {
    if player == Player1 then payees.script1 else payees.script2
  }

  // ---------- The phase mask ----------

  /** Player 1's betting, showdown and all-in bytes, each followed by Player 2's. */
  const CONCESSION_PHASES: seq<byte> := [2, 4, 6, 8, 0x16, 0x18, 0x1c, 0x1e, 0x20, 0x22, 0x24, 0x26, 0x28]

  function ConcessionPhases(actor: Player): (phases: seq<byte>) {
    if actor == Player1 then CONCESSION_PHASES else [3, 5, 7, 9, 0x17, 0x19, 0x1d, 0x1f, 0x21, 0x23, 0x25, 0x27, 0x29]
  }

  /** The phases below `n` of the right parity, evaluation and the unused byte aside. */
  function TimeoutPhasesBelow(beneficiary: Player, n: nat): (phases: seq<byte>)
    requires n <= 0x2a
  {
    if n == 0 then []
    else
      var rest, b := TimeoutPhasesBelow(beneficiary, n - 1), n - 1;
      if b != 0x1a && b != 0x1b && b % 2 == 1 - Index(beneficiary) then rest + [b] else rest
  }

  function TimeoutPhases(beneficiary: Player): (phases: seq<byte>) { TimeoutPhasesBelow(beneficiary, 0x2a) }

  /** The listed bytes are the actor's phases that allow a concession. */
  lemma ConcessionPhasesAre(actor: Player, b: byte)
    ensures b in ConcessionPhases(actor)
      <==> DecodePhase(b).Some? && MayConcede(DecodePhase(b).value) && DecodePhase(b).value.actor == actor
  {
  }

  lemma {:induction false} BelowAre(beneficiary: Player, n: nat, b: byte)
    requires n <= 0x2a
    ensures b in TimeoutPhasesBelow(beneficiary, n)
      <==> b < n && b != 0x1a && b != 0x1b && b % 2 == 1 - Index(beneficiary)
  {
    if n > 0 {
      BelowAre(beneficiary, n - 1, b);
    }
  }

  /** The listed bytes are the phases whose obligated actor is the beneficiary's opponent. */
  lemma TimeoutPhasesAre(beneficiary: Player, b: byte)
    ensures b in TimeoutPhases(beneficiary)
      <==> DecodePhase(b).Some? && RequiredActor(DecodePhase(b).value) == Some(Other(beneficiary))
  {
    hide TimeoutPhasesBelow;
    BelowAre(beneficiary, 0x2a, b);
    ObligatedBytes(beneficiary, b);
  }

  lemma ObligatedBytes(beneficiary: Player, b: byte)
    ensures DecodePhase(b).Some? && RequiredActor(DecodePhase(b).value) == Some(Other(beneficiary))
      <==> b < 0x2a && b != 0x1a && b != 0x1b && b % 2 == 1 - Index(beneficiary)
  {
  }

  // ---------- The code ----------

  /** Leaves the header and, above it, the value the covenant output actually holds. */
  function TerminalSource(prefix: bytes, phases: seq<byte>, rest: Pieces): (q: Pieces) {
    Then(OnlyFirstInput(), Then(OneInput(), Then(OpenSource(TYPE_STATE, HEADER), Then(RangeIs(0, OFF_PHASE, prefix),
    Then([NUM(Mask(phases))], Then(UnsignedField(1, OFF_PHASE, 1), Then([RSHIFT, NUM(2), MOD, VERIFY],
    Then([NUM(0), INPUTVALUE], rest))))))))
  }

  function PayoutTo(index: nat, script: Script): (c: Code) {
    [NUM(index), OUTPUTSCRIPT, NUM(script.version), NUMEQUALVERIFY, DATA(script.program), EQUALVERIFY]
  }

  function Absent(kind: int): (c: Code) { [NUM(kind), PACKET, NOT, VERIFY, DROP] }

  /** No successor state may appear after an exit. */
  function NoSuccessor(rest: Pieces): (q: Pieces) {
    Then(Absent(TYPE_STATE),
         Then(Absent(TYPE_STATE + 1), Then(Absent(TYPE_STATE + 2), Then(Absent(TYPE_STATE + 3), rest))))
  }

  function Verdict(): (q: Pieces) { Then([NUM(1)], Done) }

  function ConcessionTail(p: Params, payees: Payees, actor: Player): (q: Pieces) {
    Then([SWAP, DROP, DUP], Then([NUM(p.bond), GREATERTHANOREQUAL, VERIFY],
    Then([NUM(p.bond), NUM(Index(actor)), OUTPUTVALUE, NUMEQUALVERIFY],
    Then([NUM(p.bond), SUB, NUM(1 - Index(actor)), OUTPUTVALUE, NUMEQUALVERIFY],
    Then(PayoutTo(0, payees.script1), Then(PayoutTo(1, payees.script2), NoSuccessor(Verdict())))))))
  }

  function ConcessionPieces(p: Params, payees: Payees, actor: Player): (q: Pieces)
    requires |p.id| == 32
  {
    Then(WitnessCount(0), TerminalSource(HeaderPrefix(p.id), ConcessionPhases(actor), ConcessionTail(p, payees, actor)))
  }

  function TimeoutTail(payees: Payees, beneficiary: Player): (q: Pieces) {
    Then([SWAP], Then(TakeField(OFF_DEADLINE, 8), Then([CHECKTIMEVERIFY], Then([NUM(0), OUTPUTVALUE, NUMEQUALVERIFY],
    Then(PayoutTo(0, Payee(payees, beneficiary)), NoSuccessor(Verdict()))))))
  }

  function TimeoutPieces(p: Params, payees: Payees, beneficiary: Player): (q: Pieces)
    requires |p.id| == 32
  {
    Then(WitnessCount(0),
         TerminalSource(HeaderPrefix(p.id), TimeoutPhases(beneficiary), TimeoutTail(payees, beneficiary)))
  }

  // ---------- What each part checks ----------

  predicate SourceAdmits(prefix: bytes, phases: seq<byte>, tx: Spend) {
    && tx.current == 0 && |tx.inputs| == 1 && HasHeader(SourcePackets(tx), prefix)
    && SourcePackets(tx)[TYPE_STATE][OFF_PHASE] in phases
  }

  lemma TerminalSourceGoes(prefix: bytes, phases: seq<byte>, rest: Pieces, s: Stack, tx: Spend)
    ensures Go(TerminalSource(prefix, phases, rest), tx, Ok(s, Bottom))
      == if SourceAdmits(prefix, phases, tx)
         then Go(rest, tx,
                 Ok(Push(Num(tx.inputs[0].value), Push(Data(SourcePackets(tx)[TYPE_STATE]), s)), Bottom)) else Failed
  {
    hide Run, Go, Step, Exec, OnlyFirstInput, OneInput, OpenSource, RangeIs, UnsignedField, Mask, Field;
    var q := TerminalSource(prefix, phases, rest);
    OnlyFirstInputGoes(q, tx, s, Bottom, NoBranch);
    q := q.rest;
    OneInputGoes(q, tx, s, Bottom, NoBranch);
    q := q.rest;
    OpenSourceGoes(q, TYPE_STATE, HEADER, tx, s, Bottom, NoBranch);
    q := q.rest;
    if Sized(SourcePackets(tx), TYPE_STATE, HEADER) {
      var h := SourcePackets(tx)[TYPE_STATE];
      RangeIsGoes(q, 0, OFF_PHASE, prefix, h, tx, s, Bottom, NoBranch);
      if |tx.inputs| == 1 {
        PhaseTestGoes(q.rest, phases, h, rest, s, tx);
      }
    }
  }

  lemma PhaseTestGoes(q: Pieces, phases: seq<byte>, h: bytes, rest: Pieces, s: Stack, tx: Spend)
    requires |h| == HEADER && |tx.inputs| == 1 && q == TerminalSource([], phases, rest).rest.rest.rest.rest
    ensures Go(q, tx, Ok(Push(Data(h), s), Bottom))
      == if h[OFF_PHASE] in phases then Go(rest, tx, Ok(Push(Num(tx.inputs[0].value), Push(Data(h), s)), Bottom))
        else Failed
  {
    hide Run, Go, Step, Exec, UnsignedField, Mask, Field, Pow2;
    PushLaws(tx);
    CheckLaws(tx);
    DivisionLaws(tx);
    ShiftLaws(tx);
    InspectionLaws(tx);
    var d, m, b := Push(Data(h), s), Mask(phases), h[OFF_PHASE];
    Go1(q, NUM(m), tx, Ok(d, Bottom));
    var d1 := Push(Num(m), d);
    UnsignedFieldGoes(q.rest, 1, OFF_PHASE, 1, h, tx, d1, Bottom, NoBranch);
    OneByteField(h, OFF_PHASE);
    MaskTests(phases, b);
    Go4(q.rest.rest, RSHIFT, NUM(2), MOD, VERIFY, tx, Ok(Push(Num(b), d1), Bottom));
    Go2(q.rest.rest.rest, NUM(0), INPUTVALUE, tx, Ok(d, Bottom));
  }

  predicate PaidScript(index: nat, script: Script, tx: Spend) {
    index < |tx.outputs| && tx.outputs[index].script == script
  }

  lemma PayoutGoes(q: Pieces, index: nat, script: Script, s: Stack, tx: Spend)
    requires q.Then? && q.piece == PayoutTo(index, script)
    ensures Go(q, tx, Ok(s, Bottom)) == if PaidScript(index, script, tx) then Go(q.rest, tx, Ok(s, Bottom)) else Failed
  {
    hide Run, Go, Step, Exec;
    PushLaws(tx);
    CheckLaws(tx);
    ScriptLaws(tx);
    Go6(q, NUM(index), OUTPUTSCRIPT, NUM(script.version), NUMEQUALVERIFY, DATA(script.program), EQUALVERIFY, tx,
        Ok(s, Bottom));
  }

  lemma AbsentGoes(q: Pieces, kind: int, s: Stack, tx: Spend)
    requires q.Then? && q.piece == Absent(kind)
    ensures Go(q, tx, Ok(s, Bottom)) == if kind !in tx.packets then Go(q.rest, tx, Ok(s, Bottom)) else Failed
  {
    hide Run, Go, Step, Exec;
    PushLaws(tx);
    StackLaws(tx);
    CheckLaws(tx);
    ScriptLaws(tx);
    Go5(q, NUM(kind), PACKET, NOT, VERIFY, DROP, tx, Ok(s, Bottom));
  }

  predicate Settles(tx: Spend) { forall k | TYPE_STATE <= k <= TYPE_STATE + 3 :: k !in tx.packets }

  lemma NoSuccessorGoes(rest: Pieces, s: Stack, tx: Spend)
    ensures Go(NoSuccessor(rest), tx, Ok(s, Bottom)) == if Settles(tx) then Go(rest, tx, Ok(s, Bottom)) else Failed
  {
    hide Run, Go, Step, Exec, Absent;
    var q := NoSuccessor(rest);
    AbsentGoes(q, TYPE_STATE, s, tx);
    AbsentGoes(q.rest, TYPE_STATE + 1, s, tx);
    AbsentGoes(q.rest.rest, TYPE_STATE + 2, s, tx);
    AbsentGoes(q.rest.rest.rest, TYPE_STATE + 3, s, tx);
  }

  // ---------- The two programs ----------

  /** The spend's first outputs are exactly these payouts, and it leaves no successor state. */
  predicate Pays(payees: Payees, payouts: seq<Payout>, tx: Spend) {
    && |payouts| <= |tx.outputs|
    && (forall i | 0 <= i < |payouts| :: tx.outputs[i] == Output(payouts[i].value, Payee(payees, payouts[i].player)))
    && Settles(tx)
  }

  lemma ConcessionGoes(p: Params, payees: Payees, actor: Player, tx: Spend, s: Stack)
    requires |p.id| == 32
    ensures Go(ConcessionPieces(p, payees, actor), tx, Ok(s, Bottom))
      == if s == Bottom && SourceAdmits(HeaderPrefix(p.id), ConcessionPhases(actor), tx) && tx.inputs[0].value >= p.bond
            && |tx.outputs| >= 2 && tx.outputs[Index(actor)].value == p.bond
            && tx.outputs[1 - Index(actor)].value == tx.inputs[0].value - p.bond
            && PaidScript(0, payees.script1, tx) && PaidScript(1, payees.script2, tx) && Settles(tx)
         then Ok(Push(Num(1), Bottom), Bottom) else Failed
  {
    hide Run, Go, Step, Exec, WitnessCount, TerminalSource, PayoutTo, NoSuccessor, SourceAdmits, Settles, HeaderPrefix,
         ConcessionPhases;
    var q := ConcessionPieces(p, payees, actor);
    WitnessCountGoes(q, 0, tx, s, Bottom, NoBranch);
    if s == Bottom {
      var r := ConcessionTail(p, payees, actor);
      TerminalSourceGoes(HeaderPrefix(p.id), ConcessionPhases(actor), r, s, tx);
      if SourceAdmits(HeaderPrefix(p.id), ConcessionPhases(actor), tx) {
        Admitted(HeaderPrefix(p.id), ConcessionPhases(actor), tx);
        ConcessionTailGoes(p, payees, actor, tx.inputs[0].value, SourcePackets(tx)[TYPE_STATE], tx);
      }
    }
  }

  lemma Admitted(prefix: bytes, phases: seq<byte>, tx: Spend)
    requires SourceAdmits(prefix, phases, tx)
    ensures |tx.inputs| == 1 && Sized(SourcePackets(tx), TYPE_STATE, HEADER)
  {
  }

  lemma ConcessionTailGoes(p: Params, payees: Payees, actor: Player, v: int, h: bytes, tx: Spend)
    ensures Go(ConcessionTail(p, payees, actor), tx, Ok(Push(Num(v), Push(Data(h), Bottom)), Bottom))
      == if v >= p.bond && |tx.outputs| >= 2 && tx.outputs[Index(actor)].value == p.bond
            && tx.outputs[1 - Index(actor)].value == v - p.bond
            && PaidScript(0, payees.script1, tx) && PaidScript(1, payees.script2, tx) && Settles(tx)
         then Ok(Push(Num(1), Bottom), Bottom) else Failed
  {
    hide Run, Go, Step, Exec, PayoutTo, NoSuccessor, Settles;
    PushLaws(tx);
    StackLaws(tx);
    CheckLaws(tx);
    ArithmeticLaws(tx);
    ComparisonLaws(tx);
    InspectionLaws(tx);
    var q, s := ConcessionTail(p, payees, actor), Ok(Push(Num(v), Bottom), Bottom);
    Go3(q, SWAP, DROP, DUP, tx, Ok(Push(Num(v), Push(Data(h), Bottom)), Bottom));
    var r := q.rest;
    Go3(r, NUM(p.bond), GREATERTHANOREQUAL, VERIFY, tx, Ok(Push(Num(v), Push(Num(v), Bottom)), Bottom));
    r := r.rest;
    Go4(r, NUM(p.bond), NUM(Index(actor)), OUTPUTVALUE, NUMEQUALVERIFY, tx, s);
    r := r.rest;
    Go5(r, NUM(p.bond), SUB, NUM(1 - Index(actor)), OUTPUTVALUE, NUMEQUALVERIFY, tx, s);
    r := r.rest;
    PayoutGoes(r, 0, payees.script1, Bottom, tx);
    PayoutGoes(r.rest, 1, payees.script2, Bottom, tx);
    NoSuccessorGoes(Verdict(), Bottom, tx);
    EndGoes(tx);
  }

  /** The phase and value an exit consults: the header of the source packets and the first input. */
  function ExitPhase(p: Params, tx: Spend): (phase: Option<Phase>)
    requires |p.id| == 32
  {
    if tx.current == 0 && |tx.inputs| == 1 && HasHeader(SourcePackets(tx), HeaderPrefix(p.id))
    then DecodePhase(SourcePackets(tx)[TYPE_STATE][OFF_PHASE]) else None
  }

  /** The concession program accepts exactly the settlements the concession builder makes for its actor. */
  lemma ConcessionProgramIsConcession(p: Params, payees: Payees, actor: Player, tx: Spend, proofs: seq<bytes>)
    requires ValidParams(p) && (|tx.inputs| > 0 ==> Money(tx.inputs[0].value))
    ensures Accepts(Flat(ConcessionPieces(p, payees, actor)), tx, proofs)
      <==> && proofs == [] && ExitPhase(p, tx).Some? && MayConcede(ExitPhase(p, tx).value)
           && ExitPhase(p, tx).value.actor == actor
           && ConcessionPayouts(p, ExitPhase(p, tx).value, tx.inputs[0].value).Some?
           && Pays(payees, ConcessionPayouts(p, ExitPhase(p, tx).value, tx.inputs[0].value).value, tx)
  {
    hide Run, Go, ConcessionPieces, ConcessionPhases, DecodePhase, HeaderPrefix, Settles;
    GoIsRun(ConcessionPieces(p, payees, actor), tx, Ok(Witness(proofs), Bottom));
    ConcessionGoes(p, payees, actor, tx, Witness(proofs));
    EmptyWitness(proofs);
    if |tx.inputs| == 1 && HasHeader(SourcePackets(tx), HeaderPrefix(p.id)) {
      ConcessionPhasesAre(actor, SourcePackets(tx)[TYPE_STATE][OFF_PHASE]);
    }
  }

  lemma EmptyWitness(proofs: seq<bytes>)
    ensures Witness(proofs) == Bottom <==> proofs == []
  {
  }

  lemma TimeoutGoes(p: Params, payees: Payees, beneficiary: Player, tx: Spend, s: Stack)
    requires |p.id| == 32
    ensures Go(TimeoutPieces(p, payees, beneficiary), tx, Ok(s, Bottom))
      == if s == Bottom && SourceAdmits(HeaderPrefix(p.id), TimeoutPhases(beneficiary), tx)
            && Field(SourcePackets(tx)[TYPE_STATE], OFF_DEADLINE, 8) <= tx.time
            && |tx.outputs| >= 1 && tx.outputs[0].value == tx.inputs[0].value
            && PaidScript(0, Payee(payees, beneficiary), tx) && Settles(tx)
         then Ok(Push(Num(1), Bottom), Bottom) else Failed
  {
    hide Run, Go, Step, Exec, WitnessCount, TerminalSource, PayoutTo, NoSuccessor, SourceAdmits, Settles, HeaderPrefix,
         TimeoutPhases, TakeField, Field;
    var q := TimeoutPieces(p, payees, beneficiary);
    WitnessCountGoes(q, 0, tx, s, Bottom, NoBranch);
    if s == Bottom {
      var r := TimeoutTail(payees, beneficiary);
      TerminalSourceGoes(HeaderPrefix(p.id), TimeoutPhases(beneficiary), r, s, tx);
      if SourceAdmits(HeaderPrefix(p.id), TimeoutPhases(beneficiary), tx) {
        Admitted(HeaderPrefix(p.id), TimeoutPhases(beneficiary), tx);
        PushLaws(tx);
        StackLaws(tx);
        CheckLaws(tx);
        InspectionLaws(tx);
        var h, v := SourcePackets(tx)[TYPE_STATE], Push(Num(tx.inputs[0].value), Bottom);
        Go1(r, SWAP, tx, Ok(Push(Num(tx.inputs[0].value), Push(Data(h), s)), Bottom));
        r := r.rest;
        TakeFieldGoes(r, OFF_DEADLINE, 8, h, tx, v, Bottom, NoBranch);
        r := r.rest;
        Go1(r, CHECKTIMEVERIFY, tx, Ok(Push(Num(Field(h, OFF_DEADLINE, 8)), v), Bottom));
        r := r.rest;
        Go3(r, NUM(0), OUTPUTVALUE, NUMEQUALVERIFY, tx, Ok(v, Bottom));
        PayoutGoes(r.rest, 0, Payee(payees, beneficiary), Bottom, tx);
        NoSuccessorGoes(Verdict(), Bottom, tx);
        EndGoes(tx);
      }
    }
  }

  /** The timeout program accepts exactly the settlements the timeout builder makes for its beneficiary, once mature. */
  lemma TimeoutProgramIsTimeout(p: Params, payees: Payees, beneficiary: Player, tx: Spend, proofs: seq<bytes>)
    requires ValidParams(p) && (|tx.inputs| > 0 ==> Money(tx.inputs[0].value))
    ensures Accepts(Flat(TimeoutPieces(p, payees, beneficiary)), tx, proofs)
      <==> && proofs == [] && ExitPhase(p, tx).Some?
           && RequiredActor(ExitPhase(p, tx).value) == Some(Other(beneficiary))
           && Field(SourcePackets(tx)[TYPE_STATE], OFF_DEADLINE, 8) <= tx.time
           && TimeoutPayouts(ExitPhase(p, tx).value, tx.inputs[0].value).Some?
           && Pays(payees, TimeoutPayouts(ExitPhase(p, tx).value, tx.inputs[0].value).value, tx)
  {
    hide Run, Go, TimeoutPieces, TimeoutPhases, DecodePhase, HeaderPrefix, Settles, Field;
    GoIsRun(TimeoutPieces(p, payees, beneficiary), tx, Ok(Witness(proofs), Bottom));
    TimeoutGoes(p, payees, beneficiary, tx, Witness(proofs));
    EmptyWitness(proofs);
    if |tx.inputs| == 1 && HasHeader(SourcePackets(tx), HeaderPrefix(p.id)) {
      TimeoutPhasesAre(beneficiary, SourcePackets(tx)[TYPE_STATE][OFF_PHASE]);
    }
  }
}
