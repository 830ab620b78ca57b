/** The betting program: the code `emitBetting` assembles and exactly which spends it accepts. */
module Betting {
  import opened Bytes
  import opened Hand
  import opened Codec
  import opened Machine
  import opened Laws
  import opened Pieces
  import opened Preservation

  // ---------- The constants the emitter computes ----------

  function SourceByte(street: Street, actor: Player): (b: byte) { 2 + 2 * StreetIndex(street) + Index(actor) }

  function BettingByte(street: Street, actor: Player): (b: byte) { 2 + 2 * StreetIndex(street) + 1 - Index(actor) }

  function ClosingByte(street: Street, actor: Player): (b: byte) { 0x0a + 4 * StreetIndex(street) + 1 - Index(actor) }

  function LeastAction(street: Street, actor: Player): (l: nat) { if street == PreFlop then 1 + Index(actor) else 0 }

  // ---------- The code ----------

  function ReadSource(prefix: bytes, street: Street, actor: Player, rest: Pieces): (p: Pieces) {
    Then(OnlyFirstInput(), Then(WitnessCount(0), Then(OpenSource(TYPE_STATE, HEADER),
    Then(RangeIs(0, OFF_PHASE, prefix), Then(RangeIs(OFF_PHASE, 1, [SourceByte(street, actor)]),
    ReadBets(actor, rest))))))
  }

  function ReadBets(actor: Player, rest: Pieces): (p: Pieces) {
    Then(UnsignedField(0, OFF_DEADLINE, 8), Then([TOALT], Then(UnsignedField(0, WagerOffset(actor), 8),
    Then(UnsignedField(1, WagerOffset(Other(actor)), 8), Then(UnsignedField(2, OFF_ACTION, 1),
    Then([NUM(3), ROLL, DROP], rest))))))
  }

  function ReadNext(prefix: bytes, actor: Player, rest: Pieces): (p: Pieces) {
    Then(OpenNext(TYPE_STATE, HEADER), Then(RangeIs(0, OFF_PHASE, prefix),
    Then(UnsignedField(0, WagerOffset(Other(actor)), 8), Then([NUM(3), PICK, NUMEQUALVERIFY],
    Then(UnsignedField(0, OFF_DEADLINE, 8), Then([FROMALT, NUM(DEADLINE_INTERVAL), ADD, NUMEQUALVERIFY],
    Then(TakeField(WagerOffset(actor), 8), Then([SWAP], rest))))))))
  }

  function CheckHistory(p: Params, least: nat, rest: Pieces): (q: Pieces) {
    Then([DUP, NUM(least), GREATERTHANOREQUAL, VERIFY], Then([DUP, NUM(2), LESSTHANOREQUAL, VERIFY],
    Then([NUM(3), PICK, NUM(p.maxWager), LESSTHAN, VERIFY], Then([NUM(2), PICK, NUM(p.maxWager), LESSTHAN, VERIFY],
    Then([DUP, NUM(2), NUMEQUAL, IF],
    Then([NUM(2), PICK, NUM(4), PICK, SUB, NUM(p.minBet), GREATERTHANOREQUAL, VERIFY],
    Then([ELSE, NUM(3), PICK, NUM(3), PICK, NUMEQUALVERIFY, ENDIF], rest)))))))
  }

  function CheckValues(p: Params, rest: Pieces): (q: Pieces) {
    Then([NUM(1), PICK, NUM(4), PICK, GREATERTHANOREQUAL, VERIFY],
    Then([NUM(1), PICK, NUM(p.maxWager), LESSTHANOREQUAL, VERIFY],
    Then([NUM(1), PICK, NUM(4), PICK, GREATERTHAN], Then([NUMINPUTS, NUM(1), GREATERTHAN, NUMEQUALVERIFY],
    Then([NUM(3), PICK, NUM(3), PICK, ADD, NUM(Pot(p)), ADD], Then([NUM(0), INPUTVALUE, NUMEQUALVERIFY],
    Then([NUM(1), PICK, NUM(3), PICK, ADD, NUM(Pot(p)), ADD], Then([NUM(0), OUTPUTVALUE, NUMEQUALVERIFY],
    Then(KeepScript(), rest)))))))))
  }

  /** Leaves the successor's phase byte and, above it, its action byte. */
  function ChooseOutcome(p: Params, betting: byte, closing: byte, rest: Pieces): (q: Pieces) {
    Then([NUM(1), PICK, NUM(3), PICK, NUMEQUAL, IF],
    Then([DUP, NUM(0), NUMEQUAL, IF, NUM(betting), NUM(1), ELSE, NUM(closing), NUM(0), ENDIF],
    Then([ELSE, NUM(1), PICK, NUM(3), PICK, GREATERTHAN, VERIFY],
    Then([DUP, NUM(2), NUMEQUAL, IF, NUM(2), PICK, NUM(4), PICK, SUB], Then([ELSE, NUM(p.minBet), ENDIF],
    Then([NUM(2), PICK, NUM(4), PICK, SUB, SWAP, GREATERTHANOREQUAL],
    Then([NUM(2), PICK, NUM(p.maxWager), NUMEQUAL, BOOLOR, VERIFY],
    Then([NUM(1), PICK, NUM(p.maxWager), NUMEQUAL, IF, NUM(betting + 26), ELSE, NUM(betting), ENDIF],
    Then([NUM(2), ENDIF], rest)))))))))
  }

  function CheckOutcome(rest: Pieces): (q: Pieces) {
    Then([NUM(TYPE_STATE), PACKET, VERIFY], Then(TakeField(OFF_ACTION, 1), Then([NUMEQUALVERIFY],
    Then([NUM(TYPE_STATE), PACKET, VERIFY], Then(TakeField(OFF_PHASE, 1), Then([NUMEQUALVERIFY],
    Then([DROP2, DROP2], rest)))))))
  }

  function BettingPieces(p: Params, street: Street, actor: Player): (q: Pieces)
    requires |p.id| == 32
  {
    NothingChanged();
    ReadSource(HeaderPrefix(p.id), street, actor,
    ReadNext(HeaderPrefix(p.id), actor,
    CheckHistory(p, LeastAction(street, actor),
    CheckValues(p,
    ChooseOutcome(p, BettingByte(street, actor), ClosingByte(street, actor),
    CheckOutcome(PreservationPieces([], Then([NUM(1)], Done))))))))
  }

  function BettingCode(p: Params, street: Street, actor: Player): (c: Code)
    requires |p.id| == 32
  {
    Flat(BettingPieces(p, street, actor))
  }

  lemma NothingChanged()
    ensures Batch([])
  {
  }

  // ---------- Reading both headers ----------

  /** The betting frame: last action, the actor's new wager, the opponent's wager, the actor's old wager. */
  function Frame(l: int, n: int, o: int, a: int, s: Stack): (f: Stack) {
    Push(Num(l), Push(Num(n), Push(Num(o), Push(Num(a), s))))
  }

  lemma ReadSourceRuns(prefix: bytes, street: Street, actor: Player, rest: Pieces, tx: Spend, s: Stack)
    ensures Go(ReadSource(prefix, street, actor, rest), tx, Ok(s, Bottom))
      == if tx.current == 0 && s == Bottom && HasHeader(SourcePackets(tx), prefix)
            && SourcePackets(tx)[TYPE_STATE][OFF_PHASE..OFF_PHASE + 1] == [SourceByte(street, actor)]
         then Go(ReadBets(actor, rest), tx, Ok(Push(Data(SourcePackets(tx)[TYPE_STATE]), s), Bottom))
         else Failed
  {
    hide Run, Go, OnlyFirstInput, WitnessCount, OpenSource, RangeIs, ReadBets;
    var p, v := ReadSource(prefix, street, actor, rest), Ok(s, Bottom);
    OnlyFirstInputGoes(p, tx, s, Bottom, NoBranch);
    p := p.rest;
    WitnessCountGoes(p, 0, tx, s, Bottom, NoBranch);
    p := p.rest;
    OpenSourceGoes(p, TYPE_STATE, HEADER, tx, s, Bottom, NoBranch);
    p := p.rest;
    if Sized(SourcePackets(tx), TYPE_STATE, HEADER) {
      var h := SourcePackets(tx)[TYPE_STATE];
      var w := Ok(Push(Data(h), s), Bottom);
      RangeIsGoes(p, 0, OFF_PHASE, prefix, h, tx, s, Bottom, NoBranch);
      p := p.rest;
      RangeIsGoes(p, OFF_PHASE, 1, [SourceByte(street, actor)], h, tx, s, Bottom, NoBranch);
    }
  }

  lemma ReadBetsRuns(actor: Player, rest: Pieces, h: bytes, tx: Spend)
    requires |h| == HEADER
    ensures Go(ReadBets(actor, rest), tx, Ok(Push(Data(h), Bottom), Bottom))
      == Go(rest, tx, Ok(Push(Num(Field(h, OFF_ACTION, 1)), Push(Num(Field(h, WagerOffset(Other(actor)), 8)),
                         Push(Num(Field(h, WagerOffset(actor), 8)), Bottom))),
                         Push(Num(Field(h, OFF_DEADLINE, 8)), Bottom)))
  {
    hide Run, Go, UnsignedField, Field, Step, Exec, WagerOffset;
    var p, d, alt := ReadBets(actor, rest), Push(Data(h), Bottom), Push(Num(Field(h, OFF_DEADLINE, 8)), Bottom);
    PushLaws(tx);
    StackLaws(tx);
    PickLaws(tx);
    UnsignedFieldGoes(p, 0, OFF_DEADLINE, 8, h, tx, d, Bottom, NoBranch);
    p := p.rest;
    Go1(p, TOALT, tx, Ok(Push(Num(Field(h, OFF_DEADLINE, 8)), d), Bottom));
    p := p.rest;
    UnsignedFieldGoes(p, 0, WagerOffset(actor), 8, h, tx, d, alt, NoBranch);
    p := p.rest;
    var d1 := Push(Num(Field(h, WagerOffset(actor), 8)), d);
    UnsignedFieldGoes(p, 1, WagerOffset(Other(actor)), 8, h, tx, d1, alt, NoBranch);
    p := p.rest;
    var d2 := Push(Num(Field(h, WagerOffset(Other(actor)), 8)), d1);
    UnsignedFieldGoes(p, 2, OFF_ACTION, 1, h, tx, d2, alt, NoBranch);
    p := p.rest;
    var d3 := Push(Num(Field(h, OFF_ACTION, 1)), d2);
    Go3(p, NUM(3), ROLL, DROP, tx, Ok(d3, alt));
  }

  lemma ReadNextRuns(prefix: bytes, actor: Player, rest: Pieces, l: int, o: int, a: int, deadline: int, tx: Spend)
    ensures Go(ReadNext(prefix, actor, rest), tx,
               Ok(Push(Num(l), Push(Num(o), Push(Num(a), Bottom))), Push(Num(deadline), Bottom)))
      == if HasHeader(tx.packets, prefix) && Field(tx.packets[TYPE_STATE], WagerOffset(Other(actor)), 8) == o
            && Field(tx.packets[TYPE_STATE], OFF_DEADLINE, 8) == deadline + DEADLINE_INTERVAL
         then Go(rest, tx, Ok(Frame(l, Field(tx.packets[TYPE_STATE], WagerOffset(actor), 8), o, a, Bottom), Bottom))
         else Failed
  {
    hide Run, Go, OpenNext, RangeIs, UnsignedField, TakeField, Field, Step, Exec, WagerOffset;
    var s, alt := Push(Num(l), Push(Num(o), Push(Num(a), Bottom))), Push(Num(deadline), Bottom);
    var p := ReadNext(prefix, actor, rest);
    OpenNextGoes(p, TYPE_STATE, HEADER, tx, s, alt, NoBranch);
    p := p.rest;
    if Sized(tx.packets, TYPE_STATE, HEADER) {
      var g := tx.packets[TYPE_STATE];
      var d := Push(Data(g), s);
      RangeIsGoes(p, 0, OFF_PHASE, prefix, g, tx, s, alt, NoBranch);
      ReadNextFields(p.rest, actor, rest, g, l, o, a, deadline, tx);
    }
  }

  lemma ReadNextFields(p: Pieces, actor: Player, rest: Pieces, g: bytes, l: int, o: int, a: int, deadline: int,
                       tx: Spend)
    requires |g| == HEADER && p == ReadNext([], actor, rest).rest.rest
    ensures Go(p, tx, Ok(Push(Data(g), Push(Num(l), Push(Num(o), Push(Num(a), Bottom)))), Push(Num(deadline), Bottom)))
      == if Field(g, WagerOffset(Other(actor)), 8) == o && Field(g, OFF_DEADLINE, 8) == deadline + DEADLINE_INTERVAL
         then Go(rest, tx, Ok(Frame(l, Field(g, WagerOffset(actor), 8), o, a, Bottom), Bottom))
         else Failed
  {
    hide Run, Go, OpenNext, RangeIs, UnsignedField, TakeField, Field, Step, Exec, WagerOffset;
    PushLaws(tx);
    StackLaws(tx);
    PickLaws(tx);
    CheckLaws(tx);
    ArithmeticLaws(tx);
    var s, alt := Push(Num(l), Push(Num(o), Push(Num(a), Bottom))), Push(Num(deadline), Bottom);
    var d, o', q := Push(Data(g), s), Field(g, WagerOffset(Other(actor)), 8), p;
    UnsignedFieldGoes(q, 0, WagerOffset(Other(actor)), 8, g, tx, d, alt, NoBranch);
    q := q.rest;
    Go3(q, NUM(3), PICK, NUMEQUALVERIFY, tx, Ok(Push(Num(o'), d), alt));
    q := q.rest;
    UnsignedFieldGoes(q, 0, OFF_DEADLINE, 8, g, tx, d, alt, NoBranch);
    q := q.rest;
    var e := Push(Num(Field(g, OFF_DEADLINE, 8)), d);
    Go4(q, FROMALT, NUM(DEADLINE_INTERVAL), ADD, NUMEQUALVERIFY, tx, Ok(e, alt));
    q := q.rest;
    TakeFieldGoes(q, WagerOffset(actor), 8, g, tx, s, Bottom, NoBranch);
    q := q.rest;
    var n := Field(g, WagerOffset(actor), 8);
    Go1(q, SWAP, tx, Ok(Push(Num(n), s), Bottom));
  }

  // ---------- Arithmetic over the frame ----------

  /** The wager history the program admits before a bet. */
  predicate HistoryAdmitted(p: Params, least: nat, l: int, o: int, a: int) {
    && least <= l <= 2 && a < p.maxWager && o < p.maxWager
    && (if l == 2 then o - a >= p.minBet else a == o)
  }

  lemma CheckHistoryRuns(p: Params, least: nat, rest: Pieces, l: int, n: int, o: int, a: int, tx: Spend)
    ensures Go(CheckHistory(p, least, rest), tx, Ok(Frame(l, n, o, a, Bottom), Bottom))
      == if HistoryAdmitted(p, least, l, o, a) then Go(rest, tx, Ok(Frame(l, n, o, a, Bottom), Bottom)) else Failed
  {
    hide Run, Go, Step, Exec;
    PushLaws(tx);
    StackLaws(tx);
    PickLaws(tx);
    CheckLaws(tx);
    ComparisonLaws(tx);
    var q, f := CheckHistory(p, least, rest), Frame(l, n, o, a, Bottom);
    var v := Ok(f, Bottom);
    Go4(q, DUP, NUM(least), GREATERTHANOREQUAL, VERIFY, tx, v);
    q := q.rest;
    Go4(q, DUP, NUM(2), LESSTHANOREQUAL, VERIFY, tx, v);
    q := q.rest;
    Go5(q, NUM(3), PICK, NUM(p.maxWager), LESSTHAN, VERIFY, tx, v);
    q := q.rest;
    Go5(q, NUM(2), PICK, NUM(p.maxWager), LESSTHAN, VERIFY, tx, v);
    LeadRuns(p, q.rest, rest, l, n, o, a, tx);
  }

  lemma LeadRuns(p: Params, q: Pieces, rest: Pieces, l: int, n: int, o: int, a: int, tx: Spend)
    requires q == CheckHistory(p, 0, rest).rest.rest.rest.rest
    ensures Go(q, tx, Ok(Frame(l, n, o, a, Bottom), Bottom))
      == if (if l == 2 then o - a >= p.minBet else a == o)
         then Go(rest, tx, Ok(Frame(l, n, o, a, Bottom), Bottom)) else Failed
  {
    hide Run, Go, Step, Exec;
    PushLaws(tx);
    StackLaws(tx);
    PickLaws(tx);
    CheckLaws(tx);
    ArithmeticLaws(tx);
    EqualityLaws(tx);
    ComparisonLaws(tx);
    BranchLaws(tx);
    var f := Frame(l, n, o, a, Bottom);
    var v := Ok(f, Bottom);
    Go4(q, DUP, NUM(2), NUMEQUAL, IF, tx, v);
    var q1, v1 := q.rest, Running(f, Bottom, Nested(if l == 2 then Taken else NotTaken, NoBranch));
    Go8(q1, NUM(2), PICK, NUM(4), PICK, SUB, NUM(p.minBet), GREATERTHANOREQUAL, VERIFY, tx, v1);
    var q2 := q1.rest;
    Go7(q2, ELSE, NUM(3), PICK, NUM(3), PICK, NUMEQUALVERIFY, ENDIF, tx, v1);
  }

  /** The value and input layout the program admits for a new wager. */
  predicate ValuesAdmitted(p: Params, n: int, o: int, a: int, tx: Spend) {
    && a <= n <= p.maxWager && (n > a <==> |tx.inputs| > 1)
    && |tx.inputs| > 0 && tx.inputs[0].value == a + o + Pot(p)
    && |tx.outputs| > 0 && tx.outputs[0].value == n + o + Pot(p)
    && ScriptKept(tx)
  }

  lemma CheckValuesRuns(p: Params, rest: Pieces, l: int, n: int, o: int, a: int, tx: Spend)
    ensures Go(CheckValues(p, rest), tx, Ok(Frame(l, n, o, a, Bottom), Bottom))
      == if ValuesAdmitted(p, n, o, a, tx) then Go(rest, tx, Ok(Frame(l, n, o, a, Bottom), Bottom)) else Failed
  {
    hide Run, Go, Step, Exec, Pot;
    PushLaws(tx);
    PickLaws(tx);
    CheckLaws(tx);
    ComparisonLaws(tx);
    InspectionLaws(tx);
    var q, f := CheckValues(p, rest), Frame(l, n, o, a, Bottom);
    var v := Ok(f, Bottom);
    Go6(q, NUM(1), PICK, NUM(4), PICK, GREATERTHANOREQUAL, VERIFY, tx, v);
    q := q.rest;
    Go5(q, NUM(1), PICK, NUM(p.maxWager), LESSTHANOREQUAL, VERIFY, tx, v);
    q := q.rest;
    Go5(q, NUM(1), PICK, NUM(4), PICK, GREATERTHAN, tx, v);
    q := q.rest;
    Go4(q, NUMINPUTS, NUM(1), GREATERTHAN, NUMEQUALVERIFY, tx, Ok(Push(Flag(n > a), f), Bottom));
    LockedValuesRun(p, q.rest, rest, l, n, o, a, tx);
  }

  lemma LockedValuesRun(p: Params, q: Pieces, rest: Pieces, l: int, n: int, o: int, a: int, tx: Spend)
    requires q == CheckValues(p, rest).rest.rest.rest.rest
    ensures Go(q, tx, Ok(Frame(l, n, o, a, Bottom), Bottom))
      == if |tx.inputs| > 0 && tx.inputs[0].value == a + o + Pot(p)
            && |tx.outputs| > 0 && tx.outputs[0].value == n + o + Pot(p) && ScriptKept(tx)
         then Go(rest, tx, Ok(Frame(l, n, o, a, Bottom), Bottom)) else Failed
  {
    hide Run, Go, Step, Exec, Pot, KeepScript;
    PushLaws(tx);
    PickLaws(tx);
    CheckLaws(tx);
    ArithmeticLaws(tx);
    InspectionLaws(tx);
    var f := Frame(l, n, o, a, Bottom);
    var v, w, x := Ok(f, Bottom), Ok(Push(Num(a + o + Pot(p)), f), Bottom), Ok(Push(Num(n + o + Pot(p)), f), Bottom);
    Go7(q, NUM(3), PICK, NUM(3), PICK, ADD, NUM(Pot(p)), ADD, tx, v);
    var q1 := q.rest;
    Go3(q1, NUM(0), INPUTVALUE, NUMEQUALVERIFY, tx, w);
    var q2 := q1.rest;
    Go7(q2, NUM(1), PICK, NUM(3), PICK, ADD, NUM(Pot(p)), ADD, tx, v);
    var q3 := q2.rest;
    Go3(q3, NUM(0), OUTPUTVALUE, NUMEQUALVERIFY, tx, x);
    var q4 := q3.rest;
    KeepScriptGoes(q4, tx, f, Bottom, NoBranch);
  }

  // ---------- The outcome ----------

  /** A bet above the opponent's wager: large enough, or exactly at the cap. */
  predicate RaiseAdmitted(p: Params, l: int, n: int, o: int, a: int) {
    n > o && (n - o >= (if l == 2 then o - a else p.minBet) || n == p.maxWager)
  }

  function OutcomePhase(p: Params, betting: byte, closing: byte, l: int, n: int, o: int): (b: int) {
    if n == o then (if l == 0 then betting else closing) else if n == p.maxWager then betting + 26 else betting
  }

  function OutcomeAction(l: int, n: int, o: int): (b: int) {
    if n == o then (if l == 0 then 1 else 0) else 2
  }

  lemma ChooseOutcomeRuns(p: Params, betting: byte, closing: byte, rest: Pieces, l: int, n: int, o: int, a: int,
                          tx: Spend)
    ensures Go(ChooseOutcome(p, betting, closing, rest), tx, Ok(Frame(l, n, o, a, Bottom), Bottom))
      == if n == o || RaiseAdmitted(p, l, n, o, a)
         then Go(rest, tx, Ok(Push(Num(OutcomeAction(l, n, o)), Push(Num(OutcomePhase(p, betting, closing, l, n, o)),
                              Frame(l, n, o, a, Bottom))), Bottom))
         else Failed
  {
    hide Run, Go, Step, Exec, RaiseAdmitted;
    PushLaws(tx);
    StackLaws(tx);
    PickLaws(tx);
    EqualityLaws(tx);
    BranchLaws(tx);
    var q, f := ChooseOutcome(p, betting, closing, rest), Frame(l, n, o, a, Bottom);
    var br := Nested(if n == o then Taken else NotTaken, NoBranch);
    var v, v1 := Ok(f, Bottom), Running(f, Bottom, br);
    Go6(q, NUM(1), PICK, NUM(3), PICK, NUMEQUAL, IF, tx, v);
    q := q.rest;
    Go10(q, DUP, NUM(0), NUMEQUAL, IF, NUM(betting), NUM(1), ELSE, NUM(closing), NUM(0), ENDIF, tx, v1);
    if n == o {
      var f2 := Push(Num(OutcomeAction(l, n, o)), Push(Num(OutcomePhase(p, betting, closing, l, n, o)), f));
      RaiseSkipped(p, betting, closing, q.rest, rest, f2, tx);
    } else {
      RaiseRuns(p, betting, closing, q.rest, rest, l, n, o, a, tx);
    }
  }

  /** After an exact match the whole raise branch is skipped. */
  lemma RaiseSkipped(p: Params, betting: byte, closing: byte, q: Pieces, rest: Pieces, s: Stack, tx: Spend)
    requires q == ChooseOutcome(p, betting, closing, rest).rest.rest
    ensures Go(q, tx, Running(s, Bottom, Nested(Taken, NoBranch))) == Go(rest, tx, Ok(s, Bottom))
  {
    hide Run, Go, Step, Exec;
    PushLaws(tx);
    StackLaws(tx);
    PickLaws(tx);
    CheckLaws(tx);
    ArithmeticLaws(tx);
    EqualityLaws(tx);
    ComparisonLaws(tx);
    BranchLaws(tx);
    var r, v0, v := q, Running(s, Bottom, Nested(Taken, NoBranch)), Running(s, Bottom, Nested(NotTaken, NoBranch));
    Go7(r, ELSE, NUM(1), PICK, NUM(3), PICK, GREATERTHAN, VERIFY, tx, v0);
    r := r.rest;
    var w := Running(s, Bottom, Nested(Skipped, Nested(NotTaken, NoBranch)));
    Go9(r, DUP, NUM(2), NUMEQUAL, IF, NUM(2), PICK, NUM(4), PICK, SUB, tx, v);
    r := r.rest;
    Go3(r, ELSE, NUM(p.minBet), ENDIF, tx, w);
    RaiseTailSkipped(p, betting, closing, r.rest, rest, s, tx);
  }

  lemma RaiseTailSkipped(p: Params, betting: byte, closing: byte, q: Pieces, rest: Pieces, s: Stack, tx: Spend)
    requires q == ChooseOutcome(p, betting, closing, rest).rest.rest.rest.rest.rest
    ensures Go(q, tx, Running(s, Bottom, Nested(NotTaken, NoBranch))) == Go(rest, tx, Ok(s, Bottom))
  {
    hide Run, Go, Step, Exec;
    PushLaws(tx);
    StackLaws(tx);
    PickLaws(tx);
    CheckLaws(tx);
    ArithmeticLaws(tx);
    EqualityLaws(tx);
    ComparisonLaws(tx);
    BranchLaws(tx);
    var r, v := q, Running(s, Bottom, Nested(NotTaken, NoBranch));
    Go7(r, NUM(2), PICK, NUM(4), PICK, SUB, SWAP, GREATERTHANOREQUAL, tx, v);
    r := r.rest;
    Go6(r, NUM(2), PICK, NUM(p.maxWager), NUMEQUAL, BOOLOR, VERIFY, tx, v);
    r := r.rest;
    Go9(r, NUM(1), PICK, NUM(p.maxWager), NUMEQUAL, IF, NUM(betting + 26), ELSE, NUM(betting), ENDIF, tx, v);
    r := r.rest;
    Go2(r, NUM(2), ENDIF, tx, v);
  }

  lemma RaiseRuns(p: Params, betting: byte, closing: byte, q: Pieces, rest: Pieces, l: int, n: int, o: int, a: int,
                  tx: Spend)
    requires n != o && q == ChooseOutcome(p, betting, closing, rest).rest.rest
    ensures Go(q, tx, Running(Frame(l, n, o, a, Bottom), Bottom, Nested(NotTaken, NoBranch)))
      == if RaiseAdmitted(p, l, n, o, a)
         then Go(rest, tx, Ok(Push(Num(2), Push(Num(if n == p.maxWager then betting + 26 else betting),
                              Frame(l, n, o, a, Bottom))), Bottom))
         else Failed
  {
    hide Run, Go, Step, Exec;
    PushLaws(tx);
    PickLaws(tx);
    CheckLaws(tx);
    ComparisonLaws(tx);
    BranchLaws(tx);
    var f := Frame(l, n, o, a, Bottom);
    var v0, v := Running(f, Bottom, Nested(NotTaken, NoBranch)), Running(f, Bottom, Nested(Taken, NoBranch));
    Go7(q, ELSE, NUM(1), PICK, NUM(3), PICK, GREATERTHAN, VERIFY, tx, v0);
    if n > o {
      IncrementRuns(p, betting, closing, q.rest, rest, l, n, o, a, tx);
    }
  }

  lemma IncrementRuns(p: Params, betting: byte, closing: byte, q: Pieces, rest: Pieces, l: int, n: int, o: int, a: int,
                      tx: Spend)
    requires n > o && q == ChooseOutcome(p, betting, closing, rest).rest.rest.rest
    ensures Go(q, tx, Running(Frame(l, n, o, a, Bottom), Bottom, Nested(Taken, NoBranch)))
      == if n - o >= (if l == 2 then o - a else p.minBet) || n == p.maxWager
         then Go(rest, tx, Ok(Push(Num(2), Push(Num(if n == p.maxWager then betting + 26 else betting),
                              Frame(l, n, o, a, Bottom))), Bottom))
         else Failed
  {
    hide Run, Go, Step, Exec;
    PushLaws(tx);
    StackLaws(tx);
    PickLaws(tx);
    CheckLaws(tx);
    ArithmeticLaws(tx);
    EqualityLaws(tx);
    ComparisonLaws(tx);
    var f, br := Frame(l, n, o, a, Bottom), Nested(Taken, NoBranch);
    var m := if l == 2 then o - a else p.minBet;
    var v := Running(f, Bottom, br);
    MinimumRuns(p, q, betting, closing, rest, l, n, o, a, tx);
    var q2, vm := q.rest.rest, Running(Push(Num(m), f), Bottom, br);
    Go7(q2, NUM(2), PICK, NUM(4), PICK, SUB, SWAP, GREATERTHANOREQUAL, tx, vm);
    var q3, v3 := q2.rest, Running(Push(Flag(n - o >= m), f), Bottom, br);
    Go6(q3, NUM(2), PICK, NUM(p.maxWager), NUMEQUAL, BOOLOR, VERIFY, tx, v3);
    if n - o >= m || n == p.maxWager {
      RaisePhaseRuns(p, betting, closing, q3.rest, rest, l, n, o, a, tx);
    }
  }

  lemma MinimumRuns(p: Params, q: Pieces, betting: byte, closing: byte, rest: Pieces, l: int, n: int, o: int, a: int,
                    tx: Spend)
    requires q == ChooseOutcome(p, betting, closing, rest).rest.rest.rest
    ensures Go(q, tx, Running(Frame(l, n, o, a, Bottom), Bottom, Nested(Taken, NoBranch)))
      == Go(q.rest.rest, tx, Running(Push(Num(if l == 2 then o - a else p.minBet), Frame(l, n, o, a, Bottom)), Bottom,
                                     Nested(Taken, NoBranch)))
  {
    hide Run, Go, Step, Exec;
    PushLaws(tx);
    StackLaws(tx);
    PickLaws(tx);
    ArithmeticLaws(tx);
    EqualityLaws(tx);
    BranchLaws(tx);
    var f, br := Frame(l, n, o, a, Bottom), Nested(Taken, NoBranch);
    var v := Running(f, Bottom, br);
    Go9(q, DUP, NUM(2), NUMEQUAL, IF, NUM(2), PICK, NUM(4), PICK, SUB, tx, v);
    var v1 := if l == 2 then Running(Push(Num(o - a), f), Bottom, Nested(Taken, br))
      else Running(f, Bottom, Nested(NotTaken, br));
    var q1 := q.rest;
    Go3(q1, ELSE, NUM(p.minBet), ENDIF, tx, v1);
  }

  lemma RaisePhaseRuns(p: Params, betting: byte, closing: byte, q: Pieces, rest: Pieces, l: int, n: int, o: int, a: int,
                       tx: Spend)
    requires q == ChooseOutcome(p, betting, closing, rest).rest.rest.rest.rest.rest.rest.rest
    ensures Go(q, tx, Running(Frame(l, n, o, a, Bottom), Bottom, Nested(Taken, NoBranch)))
      == Go(rest, tx, Ok(Push(Num(2), Push(Num(if n == p.maxWager then betting + 26 else betting),
                         Frame(l, n, o, a, Bottom))), Bottom))
  {
    hide Run, Go, Step, Exec;
    PushLaws(tx);
    PickLaws(tx);
    EqualityLaws(tx);
    BranchLaws(tx);
    var f, br := Frame(l, n, o, a, Bottom), Nested(Taken, NoBranch);
    var v := Running(f, Bottom, br);
    Go9(q, NUM(1), PICK, NUM(p.maxWager), NUMEQUAL, IF, NUM(betting + 26), ELSE, NUM(betting), ENDIF, tx, v);
    var q1, v1 := q.rest, Running(Push(Num(if n == p.maxWager then betting + 26 else betting), f), Bottom, br);
    Go2(q1, NUM(2), ENDIF, tx, v1);
  }

  lemma CheckOutcomeRuns(rest: Pieces, action: int, phase: int, l: int, n: int, o: int, a: int, g: bytes, tx: Spend)
    requires Sized(tx.packets, TYPE_STATE, HEADER) && g == tx.packets[TYPE_STATE]
    ensures Go(CheckOutcome(rest), tx, Ok(Push(Num(action), Push(Num(phase), Frame(l, n, o, a, Bottom))), Bottom))
      == if Field(g, OFF_ACTION, 1) == action && Field(g, OFF_PHASE, 1) == phase then Go(rest, tx, Ok(Bottom, Bottom))
         else Failed
  {
    hide Run, Go, Step, Exec, Field, TakeField;
    PushLaws(tx);
    StackLaws(tx);
    CheckLaws(tx);
    ScriptLaws(tx);
    var f := Frame(l, n, o, a, Bottom);
    var s1 := Push(Num(phase), f);
    var s0 := Push(Num(action), s1);
    var q := CheckOutcome(rest);
    Go3(q, NUM(TYPE_STATE), PACKET, VERIFY, tx, Ok(s0, Bottom));
    q := q.rest;
    TakeFieldGoes(q, OFF_ACTION, 1, g, tx, s0, Bottom, NoBranch);
    q := q.rest;
    var x := Ok(Push(Num(Field(g, OFF_ACTION, 1)), s0), Bottom);
    Go1(q, NUMEQUALVERIFY, tx, x);
    q := q.rest;
    Go3(q, NUM(TYPE_STATE), PACKET, VERIFY, tx, Ok(s1, Bottom));
    q := q.rest;
    TakeFieldGoes(q, OFF_PHASE, 1, g, tx, s1, Bottom, NoBranch);
    q := q.rest;
    var y := Ok(Push(Num(Field(g, OFF_PHASE, 1)), s1), Bottom);
    Go1(q, NUMEQUALVERIFY, tx, y);
    q := q.rest;
    Go2(q, DROP2, DROP2, tx, Ok(f, Bottom));
  }

  // ---------- The whole program ----------

  /** What the program enforces, on the bytes of both headers. */
  predicate BettingEnforced(p: Params, street: Street, actor: Player, tx: Spend)
    requires |p.id| == 32
  {
    && tx.current == 0
    && HasHeader(SourcePackets(tx), HeaderPrefix(p.id)) && HasHeader(tx.packets, HeaderPrefix(p.id))
    && var h, g := SourcePackets(tx)[TYPE_STATE], tx.packets[TYPE_STATE];
       var l, a, o := Field(h, OFF_ACTION, 1), Field(h, WagerOffset(actor), 8), Field(h, WagerOffset(Other(actor)), 8);
       var n := Field(g, WagerOffset(actor), 8);
       && h[OFF_PHASE..OFF_PHASE + 1] == [SourceByte(street, actor)]
       && Field(g, WagerOffset(Other(actor)), 8) == o
       && Field(g, OFF_DEADLINE, 8) == Field(h, OFF_DEADLINE, 8) + DEADLINE_INTERVAL
       && HistoryAdmitted(p, LeastAction(street, actor), l, o, a)
       && ValuesAdmitted(p, n, o, a, tx)
       && (n == o || RaiseAdmitted(p, l, n, o, a))
       && Field(g, OFF_ACTION, 1) == OutcomeAction(l, n, o)
       && Field(g, OFF_PHASE, 1) == OutcomePhase(p, BettingByte(street, actor), ClosingByte(street, actor), l, n, o)
       && SharesKept([], SourcePackets(tx), tx.packets)
  }

  lemma BettingGoes(p: Params, street: Street, actor: Player, tx: Spend, s: Stack)
    requires |p.id| == 32
    ensures Go(BettingPieces(p, street, actor), tx, Ok(s, Bottom))
      == if s == Bottom && BettingEnforced(p, street, actor, tx) then Ok(Push(Num(1), Bottom), Bottom) else Failed
  {
    hide Run, Go, Step, Exec, ReadSource, ReadBets, ReadNext, CheckHistory, CheckValues, ChooseOutcome, CheckOutcome,
      PreservationPieces, Field, HistoryAdmitted, ValuesAdmitted, RaiseAdmitted, OutcomeAction, OutcomePhase,
      SharesKept, HeaderPrefix, WagerOffset;
    NothingChanged();
    var prefix, betting, closing := HeaderPrefix(p.id), BettingByte(street, actor), ClosingByte(street, actor);
    var q6 := PreservationPieces([], Then([NUM(1)], Done));
    var q5 := CheckOutcome(q6);
    var q4 := ChooseOutcome(p, betting, closing, q5);
    var q3 := CheckValues(p, q4);
    var q2 := CheckHistory(p, LeastAction(street, actor), q3);
    var q1 := ReadNext(prefix, actor, q2);
    ReadSourceRuns(prefix, street, actor, q1, tx, s);
    if tx.current == 0 && s == Bottom && HasHeader(SourcePackets(tx), prefix) {
      var h := SourcePackets(tx)[TYPE_STATE];
      var l, a, o := Field(h, OFF_ACTION, 1), Field(h, WagerOffset(actor), 8), Field(h, WagerOffset(Other(actor)), 8);
      ReadBetsRuns(actor, q1, h, tx);
      ReadNextRuns(prefix, actor, q2, l, o, a, Field(h, OFF_DEADLINE, 8), tx);
      if HasHeader(tx.packets, prefix) {
        var g := tx.packets[TYPE_STATE];
        var n := Field(g, WagerOffset(actor), 8);
        CheckHistoryRuns(p, LeastAction(street, actor), q3, l, n, o, a, tx);
        CheckValuesRuns(p, q4, l, n, o, a, tx);
        ChooseOutcomeRuns(p, betting, closing, q5, l, n, o, a, tx);
        CheckOutcomeRuns(q6, OutcomeAction(l, n, o), OutcomePhase(p, betting, closing, l, n, o), l, n, o, a, g, tx);
        PreservationRuns([], Then([NUM(1)], Done), tx, Bottom, Bottom, NoBranch);
        EndGoes(tx);
      }
    }
  }

  lemma WitnessBottom(proofs: seq<bytes>)
    ensures Witness(proofs) == Bottom <==> proofs == []
  {
  }

  /** The program accepts a spend exactly when it takes no witness and the byte-level conditions hold. */
  lemma BettingAccepts(p: Params, street: Street, actor: Player, tx: Spend, proofs: seq<bytes>)
    requires |p.id| == 32
    ensures Accepts(BettingCode(p, street, actor), tx, proofs)
      <==> proofs == [] && BettingEnforced(p, street, actor, tx)
  {
    hide Run, Go, BettingPieces, BettingEnforced;
    GoIsRun(BettingPieces(p, street, actor), tx, Ok(Witness(proofs), Bottom));
    BettingGoes(p, street, actor, tx, Witness(proofs));
    WitnessBottom(proofs);
  }
}
