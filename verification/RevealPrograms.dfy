/** The programs that publish shares in two passes: board reveals and showdown reveals. */
module RevealPrograms {
  import opened Bytes
  import opened Hand
  import opened Codec
  import opened Rules
  import opened Machine
  import opened Laws
  import opened Pieces
  import opened Preservation

  /** Slots one after another in a single packet. */
  predicate InARow(slots: seq<nat>) {
    && (forall i | 0 <= i < |slots| :: slots[i] < SLOTS)
    && (forall i | 0 <= i < |slots| ::
          Packet(slots[i]) == Packet(slots[0]) && Offset(slots[i]) == Offset(slots[0]) + SHARE * i)
  }

  /** Everything a player still has to publish before the flop: the player's whole packet. */
  function Remaining(actor: Player): (slots: seq<nat>)
    ensures |slots| == 7 && forall i | 0 <= i < |slots| :: slots[i] < SLOTS
  {
    PacketSlots(2 + Index(actor))
  }

  lemma KindInARow(kind: RevealKind, actor: Player)
    ensures InARow(KindSlots(kind, actor))
  {
    hide Packet, Offset, InARow;
    match kind
    case FromFlop => RemainingInARow(actor, 0); assert KindSlots(kind, actor) == Remaining(actor)[0..];
    case FromTurn => RemainingInARow(actor, 3); assert KindSlots(kind, actor) == Remaining(actor)[3..];
    case FromRiver => RemainingInARow(actor, 4); assert KindSlots(kind, actor) == Remaining(actor)[4..];
    case OwnHoles => RemainingInARow(actor, 5); assert KindSlots(kind, actor) == Remaining(actor)[5..];
    case FlopCards =>
      RemainingInARow(actor, 0);
      FirstInARow(Remaining(actor)[0..], 3);
      assert KindSlots(kind, actor) == Remaining(actor)[0..][..3];
    case OpponentHoles => OpeningInARow(actor);
    case TurnCard => OneInARow(KindSlots(kind, actor));
    case RiverCard => OneInARow(KindSlots(kind, actor));
  }

  lemma FirstInARow(slots: seq<nat>, n: nat)
    requires InARow(slots) && n <= |slots|
    ensures InARow(slots[..n])
  {
    hide Packet, Offset;
  }

  lemma OneInARow(slots: seq<nat>)
    requires |slots| == 1 && slots[0] < SLOTS
    ensures InARow(slots)
  {
    hide Packet, Offset;
  }

  lemma RemainingInARow(actor: Player, from: nat)
    requires from < 7
    ensures InARow(Remaining(actor)[from..])
  {
    hide Packet, Offset;
    forall i: nat | i < 7
      ensures Packet(Remaining(actor)[i]) == 2 + Index(actor) && Offset(Remaining(actor)[i]) == SHARE * i
    {
      Layout(2 + Index(actor), i);
    }
  }

  lemma OpeningInARow(actor: Player)
    ensures InARow(KindSlots(OpponentHoles, actor))
  {
    hide Packet, Offset;
    var r, o := KindSlots(OpponentHoles, actor), 2 - 2 * Index(actor);
    Layout(1, o);
    Layout(1, o + 1);
  }

  lemma {:induction false} RowOffsets(slots: seq<nat>, k: nat)
    requires InARow(slots)
    ensures |Offsets(k, slots)| == if slots != [] && Packet(slots[0]) == k then |slots| else 0
    ensures forall i | 0 <= i < |Offsets(k, slots)| :: Offsets(k, slots)[i] == Offset(slots[0]) + SHARE * i
  {
    hide Packet, Offset;
    if slots != [] {
      RowOffsets(slots[..|slots| - 1], k);
    }
  }

  /** Each batch an action publishes is contiguous in every packet it touches, so the emitter accepts it. */
  lemma KindBatches(kind: RevealKind, actor: Player)
    ensures Batch(KindSlots(kind, actor))
  {
    hide KindSlots, Packet, Offset;
    var slots := KindSlots(kind, actor);
    KindInARow(kind, actor);
    forall k | 1 <= k <= 3 ensures Contiguous(Offsets(k, slots)) {
      RowOffsets(slots, k);
    }
  }

  // ---------- Two-pass reveals ----------

  function Half(p: Params): (v: int) { p.stake + p.bond }

  /** Guards, the source header, and whether this is the second pass. */
  function ReadPass(prefix: bytes, count: nat, first: byte, rest: Pieces): (q: Pieces) {
    Then(OnlyFirstInput(), Then(OneInput(), Then(WitnessCount(count), Then(OpenSource(TYPE_STATE, HEADER),
    Then(RangeIs(0, OFF_PHASE, prefix), Then(RangeIs(OFF_ACTION, 1, [0]), Then(UnsignedField(0, OFF_PHASE, 1),
    Then([NUM(first), SUB], Then([DUP, NUM(0), NUMEQUAL, OVER, NUM(2), NUMEQUAL, BOOLOR, VERIFY],
    Then([NUM(2), DIV], rest))))))))))
  }

  /** A board reveal needs a wager below the cap; a showdown reveal admits the cap on its second pass. */
  function CheckCap(p: Params, board: bool, rest: Pieces): (q: Pieces) {
    if board then Then([DUP, NUM(p.maxWager), LESSTHAN, VERIFY], rest)
    else Then([DUP, NUM(p.maxWager), LESSTHANOREQUAL, VERIFY],
         Then([DUP, NUM(p.maxWager), LESSTHAN, NUM(2), PICK, BOOLOR, VERIFY], rest))
  }

  /** Equal wagers, both exact covenant values and the covenant script. */
  function CheckEqual(p: Params, board: bool, rest: Pieces): (q: Pieces) {
    Then(UnsignedField(1, OFF_WAGER1, 8), CheckCap(p, board, Then(UnsignedField(2, OFF_WAGER2, 8),
    Then([OVER, NUMEQUALVERIFY], Then([NUM(Half(p)), ADD, NUM(2), MUL], Then([DUP, NUM(0), INPUTVALUE, NUMEQUALVERIFY],
    Then([NUM(0), OUTPUTVALUE, NUMEQUALVERIFY], Then(KeepScript(), rest))))))))
  }

  /** The successor's header: same wagers, extended deadline and the next phase of the pass. */
  function CheckPass(prefix: bytes, nextFirst: int, step: int, rest: Pieces): (q: Pieces) {
    Then(OpenNext(TYPE_STATE, HEADER), Then(RangeIs(0, OFF_PHASE, prefix), Then(RangeIs(OFF_ACTION, 1, [0]),
    Then([DUP, NUM(OFF_WAGER1), NUM(16), SUBSTR, NUM(3), PICK, NUM(OFF_WAGER1), NUM(16), SUBSTR, EQUALVERIFY],
    Then(UnsignedField(0, OFF_DEADLINE, 8), Then(UnsignedField(3, OFF_DEADLINE, 8),
    Then([NUM(DEADLINE_INTERVAL), ADD, NUMEQUALVERIFY],
    Then([NUM(1), PICK, NUM(step), MUL, NUM(nextFirst), ADD],
         Then(UnsignedField(1, OFF_PHASE, 1), Then([NUMEQUALVERIFY],
    Then([DROP2, DROP], rest)))))))))))
  }

  lemma ReadPassGoes(prefix: bytes, count: nat, first: byte, rest: Pieces, tx: Spend, s: Stack)
    ensures Go(ReadPass(prefix, count, first, rest), tx, Ok(s, Bottom))
      == if tx.current == 0 && |tx.inputs| == 1 && Depth(s) == count && HasHeader(SourcePackets(tx), prefix)
            && SourcePackets(tx)[TYPE_STATE][OFF_ACTION..OFF_ACTION + 1] == [0]
            && (Field(SourcePackets(tx)[TYPE_STATE], OFF_PHASE, 1) == first
                || Field(SourcePackets(tx)[TYPE_STATE], OFF_PHASE, 1) == first + 2)
         then Go(rest, tx, Ok(Push(Num((Field(SourcePackets(tx)[TYPE_STATE], OFF_PHASE, 1) - first) / 2),
                              Push(Data(SourcePackets(tx)[TYPE_STATE]), s)), Bottom))
         else Failed
  {
    hide Run, Go, Step, Exec, OnlyFirstInput, OneInput, WitnessCount, OpenSource, RangeIs, UnsignedField, Field, Depth;
    var q := ReadPass(prefix, count, first, rest);
    OnlyFirstInputGoes(q, tx, s, Bottom, NoBranch);
    q := q.rest;
    OneInputGoes(q, tx, s, Bottom, NoBranch);
    q := q.rest;
    WitnessCountGoes(q, count, tx, s, Bottom, NoBranch);
    q := q.rest;
    OpenSourceGoes(q, TYPE_STATE, HEADER, tx, s, Bottom, NoBranch);
    q := q.rest;
    if Sized(SourcePackets(tx), TYPE_STATE, HEADER) {
      var h := SourcePackets(tx)[TYPE_STATE];
      RangeIsGoes(q, 0, OFF_PHASE, prefix, h, tx, s, Bottom, NoBranch);
      q := q.rest;
      RangeIsGoes(q, OFF_ACTION, 1, [0], h, tx, s, Bottom, NoBranch);
      q := q.rest;
      UnsignedFieldGoes(q, 0, OFF_PHASE, 1, h, tx, Push(Data(h), s), Bottom, NoBranch);
      PassGoes(q.rest, first, Field(h, OFF_PHASE, 1), Push(Data(h), s), rest, tx);
    }
  }

  lemma PassGoes(q: Pieces, first: byte, phase: int, s: Stack, rest: Pieces, tx: Spend)
    requires q == ReadPass([], 0, first, rest).rest.rest.rest.rest.rest.rest.rest
    ensures Go(q, tx, Ok(Push(Num(phase), s), Bottom))
      == if phase == first || phase == first + 2 then Go(rest, tx, Ok(Push(Num((phase - first) / 2), s), Bottom))
        else Failed
  {
    hide Run, Go, Step, Exec, OnlyFirstInput, OneInput, WitnessCount, OpenSource, RangeIs, UnsignedField;
    PushLaws(tx);
    StackLaws(tx);
    CheckLaws(tx);
    ArithmeticLaws(tx);
    EqualityLaws(tx);
    DivisionLaws(tx);
    var d := Ok(Push(Num(phase - first), s), Bottom);
    Go2(q, NUM(first), SUB, tx, Ok(Push(Num(phase), s), Bottom));
    Go8(q.rest, DUP, NUM(0), NUMEQUAL, OVER, NUM(2), NUMEQUAL, BOOLOR, VERIFY, tx, d);
    Go2(q.rest.rest, NUM(2), DIV, tx, d);
  }

  predicate CapAdmits(p: Params, board: bool, second: int, w: int) {
    if board then w < p.maxWager else w <= p.maxWager && (w < p.maxWager || second != 0)
  }

  lemma CheckCapGoes(p: Params, board: bool, rest: Pieces, second: int, w: int, s: Stack, tx: Spend)
    ensures Go(CheckCap(p, board, rest), tx, Ok(Push(Num(w), Push(Num(second), s)), Bottom))
      == if CapAdmits(p, board, second, w) then Go(rest, tx, Ok(Push(Num(w), Push(Num(second), s)), Bottom)) else Failed
  {
    hide Run, Go, Step, Exec;
    PushLaws(tx);
    StackLaws(tx);
    PickLaws(tx);
    CheckLaws(tx);
    ArithmeticLaws(tx);
    ComparisonLaws(tx);
    var q, v := CheckCap(p, board, rest), Ok(Push(Num(w), Push(Num(second), s)), Bottom);
    if board {
      Go4(q, DUP, NUM(p.maxWager), LESSTHAN, VERIFY, tx, v);
    } else {
      Go4(q, DUP, NUM(p.maxWager), LESSTHANOREQUAL, VERIFY, tx, v);
      Go7(q.rest, DUP, NUM(p.maxWager), LESSTHAN, NUM(2), PICK, BOOLOR, VERIFY, tx, v);
    }
  }

  /** Both sides of the spend lock exactly `value` under the same script. */
  predicate Locks(value: int, tx: Spend) {
    && |tx.inputs| > 0 && tx.inputs[0].value == value && |tx.outputs| > 0 && tx.outputs[0].value == value
    && ScriptKept(tx)
  }

  lemma CheckEqualGoes(p: Params, board: bool, rest: Pieces, second: int, h: bytes, s: Stack, tx: Spend)
    requires |h| == HEADER
    ensures Go(CheckEqual(p, board, rest), tx, Ok(Push(Num(second), Push(Data(h), s)), Bottom))
      == if CapAdmits(p, board, second, Field(h, OFF_WAGER1, 8)) && Field(h, OFF_WAGER2, 8) == Field(h, OFF_WAGER1, 8)
            && Locks(2 * (Half(p) + Field(h, OFF_WAGER1, 8)), tx)
         then Go(rest, tx, Ok(Push(Num(second), Push(Data(h), s)), Bottom)) else Failed
  {
    hide Run, Go, Step, Exec, UnsignedField, CheckCap, CapAdmits, Field, KeepScript, Half;
    PushLaws(tx);
    StackLaws(tx);
    CheckLaws(tx);
    ArithmeticLaws(tx);
    InspectionLaws(tx);
    var q, s1 := CheckEqual(p, board, rest), Push(Num(second), Push(Data(h), s));
    var w, w2 := Field(h, OFF_WAGER1, 8), Field(h, OFF_WAGER2, 8);
    UnsignedFieldGoes(q, 1, OFF_WAGER1, 8, h, tx, s1, Bottom, NoBranch);
    var r := Then(UnsignedField(2, OFF_WAGER2, 8),
      Then([OVER, NUMEQUALVERIFY],
           Then([NUM(Half(p)), ADD, NUM(2), MUL], Then([DUP, NUM(0), INPUTVALUE, NUMEQUALVERIFY],
      Then([NUM(0), OUTPUTVALUE, NUMEQUALVERIFY], Then(KeepScript(), rest))))));
    CheckCapGoes(p, board, r, second, w, Push(Data(h), s), tx);
    var s2 := Push(Num(w), s1);
    UnsignedFieldGoes(r, 2, OFF_WAGER2, 8, h, tx, s2, Bottom, NoBranch);
    r := r.rest;
    Go2(r, OVER, NUMEQUALVERIFY, tx, Ok(Push(Num(w2), s2), Bottom));
    r := r.rest;
    Go4(r, NUM(Half(p)), ADD, NUM(2), MUL, tx, Ok(s2, Bottom));
    LocksGoes(r.rest, rest, 2 * (Half(p) + w), s1, tx);
    assert (w + Half(p)) * 2 == 2 * (Half(p) + w);
  }

  lemma LocksGoes(q: Pieces, rest: Pieces, value: int, s: Stack, tx: Spend)
    requires q == Then([DUP, NUM(0), INPUTVALUE, NUMEQUALVERIFY], Then([NUM(0), OUTPUTVALUE, NUMEQUALVERIFY],
                  Then(KeepScript(), rest)))
    ensures Go(q, tx, Ok(Push(Num(value), s), Bottom)) == if Locks(value, tx) then Go(rest, tx, Ok(s, Bottom))
      else Failed
  {
    hide Run, Go, Step, Exec, KeepScript;
    PushLaws(tx);
    StackLaws(tx);
    CheckLaws(tx);
    InspectionLaws(tx);
    var v := Ok(Push(Num(value), s), Bottom);
    Go4(q, DUP, NUM(0), INPUTVALUE, NUMEQUALVERIFY, tx, v);
    Go3(q.rest, NUM(0), OUTPUTVALUE, NUMEQUALVERIFY, tx, v);
    KeepScriptGoes(q.rest.rest, tx, s, Bottom, NoBranch);
  }

  /** The successor header keeps the 16 wager bytes, extends the deadline and names the next phase. */
  predicate PassFollows(prefix: bytes, next: int, h: bytes, tx: Spend)
    requires |h| == HEADER
  {
    && HasHeader(tx.packets, prefix)
    && var g := tx.packets[TYPE_STATE];
       && g[OFF_ACTION..OFF_ACTION + 1] == [0]
       && g[OFF_WAGER1..OFF_WAGER1 + 16] == h[OFF_WAGER1..OFF_WAGER1 + 16]
       && Field(g, OFF_DEADLINE, 8) == Field(h, OFF_DEADLINE, 8) + DEADLINE_INTERVAL
       && Field(g, OFF_PHASE, 1) == next
  }

  lemma CheckPassGoes(prefix: bytes, nextFirst: int, step: int, rest: Pieces, second: int, h: bytes, s: Stack,
                      tx: Spend)
    requires |h| == HEADER
    ensures Go(CheckPass(prefix, nextFirst, step, rest), tx, Ok(Push(Num(second), Push(Data(h), s)), Bottom))
      == if PassFollows(prefix, second * step + nextFirst, h, tx) then Go(rest, tx, Ok(s, Bottom)) else Failed
  {
    hide Run, Go, Step, Exec, OpenNext, RangeIs, UnsignedField, Field;
    var q, s1 := CheckPass(prefix, nextFirst, step, rest), Push(Num(second), Push(Data(h), s));
    OpenNextGoes(q, TYPE_STATE, HEADER, tx, s1, Bottom, NoBranch);
    q := q.rest;
    if Sized(tx.packets, TYPE_STATE, HEADER) {
      var g := tx.packets[TYPE_STATE];
      RangeIsGoes(q, 0, OFF_PHASE, prefix, g, tx, s1, Bottom, NoBranch);
      q := q.rest;
      RangeIsGoes(q, OFF_ACTION, 1, [0], g, tx, s1, Bottom, NoBranch);
      PassFieldsGo(q.rest, nextFirst, step, rest, second, h, g, s, tx);
    }
  }

  lemma PassFieldsGo(q: Pieces, nextFirst: int, step: int, rest: Pieces, second: int, h: bytes, g: bytes, s: Stack,
                     tx: Spend)
    requires |h| == HEADER == |g| && q == CheckPass([], nextFirst, step, rest).rest.rest.rest
    ensures Go(q, tx, Ok(Push(Data(g), Push(Num(second), Push(Data(h), s))), Bottom))
      == if g[OFF_WAGER1..OFF_WAGER1 + 16] == h[OFF_WAGER1..OFF_WAGER1 + 16]
            && Field(g, OFF_DEADLINE, 8) == Field(h, OFF_DEADLINE, 8) + DEADLINE_INTERVAL
            && Field(g, OFF_PHASE, 1) == second * step + nextFirst
         then Go(rest, tx, Ok(s, Bottom)) else Failed
  {
    hide Run, Go, Step, Exec, OpenNext, RangeIs, UnsignedField, Field;
    PushLaws(tx);
    StackLaws(tx);
    PickLaws(tx);
    StringLaws(tx);
    CheckLaws(tx);
    ArithmeticLaws(tx);
    var d := Push(Data(g), Push(Num(second), Push(Data(h), s)));
    Go10(q, DUP, NUM(OFF_WAGER1), NUM(16), SUBSTR, NUM(3), PICK, NUM(OFF_WAGER1), NUM(16), SUBSTR, EQUALVERIFY, tx,
         Ok(d, Bottom));
    var r := q.rest;
    UnsignedFieldGoes(r, 0, OFF_DEADLINE, 8, g, tx, d, Bottom, NoBranch);
    r := r.rest;
    var d1 := Push(Num(Field(g, OFF_DEADLINE, 8)), d);
    UnsignedFieldGoes(r, 3, OFF_DEADLINE, 8, h, tx, d1, Bottom, NoBranch);
    r := r.rest;
    Go3(r, NUM(DEADLINE_INTERVAL), ADD, NUMEQUALVERIFY, tx, Ok(Push(Num(Field(h, OFF_DEADLINE, 8)), d1), Bottom));
    r := r.rest;
    Go6(r, NUM(1), PICK, NUM(step), MUL, NUM(nextFirst), ADD, tx, Ok(d, Bottom));
    r := r.rest;
    var d2 := Push(Num(second * step + nextFirst), d);
    UnsignedFieldGoes(r, 1, OFF_PHASE, 1, g, tx, d2, Bottom, NoBranch);
    r := r.rest;
    Go1(r, NUMEQUALVERIFY, tx, Ok(Push(Num(Field(g, OFF_PHASE, 1)), d2), Bottom));
    Go2(r.rest, DROP2, DROP, tx, Ok(d, Bottom));
  }

  // ---------- The two programs ----------

  function TwoPassPieces(p: Params, board: bool, actor: Player, slots: seq<nat>, first: byte, nextFirst: int,
                         nextSecond: int)
    : (q: Pieces)
    requires |p.id| == 32 && Batch(slots)
  {
    var prefix := HeaderPrefix(p.id);
    ReadPass(prefix, |slots|, first,
    CheckEqual(p, board,
    CheckPass(prefix, nextFirst, nextSecond - nextFirst, PublishPieces(actor, slots))))
  }

  function BoardPieces(p: Params, street: Street, actor: Player): (q: Pieces)
    requires |p.id| == 32 && street != PreFlop
  {
    KindBatches(BoardKind(street), actor);
    var k := StreetIndex(street) - 1;
    TwoPassPieces(p, true, actor, KindSlots(BoardKind(street), actor), 0x0a + 4 * k + Index(actor),
                  0x0a + 4 * k + 2 + 1 - Index(actor), 4 + 2 * k + 1 - Index(actor))
  }

  function ShowdownRevealPieces(p: Params, actor: Player): (q: Pieces)
    requires |p.id| == 32
  {
    KindBatches(OwnHoles, actor);
    TwoPassPieces(p, false, actor, KindSlots(OwnHoles, actor), 0x16 + Index(actor), 0x18 + 1 - Index(actor), 0x1a)
  }

  /** What a two-pass program enforces, on the bytes of both headers. */
  predicate TwoPassEnforced(p: Params, board: bool, actor: Player, slots: seq<nat>, first: byte, nextFirst: int,
                            nextSecond: int, tx: Spend, proofs: seq<bytes>)
    requires |p.id| == 32 && Batch(slots)
  {
    && tx.current == 0 && |tx.inputs| == 1 && HasHeader(SourcePackets(tx), HeaderPrefix(p.id))
    && var h := SourcePackets(tx)[TYPE_STATE];
       var phase, w := Field(h, OFF_PHASE, 1), Field(h, OFF_WAGER1, 8);
       && h[OFF_ACTION..OFF_ACTION + 1] == [0]
       && (phase == first || phase == first + 2)
       && CapAdmits(p, board, (phase - first) / 2, w) && Field(h, OFF_WAGER2, 8) == w
       && Locks(2 * (Half(p) + w), tx)
       && PassFollows(HeaderPrefix(p.id), if phase == first then nextFirst else nextSecond, h, tx)
       && |proofs| == |slots| && SharesPublished(actor, slots, tx, proofs)
  }

  lemma TwoPassAccepts(p: Params, board: bool, actor: Player, slots: seq<nat>, first: byte, nextFirst: int,
                       nextSecond: int, tx: Spend, proofs: seq<bytes>)
    requires |p.id| == 32 && Batch(slots)
    ensures Accepts(Flat(TwoPassPieces(p, board, actor, slots, first, nextFirst, nextSecond)), tx, proofs)
      <==> TwoPassEnforced(p, board, actor, slots, first, nextFirst, nextSecond, tx, proofs)
  {
    hide Run, Go, Step, Exec, ReadPass, CheckEqual, CheckPass, PublishPieces, Field, CapAdmits, Locks, PassFollows,
         SharesPublished, HeaderPrefix, Depth, Witness, Flat, Half;
    var prefix, q := HeaderPrefix(p.id), TwoPassPieces(p, board, actor, slots, first, nextFirst, nextSecond);
    var q2 := CheckPass(prefix, nextFirst, nextSecond - nextFirst, PublishPieces(actor, slots));
    var q1 := CheckEqual(p, board, q2);
    var s := Witness(proofs);
    GoIsRun(q, tx, Ok(s, Bottom));
    WitnessDepth(proofs);
    ReadPassGoes(prefix, |slots|, first, q1, tx, s);
    if HasHeader(SourcePackets(tx), prefix) {
      var h := SourcePackets(tx)[TYPE_STATE];
      var phase := Field(h, OFF_PHASE, 1);
      var second := (phase - first) / 2;
      CheckEqualGoes(p, board, q2, second, h, s, tx);
      CheckPassGoes(prefix, nextFirst, nextSecond - nextFirst, PublishPieces(actor, slots), second, h, s, tx);
      if |proofs| == |slots| {
        PublishGoes(actor, slots, tx, proofs);
      }
    }
  }
}
