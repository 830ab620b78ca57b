/** The programs of an all-in: the capped call with all remaining shares, and the bettor's last reveal. */
module AllInPrograms {
  import opened Bytes
  import opened Hand
  import opened Codec
  import opened Rules
  import opened Machine
  import opened Laws
  import opened Pieces
  import opened Preservation
  import opened RevealPrograms

  function Cap(p: Params): (b: bytes)
    requires ValidParams(p)
  {
    ToLittleEndian(p.maxWager, 8)
  }

  // ---------- The code ----------

  /** Guards and the source header, up to the phase and action bytes. */
  function ReadExact(prefix: bytes, call: bool, count: nat, phase: byte, action: byte, rest: Pieces): (q: Pieces) {
    Then(OnlyFirstInput(), Then(if call then [NUMINPUTS, NUM(1), GREATERTHAN, VERIFY] else OneInput(),
    Then(WitnessCount(count), Then(OpenSource(TYPE_STATE, HEADER), Then(RangeIs(0, OFF_PHASE, prefix),
    Then(RangeIs(OFF_PHASE, 2, [phase, action]), rest))))))
  }

  /** The opponent is at the cap, the caller below it, and the call tops the pot up to the cap. */
  function CheckCall(p: Params, actor: Player, rest: Pieces): (q: Pieces) {
    Then(UnsignedField(0, WagerOffset(Other(actor)), 8), Then([NUM(p.maxWager), NUMEQUALVERIFY],
    Then(UnsignedField(0, WagerOffset(actor), 8), Then([DUP, NUM(p.maxWager), LESSTHAN, VERIFY],
    Then([NUM(2 * Half(p) + p.maxWager), ADD, NUM(0), INPUTVALUE, NUMEQUALVERIFY],
    Then([NUM(2 * (Half(p) + p.maxWager)), NUM(0), OUTPUTVALUE, NUMEQUALVERIFY], Then(KeepScript(), rest)))))))
  }

  /** Both wagers are at the cap and the covenant keeps its value. */
  function CheckCapped(p: Params, rest: Pieces): (q: Pieces)
    requires ValidParams(p)
  {
    Then(RangeIs(OFF_WAGER1, 8, Cap(p)), Then(RangeIs(OFF_WAGER2, 8, Cap(p)),
    Then([NUM(2 * (Half(p) + p.maxWager)), NUM(0), INPUTVALUE, NUMEQUALVERIFY],
    Then([NUM(2 * (Half(p) + p.maxWager)), NUM(0), OUTPUTVALUE, NUMEQUALVERIFY], Then(KeepScript(), rest)))))
  }

  function OpenSuccessor(prefix: bytes, phase: byte, rest: Pieces): (q: Pieces) {
    Then(OpenNext(TYPE_STATE, HEADER),
         Then(RangeIs(0, OFF_PHASE, prefix), Then(RangeIs(OFF_PHASE, 2, [phase, 0]), rest)))
  }

  /** After a call the successor's wagers are spelled out; after a reveal they are compared with the source's. */
  function CheckWagers(p: Params, call: bool, rest: Pieces): (q: Pieces)
    requires ValidParams(p)
  {
    if call then Then(RangeIs(OFF_WAGER1, 8, Cap(p)), Then(RangeIs(OFF_WAGER2, 8, Cap(p)), rest))
    else Then([DUP, NUM(OFF_WAGER1), NUM(16), SUBSTR, NUM(2), PICK, NUM(OFF_WAGER1), NUM(16), SUBSTR, EQUALVERIFY],
              rest)
  }

  function CheckDeadline(rest: Pieces): (q: Pieces) {
    Then(UnsignedField(0, OFF_DEADLINE, 8), Then(UnsignedField(2, OFF_DEADLINE, 8),
    Then([NUM(DEADLINE_INTERVAL), ADD, NUMEQUALVERIFY], Then([DROP2], rest))))
  }

  function AllInPieces(p: Params, call: bool, actor: Player, slots: seq<nat>, phase: byte, next: byte): (q: Pieces)
    requires ValidParams(p) && Batch(slots)
  {
    var prefix := HeaderPrefix(p.id);
    var after := OpenSuccessor(prefix, next, CheckWagers(p, call, CheckDeadline(PublishPieces(actor, slots))));
    ReadExact(prefix, call, |slots|, phase, if call then 2 else 0,
              if call then CheckCall(p, actor, after) else CheckCapped(p, after))
  }

  function CallPieces(p: Params, street: Street, actor: Player): (q: Pieces)
    requires ValidParams(p)
  {
    KindBatches(RemainingKind(street), actor);
    AllInPieces(p, true, actor, KindSlots(RemainingKind(street), actor), 0x1c + 2 * StreetIndex(street) + Index(actor),
                (if street == River then 0x18 else 0x24 + 2 * StreetIndex(street)) + 1 - Index(actor))
  }

  function LastRevealPieces(p: Params, street: Street, actor: Player): (q: Pieces)
    requires ValidParams(p) && street != PreFlop
  {
    KindBatches(RemainingKind(PreviousStreet(street)), actor);
    AllInPieces(p, false, actor, KindSlots(RemainingKind(PreviousStreet(street)), actor),
                0x24 + 2 * (StreetIndex(street) - 1) + Index(actor), 0x1a)
  }

  // ---------- What each part checks ----------

  lemma ReadExactGoes(prefix: bytes, call: bool, count: nat, phase: byte, action: byte, rest: Pieces, tx: Spend,
                      s: Stack)
    ensures Go(ReadExact(prefix, call, count, phase, action, rest), tx, Ok(s, Bottom))
      == if tx.current == 0 && (if call then |tx.inputs| > 1 else |tx.inputs| == 1) && Depth(s) == count
            && HasHeader(SourcePackets(tx), prefix)
            && SourcePackets(tx)[TYPE_STATE][OFF_PHASE..OFF_PHASE + 2] == [phase, action]
         then Go(rest, tx, Ok(Push(Data(SourcePackets(tx)[TYPE_STATE]), s), Bottom)) else Failed
  {
    hide Run, Go, Step, Exec, OnlyFirstInput, OneInput, WitnessCount, OpenSource, RangeIs, Depth;
    var q := ReadExact(prefix, call, count, phase, action, rest);
    OnlyFirstInputGoes(q, tx, s, Bottom, NoBranch);
    q := q.rest;
    if call {
      PushLaws(tx);
      CheckLaws(tx);
      ComparisonLaws(tx);
      InspectionLaws(tx);
      Go4(q, NUMINPUTS, NUM(1), GREATERTHAN, VERIFY, tx, Ok(s, Bottom));
    } else {
      OneInputGoes(q, tx, s, Bottom, NoBranch);
    }
    q := q.rest;
    WitnessCountGoes(q, count, tx, s, Bottom, NoBranch);
    q := q.rest;
    OpenSourceGoes(q, TYPE_STATE, HEADER, tx, s, Bottom, NoBranch);
    q := q.rest;
    if Sized(SourcePackets(tx), TYPE_STATE, HEADER) {
      var h := SourcePackets(tx)[TYPE_STATE];
      RangeIsGoes(q, 0, OFF_PHASE, prefix, h, tx, s, Bottom, NoBranch);
      q := q.rest;
      RangeIsGoes(q, OFF_PHASE, 2, [phase, action], h, tx, s, Bottom, NoBranch);
    }
  }

  predicate CallAdmitted(p: Params, actor: Player, h: bytes, tx: Spend)
    requires |h| == HEADER
  {
    && Field(h, WagerOffset(Other(actor)), 8) == p.maxWager && Field(h, WagerOffset(actor), 8) < p.maxWager
    && |tx.inputs| > 0 && tx.inputs[0].value == Field(h, WagerOffset(actor), 8) + 2 * Half(p) + p.maxWager
    && |tx.outputs| > 0 && tx.outputs[0].value == 2 * (Half(p) + p.maxWager) && ScriptKept(tx)
  }

  lemma CheckCallGoes(p: Params, actor: Player, rest: Pieces, h: bytes, s: Stack, tx: Spend)
    requires |h| == HEADER
    ensures Go(CheckCall(p, actor, rest), tx, Ok(Push(Data(h), s), Bottom))
      == if CallAdmitted(p, actor, h, tx) then Go(rest, tx, Ok(Push(Data(h), s), Bottom)) else Failed
  {
    hide Run, Go, Step, Exec, UnsignedField, Field, KeepScript, Half, WagerOffset;
    PushLaws(tx);
    StackLaws(tx);
    CheckLaws(tx);
    ArithmeticLaws(tx);
    ComparisonLaws(tx);
    InspectionLaws(tx);
    var q, d := CheckCall(p, actor, rest), Push(Data(h), s);
    var a, o := Field(h, WagerOffset(actor), 8), Field(h, WagerOffset(Other(actor)), 8);
    UnsignedFieldGoes(q, 0, WagerOffset(Other(actor)), 8, h, tx, d, Bottom, NoBranch);
    q := q.rest;
    Go2(q, NUM(p.maxWager), NUMEQUALVERIFY, tx, Ok(Push(Num(o), d), Bottom));
    q := q.rest;
    UnsignedFieldGoes(q, 0, WagerOffset(actor), 8, h, tx, d, Bottom, NoBranch);
    q := q.rest;
    var v := Ok(Push(Num(a), d), Bottom);
    Go4(q, DUP, NUM(p.maxWager), LESSTHAN, VERIFY, tx, v);
    q := q.rest;
    Go5(q, NUM(2 * Half(p) + p.maxWager), ADD, NUM(0), INPUTVALUE, NUMEQUALVERIFY, tx, v);
    q := q.rest;
    Go4(q, NUM(2 * (Half(p) + p.maxWager)), NUM(0), OUTPUTVALUE, NUMEQUALVERIFY, tx, Ok(d, Bottom));
    KeepScriptGoes(q.rest, tx, d, Bottom, NoBranch);
  }

  predicate CappedAdmitted(p: Params, h: bytes, tx: Spend)
    requires ValidParams(p) && |h| == HEADER
  {
    && h[OFF_WAGER1..OFF_WAGER1 + 8] == Cap(p) && h[OFF_WAGER2..OFF_WAGER2 + 8] == Cap(p)
    && Locks(2 * (Half(p) + p.maxWager), tx)
  }

  lemma CheckCappedGoes(p: Params, rest: Pieces, h: bytes, s: Stack, tx: Spend)
    requires ValidParams(p) && |h| == HEADER
    ensures Go(CheckCapped(p, rest), tx, Ok(Push(Data(h), s), Bottom))
      == if CappedAdmitted(p, h, tx) then Go(rest, tx, Ok(Push(Data(h), s), Bottom)) else Failed
  {
    hide Run, Go, Step, Exec, RangeIs, KeepScript, Half, Cap;
    PushLaws(tx);
    CheckLaws(tx);
    InspectionLaws(tx);
    var q, d := CheckCapped(p, rest), Push(Data(h), s);
    RangeIsGoes(q, OFF_WAGER1, 8, Cap(p), h, tx, s, Bottom, NoBranch);
    q := q.rest;
    RangeIsGoes(q, OFF_WAGER2, 8, Cap(p), h, tx, s, Bottom, NoBranch);
    q := q.rest;
    Go4(q, NUM(2 * (Half(p) + p.maxWager)), NUM(0), INPUTVALUE, NUMEQUALVERIFY, tx, Ok(d, Bottom));
    q := q.rest;
    Go4(q, NUM(2 * (Half(p) + p.maxWager)), NUM(0), OUTPUTVALUE, NUMEQUALVERIFY, tx, Ok(d, Bottom));
    KeepScriptGoes(q.rest, tx, d, Bottom, NoBranch);
  }

  predicate Opens(prefix: bytes, phase: byte, tx: Spend) {
    HasHeader(tx.packets, prefix) && tx.packets[TYPE_STATE][OFF_PHASE..OFF_PHASE + 2] == [phase, 0]
  }

  lemma OpenSuccessorGoes(prefix: bytes, phase: byte, rest: Pieces, s: Stack, tx: Spend)
    ensures Go(OpenSuccessor(prefix, phase, rest), tx, Ok(s, Bottom))
      == if Opens(prefix, phase, tx) then Go(rest, tx, Ok(Push(Data(tx.packets[TYPE_STATE]), s), Bottom)) else Failed
  {
    hide Run, Go, OpenNext, RangeIs;
    var q := OpenSuccessor(prefix, phase, rest);
    OpenNextGoes(q, TYPE_STATE, HEADER, tx, s, Bottom, NoBranch);
    q := q.rest;
    if Sized(tx.packets, TYPE_STATE, HEADER) {
      RangeIsGoes(q, 0, OFF_PHASE, prefix, tx.packets[TYPE_STATE], tx, s, Bottom, NoBranch);
      RangeIsGoes(q.rest, OFF_PHASE, 2, [phase, 0], tx.packets[TYPE_STATE], tx, s, Bottom, NoBranch);
    }
  }

  predicate WagersFollow(p: Params, call: bool, h: bytes, g: bytes)
    requires ValidParams(p) && |h| == HEADER == |g|
  {
    if call then g[OFF_WAGER1..OFF_WAGER1 + 8] == Cap(p) && g[OFF_WAGER2..OFF_WAGER2 + 8] == Cap(p)
    else g[OFF_WAGER1..OFF_WAGER1 + 16] == h[OFF_WAGER1..OFF_WAGER1 + 16]
  }

  lemma CheckWagersGoes(p: Params, call: bool, rest: Pieces, h: bytes, g: bytes, s: Stack, tx: Spend)
    requires ValidParams(p) && |h| == HEADER == |g|
    ensures Go(CheckWagers(p, call, rest), tx, Ok(Push(Data(g), Push(Data(h), s)), Bottom))
      == if WagersFollow(p, call, h, g) then Go(rest, tx, Ok(Push(Data(g), Push(Data(h), s)), Bottom)) else Failed
  {
    hide Run, Go, Step, Exec, RangeIs, Cap;
    var q, d := CheckWagers(p, call, rest), Push(Data(h), s);
    if call {
      RangeIsGoes(q, OFF_WAGER1, 8, Cap(p), g, tx, d, Bottom, NoBranch);
      RangeIsGoes(q.rest, OFF_WAGER2, 8, Cap(p), g, tx, d, Bottom, NoBranch);
    } else {
      PushLaws(tx);
      StackLaws(tx);
      PickLaws(tx);
      StringLaws(tx);
      CheckLaws(tx);
      Go10(q, DUP, NUM(OFF_WAGER1), NUM(16), SUBSTR, NUM(2), PICK, NUM(OFF_WAGER1), NUM(16), SUBSTR, EQUALVERIFY, tx,
           Ok(Push(Data(g), d), Bottom));
    }
  }

  lemma CheckDeadlineGoes(rest: Pieces, h: bytes, g: bytes, s: Stack, tx: Spend)
    requires |h| == HEADER == |g|
    ensures Go(CheckDeadline(rest), tx, Ok(Push(Data(g), Push(Data(h), s)), Bottom))
      == if Field(g, OFF_DEADLINE, 8) == Field(h, OFF_DEADLINE, 8) + DEADLINE_INTERVAL then Go(rest, tx, Ok(s, Bottom))
         else Failed
  {
    hide Run, Go, Step, Exec, UnsignedField, Field;
    PushLaws(tx);
    StackLaws(tx);
    CheckLaws(tx);
    ArithmeticLaws(tx);
    var q, d := CheckDeadline(rest), Push(Data(g), Push(Data(h), s));
    UnsignedFieldGoes(q, 0, OFF_DEADLINE, 8, g, tx, d, Bottom, NoBranch);
    q := q.rest;
    var d1 := Push(Num(Field(g, OFF_DEADLINE, 8)), d);
    UnsignedFieldGoes(q, 2, OFF_DEADLINE, 8, h, tx, d1, Bottom, NoBranch);
    q := q.rest;
    Go3(q, NUM(DEADLINE_INTERVAL), ADD, NUMEQUALVERIFY, tx, Ok(Push(Num(Field(h, OFF_DEADLINE, 8)), d1), Bottom));
    Go1(q.rest, DROP2, tx, Ok(d, Bottom));
  }

  // ---------- The whole programs ----------

  /** What an all-in program enforces, on the bytes of both headers. */
  predicate AllInEnforced(p: Params, call: bool, actor: Player, slots: seq<nat>, phase: byte, next: byte, tx: Spend,
                          proofs: seq<bytes>)
    requires ValidParams(p) && Batch(slots)
  {
    && tx.current == 0 && (if call then |tx.inputs| > 1 else |tx.inputs| == 1)
    && HasHeader(SourcePackets(tx), HeaderPrefix(p.id))
    && var h := SourcePackets(tx)[TYPE_STATE];
       && h[OFF_PHASE..OFF_PHASE + 2] == [phase, if call then 2 else 0]
       && (if call then CallAdmitted(p, actor, h, tx) else CappedAdmitted(p, h, tx))
       && Opens(HeaderPrefix(p.id), next, tx)
       && var g := tx.packets[TYPE_STATE];
          && WagersFollow(p, call, h, g)
          && Field(g, OFF_DEADLINE, 8) == Field(h, OFF_DEADLINE, 8) + DEADLINE_INTERVAL
          && |proofs| == |slots| && SharesPublished(actor, slots, tx, proofs)
  }

  lemma AllInAccepts(p: Params, call: bool, actor: Player, slots: seq<nat>, phase: byte, next: byte, tx: Spend,
                     proofs: seq<bytes>)
    requires ValidParams(p) && Batch(slots)
    ensures Accepts(Flat(AllInPieces(p, call, actor, slots, phase, next)), tx, proofs)
      <==> AllInEnforced(p, call, actor, slots, phase, next, tx, proofs)
  {
    hide Run, Go, Step, Exec, ReadExact, CheckCall, CheckCapped, OpenSuccessor, CheckWagers, CheckDeadline,
      PublishPieces, Field, CallAdmitted, CappedAdmitted, WagersFollow, SharesPublished, HeaderPrefix, Depth, Witness,
      Flat;
    var prefix, q := HeaderPrefix(p.id), AllInPieces(p, call, actor, slots, phase, next);
    var q4 := PublishPieces(actor, slots);
    var q3 := CheckDeadline(q4);
    var q2 := CheckWagers(p, call, q3);
    var q1 := OpenSuccessor(prefix, next, q2);
    var s := Witness(proofs);
    GoIsRun(q, tx, Ok(s, Bottom));
    WitnessDepth(proofs);
    ReadExactGoes(prefix, call, |slots|, phase, if call then 2 else 0,
                  if call then CheckCall(p, actor, q1) else CheckCapped(p, q1), tx, s);
    if HasHeader(SourcePackets(tx), prefix) {
      var h := SourcePackets(tx)[TYPE_STATE];
      CheckCallGoes(p, actor, q1, h, s, tx);
      CheckCappedGoes(p, q1, h, s, tx);
      OpenSuccessorGoes(prefix, next, q2, Push(Data(h), s), tx);
      if Opens(prefix, next, tx) {
        var g := tx.packets[TYPE_STATE];
        CheckWagersGoes(p, call, q3, h, g, s, tx);
        CheckDeadlineGoes(q4, h, g, s, tx);
        if |proofs| == |slots| {
          PublishGoes(actor, slots, tx, proofs);
        }
      }
    }
  }
}
