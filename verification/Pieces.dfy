/** Program fragments the poker programs share, with the exact effect of each, and how fragments run in sequence. */
module Pieces {
  import opened Bytes
  import opened Hand
  import opened Codec
  import opened Laws
  import opened Machine

  // ---------- Fragments in sequence ----------

  datatype Pieces = Done | Then(piece: Code, rest: Pieces)

  function Flat(p: Pieces): (c: Code) {
    match p
    case Done => []
    case Then(c, rest) => c + Flat(rest)
  }

  /** Running the fragments one after another. */
  function Go(p: Pieces, tx: Spend, vm: Vm): (r: Vm) {
    match p
    case Done => vm
    case Then(c, rest) => Go(rest, tx, Run(c, tx, vm))
  }

  lemma {:induction false} GoIsRun(p: Pieces, tx: Spend, vm: Vm)
    ensures Run(Flat(p), tx, vm) == Go(p, tx, vm)
  {
    match p
    case Done =>
    case Then(c, rest) =>
      RunConcat(c, Flat(rest), tx, vm);
      GoIsRun(rest, tx, Run(c, tx, vm));
  }

  lemma {:induction false} GoFailed(p: Pieces, tx: Spend)
    ensures Go(p, tx, Failed) == Failed
  {
    match p
    case Done =>
    case Then(c, rest) =>
      FailedStays(|c|, c, tx);
      GoFailed(rest, tx);
  }

  /** One fragment: on failure the whole sequence fails, otherwise the rest runs from its result. */
  lemma Next(c: Code, rest: Pieces, tx: Spend, vm: Vm)
    ensures Go(Then(c, rest), tx, vm) == Go(rest, tx, Run(c, tx, vm))
    ensures Run(c, tx, vm) == Failed ==> Go(Then(c, rest), tx, vm) == Failed
  {
    GoFailed(rest, tx);
  }

  // ---------- Shared fragments ----------

  function OnlyFirstInput(): (c: Code) { [CURRENTINPUT, NUM(0), NUMEQUALVERIFY] }

  function WitnessCount(n: nat): (c: Code) { [DEPTH, NUM(n), NUMEQUALVERIFY] }

  function OneInput(): (c: Code) { [NUMINPUTS, NUM(1), NUMEQUALVERIFY] }

  /** Opens a packet of the spent transaction, of an exact size. */
  function OpenSource(kind: int, size: nat): (c: Code) {
    [NUM(kind), NUM(0), INPUTPACKET, VERIFY, SIZE, NUM(size), NUMEQUALVERIFY]
  }

  /** Opens a packet of the spending transaction, of an exact size. */
  function OpenNext(kind: int, size: nat): (c: Code) { [NUM(kind), PACKET, VERIFY, SIZE, NUM(size), NUMEQUALVERIFY] }

  /** Compares a range of the byte string on top with a constant, keeping it. */
  function RangeIs(offset: nat, width: nat, b: bytes): (c: Code) {
    [DUP, NUM(offset), NUM(width), SUBSTR, DATA(b), EQUALVERIFY]
  }

  function Fetch(depth: nat): (c: Code) { if depth == 0 then [DUP] else [NUM(depth), PICK] }

  /** Reads an unsigned field of the byte string on top, replacing it. */
  function TakeField(offset: nat, width: nat): (c: Code) { [NUM(offset), NUM(width), SUBSTR, DATA([0]), CAT, BIN2NUM] }

  /** Reads an unsigned field of the byte string at a depth, keeping it. */
  function UnsignedField(depth: nat, offset: nat, width: nat): (c: Code) { Fetch(depth) + TakeField(offset, width) }

  function KeepScript(): (c: Code) { [NUM(0), INPUTSCRIPT, NUM(0), OUTPUTSCRIPT, ROT, EQUALVERIFY, EQUALVERIFY] }

  function WagerOffset(player: Player): (o: nat)
    ensures o + 8 <= HEADER
  {
    OFF_WAGER1 + 8 * Index(player)
  }

  /** Both stakes and bonds, locked in every live state. */
  function Pot(p: Params): (v: int) { 2 * (p.stake + p.bond) }

  /** A packet map whose state header is complete and belongs to the contract. */
  predicate HasHeader(packets: Packets, prefix: bytes) {
    Sized(packets, TYPE_STATE, HEADER) && packets[TYPE_STATE][0..OFF_PHASE] == prefix
  }

  function Ok(s: Stack, alt: Stack): (vm: Vm) { Running(s, alt, NoBranch) }

  // ---------- Their effects ----------

  lemma OnlyFirstInputRuns(tx: Spend, s: Stack, alt: Stack, br: Branches)
    requires Executing(br)
    ensures Run(OnlyFirstInput(), tx, Running(s, alt, br)) == if tx.current == 0 then Running(s, alt, br) else Failed
  {
    hide Run, Step, Exec;
    PushLaws(tx);
    CheckLaws(tx);
    InspectionLaws(tx);
    Run3(CURRENTINPUT, NUM(0), NUMEQUALVERIFY, tx, Running(s, alt, br));
  }

  lemma WitnessCountRuns(n: nat, tx: Spend, s: Stack, alt: Stack, br: Branches)
    requires Executing(br)
    ensures Run(WitnessCount(n), tx, Running(s, alt, br)) == if Depth(s) == n then Running(s, alt, br) else Failed
  {
    hide Run, Step, Exec;
    PushLaws(tx);
    CheckLaws(tx);
    Run3(DEPTH, NUM(n), NUMEQUALVERIFY, tx, Running(s, alt, br));
  }

  lemma OneInputRuns(tx: Spend, s: Stack, alt: Stack, br: Branches)
    requires Executing(br)
    ensures Run(OneInput(), tx, Running(s, alt, br)) == if |tx.inputs| == 1 then Running(s, alt, br) else Failed
  {
    hide Run, Step, Exec;
    PushLaws(tx);
    CheckLaws(tx);
    InspectionLaws(tx);
    Run3(NUMINPUTS, NUM(1), NUMEQUALVERIFY, tx, Running(s, alt, br));
  }

  predicate Sized(packets: Packets, kind: int, size: nat) { kind in packets && |packets[kind]| == size }

  /** The packets of the transaction whose covenant output the first input spends. */
  function SourcePackets(tx: Spend): (packets: Packets) { if |tx.inputs| > 0 then tx.inputs[0].packets else map[] }

  lemma OpenSourceRuns(kind: int, size: nat, tx: Spend, s: Stack, alt: Stack, br: Branches)
    requires Executing(br)
    ensures Run(OpenSource(kind, size), tx, Running(s, alt, br))
      == if Sized(SourcePackets(tx), kind, size) then Running(Push(Data(SourcePackets(tx)[kind]), s), alt, br)
        else Failed
  {
    hide Run, Step, Exec;
    PushLaws(tx);
    StringLaws(tx);
    CheckLaws(tx);
    ScriptLaws(tx);
    Run7(NUM(kind), NUM(0), INPUTPACKET, VERIFY, SIZE, NUM(size), NUMEQUALVERIFY, tx, Running(s, alt, br));
  }

  lemma OpenNextRuns(kind: int, size: nat, tx: Spend, s: Stack, alt: Stack, br: Branches)
    requires Executing(br)
    ensures Run(OpenNext(kind, size), tx, Running(s, alt, br))
      == if Sized(tx.packets, kind, size) then Running(Push(Data(tx.packets[kind]), s), alt, br) else Failed
  {
    hide Run, Step, Exec;
    PushLaws(tx);
    StringLaws(tx);
    CheckLaws(tx);
    ScriptLaws(tx);
    Run6(NUM(kind), PACKET, VERIFY, SIZE, NUM(size), NUMEQUALVERIFY, tx, Running(s, alt, br));
  }

  lemma RangeIsRuns(offset: nat, width: nat, b: bytes, h: bytes, tx: Spend, s: Stack, alt: Stack, br: Branches)
    requires Executing(br) && offset + width <= |h|
    ensures Run(RangeIs(offset, width, b), tx, Running(Push(Data(h), s), alt, br))
      == if h[offset..offset + width] == b then Running(Push(Data(h), s), alt, br) else Failed
  {
    hide Run, Step, Exec;
    PushLaws(tx);
    StackLaws(tx);
    StringLaws(tx);
    CheckLaws(tx);
    Run6(DUP, NUM(offset), NUM(width), SUBSTR, DATA(b), EQUALVERIFY, tx, Running(Push(Data(h), s), alt, br));
  }

  lemma TakeFieldRuns(offset: nat, width: nat, h: bytes, tx: Spend, s: Stack, alt: Stack, br: Branches)
    requires Executing(br) && offset + width <= |h|
    ensures Run(TakeField(offset, width), tx, Running(Push(Data(h), s), alt, br))
      == Running(Push(Num(Field(h, offset, width)), s), alt, br)
  {
    hide Run, Step, Exec;
    PushLaws(tx);
    StringLaws(tx);
    Run6(NUM(offset), NUM(width), SUBSTR, DATA([0]), CAT, BIN2NUM, tx, Running(Push(Data(h), s), alt, br));
    SignByteReadsUnsigned(h[offset..offset + width]);
  }

  lemma FetchRuns(depth: nat, tx: Spend, s: Stack, alt: Stack, br: Branches)
    requires Executing(br) && Drop(depth, s).Push?
    ensures Run(Fetch(depth), tx, Running(s, alt, br)) == Running(Push(Drop(depth, s).top, s), alt, br)
  {
    hide Run, Step, Exec;
    PushLaws(tx);
    StackLaws(tx);
    PickLaws(tx);
    Run1(DUP, tx, Running(s, alt, br));
    Run2(NUM(depth), PICK, tx, Running(s, alt, br));
  }

  lemma UnsignedFieldRuns(depth: nat, offset: nat, width: nat, h: bytes, tx: Spend, s: Stack, alt: Stack, br: Branches)
    requires Executing(br) && Drop(depth, s).Push? && Drop(depth, s).top == Data(h) && offset + width <= |h|
    ensures Run(UnsignedField(depth, offset, width), tx, Running(s, alt, br))
      == Running(Push(Num(Field(h, offset, width)), s), alt, br)
  {
    hide Run, Field, TakeField, Fetch, Drop;
    RunConcat(Fetch(depth), TakeField(offset, width), tx, Running(s, alt, br));
    FetchRuns(depth, tx, s, alt, br);
    TakeFieldRuns(offset, width, h, tx, s, alt, br);
  }

  predicate ScriptKept(tx: Spend) {
    |tx.inputs| > 0 && |tx.outputs| > 0 && tx.outputs[0].script == tx.inputs[0].script
  }

  lemma KeepScriptRuns(tx: Spend, s: Stack, alt: Stack, br: Branches)
    requires Executing(br)
    ensures Run(KeepScript(), tx, Running(s, alt, br)) == if ScriptKept(tx) then Running(s, alt, br) else Failed
  {
    hide Run, Step, Exec;
    PushLaws(tx);
    StackLaws(tx);
    CheckLaws(tx);
    ScriptLaws(tx);
    Run7(NUM(0), INPUTSCRIPT, NUM(0), OUTPUTSCRIPT, ROT, EQUALVERIFY, EQUALVERIFY, tx, Running(s, alt, br));
  }

  // ---------- One fragment of a sequence at a time ----------

  lemma OnlyFirstInputGoes(q: Pieces, tx: Spend, s: Stack, alt: Stack, br: Branches)
    requires Executing(br) && q.Then? && q.piece == OnlyFirstInput()
    ensures Go(q, tx, Running(s, alt, br)) == if tx.current == 0 then Go(q.rest, tx, Running(s, alt, br)) else Failed
  {
    hide Run, Go;
    OnlyFirstInputRuns(tx, s, alt, br);
    Next(q.piece, q.rest, tx, Running(s, alt, br));
  }

  lemma WitnessCountGoes(q: Pieces, n: nat, tx: Spend, s: Stack, alt: Stack, br: Branches)
    requires Executing(br) && q.Then? && q.piece == WitnessCount(n)
    ensures Go(q, tx, Running(s, alt, br)) == if Depth(s) == n then Go(q.rest, tx, Running(s, alt, br)) else Failed
  {
    hide Run, Go;
    WitnessCountRuns(n, tx, s, alt, br);
    Next(q.piece, q.rest, tx, Running(s, alt, br));
  }

  lemma OneInputGoes(q: Pieces, tx: Spend, s: Stack, alt: Stack, br: Branches)
    requires Executing(br) && q.Then? && q.piece == OneInput()
    ensures Go(q, tx, Running(s, alt, br)) == if |tx.inputs| == 1 then Go(q.rest, tx, Running(s, alt, br)) else Failed
  {
    hide Run, Go;
    OneInputRuns(tx, s, alt, br);
    Next(q.piece, q.rest, tx, Running(s, alt, br));
  }

  lemma OpenSourceGoes(q: Pieces, kind: int, size: nat, tx: Spend, s: Stack, alt: Stack, br: Branches)
    requires Executing(br) && q.Then? && q.piece == OpenSource(kind, size)
    ensures Go(q, tx, Running(s, alt, br))
      == if Sized(SourcePackets(tx), kind, size)
        then Go(q.rest, tx, Running(Push(Data(SourcePackets(tx)[kind]), s), alt, br))
         else Failed
  {
    hide Run, Go;
    OpenSourceRuns(kind, size, tx, s, alt, br);
    Next(q.piece, q.rest, tx, Running(s, alt, br));
  }

  lemma OpenNextGoes(q: Pieces, kind: int, size: nat, tx: Spend, s: Stack, alt: Stack, br: Branches)
    requires Executing(br) && q.Then? && q.piece == OpenNext(kind, size)
    ensures Go(q, tx, Running(s, alt, br))
      == if Sized(tx.packets, kind, size) then Go(q.rest, tx, Running(Push(Data(tx.packets[kind]), s), alt, br))
        else Failed
  {
    hide Run, Go;
    OpenNextRuns(kind, size, tx, s, alt, br);
    Next(q.piece, q.rest, tx, Running(s, alt, br));
  }

  lemma RangeIsGoes(q: Pieces, offset: nat, width: nat, b: bytes, h: bytes, tx: Spend, s: Stack, alt: Stack,
                    br: Branches)
    requires Executing(br) && offset + width <= |h| && q.Then? && q.piece == RangeIs(offset, width, b)
    ensures Go(q, tx, Running(Push(Data(h), s), alt, br))
      == if h[offset..offset + width] == b then Go(q.rest, tx, Running(Push(Data(h), s), alt, br)) else Failed
  {
    hide Run, Go;
    RangeIsRuns(offset, width, b, h, tx, s, alt, br);
    Next(q.piece, q.rest, tx, Running(Push(Data(h), s), alt, br));
  }

  lemma TakeFieldGoes(q: Pieces, offset: nat, width: nat, h: bytes, tx: Spend, s: Stack, alt: Stack, br: Branches)
    requires Executing(br) && offset + width <= |h| && q.Then? && q.piece == TakeField(offset, width)
    ensures Go(q, tx, Running(Push(Data(h), s), alt, br))
      == Go(q.rest, tx, Running(Push(Num(Field(h, offset, width)), s), alt, br))
  {
    hide Run, Go;
    TakeFieldRuns(offset, width, h, tx, s, alt, br);
    Next(q.piece, q.rest, tx, Running(Push(Data(h), s), alt, br));
  }

  lemma UnsignedFieldGoes(q: Pieces, depth: nat, offset: nat, width: nat, h: bytes, tx: Spend, s: Stack, alt: Stack,
                          br: Branches)
    requires Executing(br) && q.Then? && q.piece == UnsignedField(depth, offset, width)
    requires Drop(depth, s).Push? && Drop(depth, s).top == Data(h) && offset + width <= |h|
    ensures Go(q, tx, Running(s, alt, br)) == Go(q.rest, tx, Running(Push(Num(Field(h, offset, width)), s), alt, br))
  {
    hide Run, Go, Drop;
    UnsignedFieldRuns(depth, offset, width, h, tx, s, alt, br);
    Next(q.piece, q.rest, tx, Running(s, alt, br));
  }

  lemma KeepScriptGoes(q: Pieces, tx: Spend, s: Stack, alt: Stack, br: Branches)
    requires Executing(br) && q.Then? && q.piece == KeepScript()
    ensures Go(q, tx, Running(s, alt, br)) == if ScriptKept(tx) then Go(q.rest, tx, Running(s, alt, br)) else Failed
  {
    hide Run, Go;
    KeepScriptRuns(tx, s, alt, br);
    Next(q.piece, q.rest, tx, Running(s, alt, br));
  }

  lemma Go1(q: Pieces, a: Op, tx: Spend, vm: Vm)
    requires q.Then? && q.piece == [a]
    ensures var next := Step(a, tx, vm);
      Go(q, tx, vm) == Go(q.rest, tx, next) && (next == Failed ==> Go(q, tx, vm) == Failed)
  {
    hide Run, Go, Step;
    Run1(a, tx, vm);
    Next(q.piece, q.rest, tx, vm);
  }

  lemma Go2(q: Pieces, a: Op, b: Op, tx: Spend, vm: Vm)
    requires q.Then? && q.piece == [a, b]
    ensures var next := Step(b, tx, Step(a, tx, vm));
      Go(q, tx, vm) == Go(q.rest, tx, next) && (next == Failed ==> Go(q, tx, vm) == Failed)
  {
    hide Run, Go, Step;
    Run2(a, b, tx, vm);
    Next(q.piece, q.rest, tx, vm);
  }

  lemma Go3(q: Pieces, a: Op, b: Op, c: Op, tx: Spend, vm: Vm)
    requires q.Then? && q.piece == [a, b, c]
    ensures var next := Step(c, tx, Step(b, tx, Step(a, tx, vm)));
      Go(q, tx, vm) == Go(q.rest, tx, next) && (next == Failed ==> Go(q, tx, vm) == Failed)
  {
    hide Run, Go, Step;
    Run3(a, b, c, tx, vm);
    Next(q.piece, q.rest, tx, vm);
  }

  lemma Go4(q: Pieces, a: Op, b: Op, c: Op, d: Op, tx: Spend, vm: Vm)
    requires q.Then? && q.piece == [a, b, c, d]
    ensures var next := Step(d, tx, Step(c, tx, Step(b, tx, Step(a, tx, vm))));
      Go(q, tx, vm) == Go(q.rest, tx, next) && (next == Failed ==> Go(q, tx, vm) == Failed)
  {
    hide Run, Go, Step;
    Run4(a, b, c, d, tx, vm);
    Next(q.piece, q.rest, tx, vm);
  }

  lemma Go5(q: Pieces, a: Op, b: Op, c: Op, d: Op, e: Op, tx: Spend, vm: Vm)
    requires q.Then? && q.piece == [a, b, c, d, e]
    ensures var next := Step(e, tx, Step(d, tx, Step(c, tx, Step(b, tx, Step(a, tx, vm)))));
      Go(q, tx, vm) == Go(q.rest, tx, next) && (next == Failed ==> Go(q, tx, vm) == Failed)
  {
    hide Run, Go, Step;
    Run5(a, b, c, d, e, tx, vm);
    Next(q.piece, q.rest, tx, vm);
  }

  lemma Go6(q: Pieces, a: Op, b: Op, c: Op, d: Op, e: Op, f: Op, tx: Spend, vm: Vm)
    requires q.Then? && q.piece == [a, b, c, d, e, f]
    ensures var next := Step(f, tx, Step(e, tx, Step(d, tx, Step(c, tx, Step(b, tx, Step(a, tx, vm))))));
      Go(q, tx, vm) == Go(q.rest, tx, next) && (next == Failed ==> Go(q, tx, vm) == Failed)
  {
    hide Run, Go, Step;
    Run6(a, b, c, d, e, f, tx, vm);
    Next(q.piece, q.rest, tx, vm);
  }

  lemma Go7(q: Pieces, a: Op, b: Op, c: Op, d: Op, e: Op, f: Op, g: Op, tx: Spend, vm: Vm)
    requires q.Then? && q.piece == [a, b, c, d, e, f, g]
    ensures var next := Step(g, tx, Step(f, tx, Step(e, tx, Step(d, tx, Step(c, tx, Step(b, tx, Step(a, tx, vm)))))));
      Go(q, tx, vm) == Go(q.rest, tx, next) && (next == Failed ==> Go(q, tx, vm) == Failed)
  {
    hide Run, Go, Step;
    Run7(a, b, c, d, e, f, g, tx, vm);
    Next(q.piece, q.rest, tx, vm);
  }

  lemma Go8(q: Pieces, a: Op, b: Op, c: Op, d: Op, e: Op, f: Op, g: Op, h: Op, tx: Spend, vm: Vm)
    requires q.Then? && q.piece == [a, b, c, d, e, f, g, h]
    ensures var middle := Step(d, tx, Step(c, tx, Step(b, tx, Step(a, tx, vm))));
      var next := Step(h, tx, Step(g, tx, Step(f, tx, Step(e, tx, middle))));
      Go(q, tx, vm) == Go(q.rest, tx, next) && (next == Failed ==> Go(q, tx, vm) == Failed)
  {
    hide Run, Go, Step;
    Run8(a, b, c, d, e, f, g, h, tx, vm);
    Next(q.piece, q.rest, tx, vm);
  }

  lemma Go9(q: Pieces, a: Op, b: Op, c: Op, d: Op, e: Op, f: Op, g: Op, h: Op, i: Op, tx: Spend, vm: Vm)
    requires q.Then? && q.piece == [a, b, c, d, e, f, g, h, i]
    ensures var middle := Step(d, tx, Step(c, tx, Step(b, tx, Step(a, tx, vm))));
      var next := Step(i, tx, Step(h, tx, Step(g, tx, Step(f, tx, Step(e, tx, middle)))));
      Go(q, tx, vm) == Go(q.rest, tx, next) && (next == Failed ==> Go(q, tx, vm) == Failed)
  {
    hide Run, Go, Step;
    Run9(a, b, c, d, e, f, g, h, i, tx, vm);
    Next(q.piece, q.rest, tx, vm);
  }

  lemma Go10(q: Pieces, a: Op, b: Op, c: Op, d: Op, e: Op, f: Op, g: Op, h: Op, i: Op, j: Op, tx: Spend, vm: Vm)
    requires q.Then? && q.piece == [a, b, c, d, e, f, g, h, i, j]
    ensures var middle := Step(e, tx, Step(d, tx, Step(c, tx, Step(b, tx, Step(a, tx, vm)))));
      var next := Step(j, tx, Step(i, tx, Step(h, tx, Step(g, tx, Step(f, tx, middle)))));
      Go(q, tx, vm) == Go(q.rest, tx, next) && (next == Failed ==> Go(q, tx, vm) == Failed)
  {
    hide Run, Go, Step;
    Run10(a, b, c, d, e, f, g, h, i, j, tx, vm);
    Next(q.piece, q.rest, tx, vm);
  }

  /** Every live program ends by pushing its verdict. */
  lemma EndGoes(tx: Spend)
    ensures Go(Then([NUM(1)], Done), tx, Ok(Bottom, Bottom)) == Ok(Push(Num(1), Bottom), Bottom)
  {
    PushLaws(tx);
    Go1(Then([NUM(1)], Done), NUM(1), tx, Ok(Bottom, Bottom));
  }

  lemma WitnessDepth(proofs: seq<bytes>)
    ensures Depth(Witness(proofs)) == |proofs|
  {
    if proofs != [] {
      WitnessDepth(proofs[..|proofs| - 1]);
    }
  }
}
