/** The emulator's stack machine, for the opcodes the poker programs use.
    Curve, hash and Merkle opcodes are summarised by the checks they make. */
module Machine {
  import opened Bits
  import opened Bytes
  import opened Hand
  import opened Options

  /** A stack element: an opaque byte string, or a number in its canonical encoding. */
  datatype Item = Num(n: int) | Data(b: bytes)

  datatype Stack = Bottom | Push(top: Item, under: Stack)

  datatype Script = Script(version: int, program: bytes)
  datatype Output = Output(value: int, script: Script)
  datatype Input = Input(value: int, script: Script, packets: Packets)

  /** Publisher, slot and card of a share, its bytes and its proof. */
  type ShareOracle = (Player, nat, nat, bytes, bytes) -> bool

  /** Deal position, both shares and the claimed card. */
  type CardOracle = (nat, bytes, bytes, int) -> bool

  /** Card mask, claimed rank and the two halves of the sibling path. */
  type RankOracle = (int, int, bytes, bytes) -> bool

  /** What a program can inspect of the transaction that spends its input. */
  datatype Spend = Spend(
    current: nat,
    inputs: seq<Input>,
    outputs: seq<Output>,
    packets: Packets,
    time: int,
    shareValid: ShareOracle,
    cardValid: CardOracle,
    rankValid: RankOracle)

  datatype Branch = Taken | NotTaken | Skipped
  datatype Branches = NoBranch | Nested(inner: Branch, outer: Branches)

  datatype Vm = Running(stack: Stack, alt: Stack, branches: Branches) | Failed

  datatype Op =
    | NUM(value: int) | DATA(literal: bytes)
    | DUP | DUP2 | OVER | SWAP | ROT | DROP | DROP2 | PICK | ROLL | DEPTH | TOALT | FROMALT
    | SIZE | SUBSTR | CAT | BIN2NUM
    | ADD | SUB | MUL | DIV | MOD | LSHIFT | RSHIFT
    | NUMEQUAL | NUMNOTEQUAL | LESSTHAN | LESSTHANOREQUAL | GREATERTHAN | GREATERTHANOREQUAL | BOOLOR
    | NOT | VERIFY | NUMEQUALVERIFY | EQUALVERIFY
    | IF | ELSE | ENDIF
    | CURRENTINPUT | NUMINPUTS | INPUTVALUE | OUTPUTVALUE | INPUTSCRIPT | OUTPUTSCRIPT | INPUTPACKET | PACKET
    | CHECKTIMEVERIFY
    | REVEALPROOF(publisher: Player, slot: nat, card: nat)
    | DEALTCARD(position: nat, first: nat, second: nat)
    | RANKPROOF

  type Code = seq<Op>

  function Depth(s: Stack): (d: nat) {
    match s
    case Bottom => 0
    case Push(_, u) => 1 + Depth(u)
  }

  /** The stack from its `n`th element downwards. */
  function Drop(n: nat, s: Stack): (r: Stack)
    decreases n
  {
    if n == 0 || s.Bottom? then s else Drop(n - 1, s.under)
  }

  function Remove(n: nat, s: Stack): (r: Stack)
    decreases n
  {
    match s
    case Bottom => Bottom
    case Push(x, u) => if n == 0 then u else Push(x, Remove(n - 1, u))
  }

  predicate Truth(i: Item) {
    match i
    case Num(n) => n != 0
    case Data(b) => ScriptNumber(b) != 0
  }

  function Flag(b: bool): (i: Item) { if b then Num(1) else Num(0) }

  predicate Executing(br: Branches) { br.NoBranch? || br.inner.Taken? }

  predicate HasTwo(s: Stack) { s.Push? && s.under.Push? }

  predicate TopNum(s: Stack) { s.Push? && s.top.Num? }

  predicate TopData(s: Stack) { s.Push? && s.top.Data? }

  predicate TwoNums(s: Stack) { TopNum(s) && TopNum(s.under) }

  predicate IsBinary(op: Op) {
    op.ADD? || op.SUB? || op.MUL? || op.NUMEQUAL? || op.NUMNOTEQUAL? || op.LESSTHAN? || op.LESSTHANOREQUAL?
    || op.GREATERTHAN? || op.GREATERTHANOREQUAL? || op.BOOLOR?
  }

  /** A binary numeric opcode; `b` is the operand on top. */
  function Binary(op: Op, a: int, b: int): (r: Item)
    requires IsBinary(op)
  {
    match op
    case ADD => Num(a + b)
    case SUB => Num(a - b)
    case MUL => Num(a * b)
    case NUMEQUAL => Flag(a == b)
    case NUMNOTEQUAL => Flag(a != b)
    case LESSTHAN => Flag(a < b)
    case LESSTHANOREQUAL => Flag(a <= b)
    case GREATERTHAN => Flag(a > b)
    case GREATERTHANOREQUAL => Flag(a >= b)
    case BOOLOR => Flag(a != 0 || b != 0)
  }

  /** Non-negative division, remainder and shifts, which fail on operands the programs never give them. */
  function Divide(op: Op, a: int, b: int): (r: Option<int>) {
    if a < 0 || b < 0 then None
    else match op
      case DIV => if b == 0 then None else Some(a / b)
      case MOD => if b == 0 then None else Some(a % b)
      case LSHIFT => Some(a * Pow2(b))
      case RSHIFT => Some(a / Pow2(b))
      case _ => None
  }

  function PacketItems(packets: Packets, kind: int, s: Stack): (r: Stack) {
    if kind in packets then Push(Num(1), Push(Data(packets[kind]), s)) else Push(Num(0), Push(Data([]), s))
  }

  function ScriptItems(script: Script, s: Stack): (r: Stack) {
    Push(Num(script.version), Push(Data(script.program), s))
  }

  /** A share and its proof, as the summarised proof opcodes check them. */
  predicate ProofHolds(tx: Spend, publisher: Player, slot: nat, card: nat, proof: bytes) {
    && slot < SLOTS && |proof| == PROOF
    && TYPE_STATE + Packet(slot) in tx.packets
    && Offset(slot) + SHARE <= |tx.packets[TYPE_STATE + Packet(slot)]|
    && var share := tx.packets[TYPE_STATE + Packet(slot)][Offset(slot)..Offset(slot) + SHARE];
       share != BLANK && tx.shareValid(publisher, slot, card, share, proof)
  }

  function SourceShare(tx: Spend, slot: nat): (share: Option<bytes>) {
    if slot < SLOTS && |tx.inputs| > 0 && TYPE_STATE + Packet(slot) in tx.inputs[0].packets
       && Offset(slot) + SHARE <= |tx.inputs[0].packets[TYPE_STATE + Packet(slot)]|
    then Some(tx.inputs[0].packets[TYPE_STATE + Packet(slot)][Offset(slot)..Offset(slot) + SHARE]) else None
  }

  /** The claimed card of a deal position opens with the two shares the source state published for it. */
  predicate CardHolds(tx: Spend, position: nat, first: nat, second: nat, cards: bytes) {
    && position < |cards| && cards[position] < 52
    && SourceShare(tx, first).Some? && SourceShare(tx, second).Some?
    && tx.cardValid(position, SourceShare(tx, first).value, SourceShare(tx, second).value, cards[position])
  }

  /** The rank is in range and committed, with its path, for the seven cards of the mask. */
  predicate RankHolds(tx: Spend, mask: int, rank: bytes, low: bytes, high: bytes) {
    |high| == 448 && |low| == 416 && |rank| == 2 && 1 <= LittleEndian(rank) <= 7462
      && tx.rankValid(mask, LittleEndian(rank), low, high)
  }

  predicate IsShuffle(op: Op) {
    op.DUP? || op.DUP2? || op.OVER? || op.SWAP? || op.ROT? || op.DROP? || op.DROP2?
  }

  predicate IsString(op: Op) { op.SIZE? || op.SUBSTR? || op.CAT? || op.BIN2NUM? }

  predicate IsCheck(op: Op) {
    op.NOT? || op.VERIFY? || op.NUMEQUALVERIFY? || op.EQUALVERIFY? || op.CHECKTIMEVERIFY? || op.REVEALPROOF?
    || op.DEALTCARD? || op.RANKPROOF?
  }

  predicate IsInspection(op: Op) {
    op.CURRENTINPUT? || op.NUMINPUTS? || op.INPUTVALUE? || op.OUTPUTVALUE? || op.INPUTSCRIPT? || op.OUTPUTSCRIPT?
    || op.INPUTPACKET? || op.PACKET?
  }

  predicate IsDivision(op: Op) { op.DIV? || op.MOD? || op.LSHIFT? || op.RSHIFT? }

  function ExecShuffle(op: Op, s: Stack): (r: Option<Stack>)
    requires IsShuffle(op)
  {
    match op
    case DUP => if s.Push? then Some(Push(s.top, s)) else None
    case DUP2 => if HasTwo(s) then Some(Push(s.top, Push(s.under.top, s))) else None
    case OVER => if HasTwo(s) then Some(Push(s.under.top, s)) else None
    case SWAP => if HasTwo(s) then Some(Push(s.under.top, Push(s.top, s.under.under))) else None
    case ROT =>
      if HasTwo(s) && s.under.under.Push?
      then Some(Push(s.under.under.top, Push(s.top, Push(s.under.top, s.under.under.under)))) else None
    case DROP => if s.Push? then Some(s.under) else None
    case DROP2 => if HasTwo(s) then Some(s.under.under) else None
  }

  function ExecString(op: Op, s: Stack): (r: Option<Stack>)
    requires IsString(op)
  {
    match op
    case SIZE => if TopData(s) then Some(Push(Num(|s.top.b|), s)) else None
    case SUBSTR =>
      if TwoNums(s) && TopData(s.under.under) && 0 <= s.under.top.n && 0 <= s.top.n
         && s.under.top.n + s.top.n <= |s.under.under.top.b|
      then Some(Push(Data(s.under.under.top.b[s.under.top.n..s.under.top.n + s.top.n]), s.under.under.under)) else None
    case CAT =>
      if TopData(s) && TopData(s.under) then Some(Push(Data(s.under.top.b + s.top.b), s.under.under)) else None
    case BIN2NUM => if TopData(s) then Some(Push(Num(ScriptNumber(s.top.b)), s.under)) else None
  }

  function ExecCheck(op: Op, tx: Spend, s: Stack): (r: Option<Stack>)
    requires IsCheck(op)
  {
    match op
    case NOT => if TopNum(s) then Some(Push(Flag(s.top.n == 0), s.under)) else None
    case VERIFY => if s.Push? && Truth(s.top) then Some(s.under) else None
    case NUMEQUALVERIFY => if TwoNums(s) && s.top.n == s.under.top.n then Some(s.under.under) else None
    case EQUALVERIFY => if HasTwo(s) && s.top == s.under.top then Some(s.under.under) else None
    case CHECKTIMEVERIFY => if TopNum(s) && s.top.n <= tx.time then Some(s.under) else None
    case REVEALPROOF(publisher, slot, card) =>
      if TopData(s) && ProofHolds(tx, publisher, slot, card, s.top.b) then Some(s.under) else None
    case DEALTCARD(position, first, second) =>
      if TopData(s) && CardHolds(tx, position, first, second, s.top.b) then Some(s) else None
    case RANKPROOF =>
      if TopData(s) && TopData(s.under) && TopData(s.under.under) && TopNum(s.under.under.under)
         && RankHolds(tx, s.under.under.under.top.n, s.under.under.top.b, s.under.top.b, s.top.b)
      then Some(Push(Num(LittleEndian(s.under.under.top.b)), s.under.under.under.under)) else None
  }

  function ExecInspection(op: Op, tx: Spend, s: Stack): (r: Option<Stack>)
    requires IsInspection(op)
  {
    match op
    case CURRENTINPUT => Some(Push(Num(tx.current), s))
    case NUMINPUTS => Some(Push(Num(|tx.inputs|), s))
    case INPUTVALUE =>
      if TopNum(s) && 0 <= s.top.n < |tx.inputs| then Some(Push(Num(tx.inputs[s.top.n].value), s.under)) else None
    case OUTPUTVALUE =>
      if TopNum(s) && 0 <= s.top.n < |tx.outputs| then Some(Push(Num(tx.outputs[s.top.n].value), s.under)) else None
    case INPUTSCRIPT =>
      if TopNum(s) && 0 <= s.top.n < |tx.inputs| then Some(ScriptItems(tx.inputs[s.top.n].script, s.under)) else None
    case OUTPUTSCRIPT =>
      if TopNum(s) && 0 <= s.top.n < |tx.outputs| then Some(ScriptItems(tx.outputs[s.top.n].script, s.under)) else None
    case INPUTPACKET =>
      if TwoNums(s) && 0 <= s.top.n < |tx.inputs|
      then Some(PacketItems(tx.inputs[s.top.n].packets, s.under.top.n, s.under.under)) else None
    case PACKET => if TopNum(s) then Some(PacketItems(tx.packets, s.top.n, s.under)) else None
  }

  function Proceed(s: Option<Stack>, alt: Stack, br: Branches): (r: Vm) {
    if s.None? then Failed else Running(s.value, alt, br)
  }

  /** One opcode in an executing branch. */
  function Exec(op: Op, tx: Spend, s: Stack, alt: Stack, br: Branches): (r: Vm) {
    if op.NUM? then Running(Push(Num(op.value), s), alt, br)
    else if op.DATA? then Running(Push(Data(op.literal), s), alt, br)
    else if IsShuffle(op) then Proceed(ExecShuffle(op, s), alt, br)
    else if IsString(op) then Proceed(ExecString(op, s), alt, br)
    else if IsCheck(op) then Proceed(ExecCheck(op, tx, s), alt, br)
    else if IsInspection(op) then Proceed(ExecInspection(op, tx, s), alt, br)
    else if IsBinary(op) then
      if TwoNums(s) then Running(Push(Binary(op, s.under.top.n, s.top.n), s.under.under), alt, br) else Failed
    else if IsDivision(op) then
      if TwoNums(s) && Divide(op, s.under.top.n, s.top.n).Some?
      then Running(Push(Num(Divide(op, s.under.top.n, s.top.n).value), s.under.under), alt, br) else Failed
    else ExecControl(op, s, alt, br)
  }

  function ExecControl(op: Op, s: Stack, alt: Stack, br: Branches): (r: Vm) {
    match op
    case PICK =>
      if TopNum(s) && 0 <= s.top.n && Drop(s.top.n, s.under).Push?
      then Running(Push(Drop(s.top.n, s.under).top, s.under), alt, br) else Failed
    case ROLL =>
      if TopNum(s) && 0 <= s.top.n && Drop(s.top.n, s.under).Push?
      then Running(Push(Drop(s.top.n, s.under).top, Remove(s.top.n, s.under)), alt, br) else Failed
    case DEPTH => Running(Push(Num(Depth(s)), s), alt, br)
    case TOALT => if s.Push? then Running(s.under, Push(s.top, alt), br) else Failed
    case FROMALT => if alt.Push? then Running(Push(alt.top, s), alt.under, br) else Failed
    case IF =>
      if s.Push? then Running(s.under, alt, Nested(if Truth(s.top) then Taken else NotTaken, br)) else Failed
    case ELSE => Alternate(s, alt, br)
    case ENDIF => if br.Nested? then Running(s, alt, br.outer) else Failed
    case _ => Failed
  }

  function Alternate(s: Stack, alt: Stack, br: Branches): (r: Vm) {
    if br.NoBranch? then Failed
    else match br.inner
      case Taken => Running(s, alt, Nested(NotTaken, br.outer))
      case NotTaken => Running(s, alt, Nested(Taken, br.outer))
      case Skipped => Running(s, alt, br)
  }

  /** In a branch not taken only the branch opcodes have an effect. */
  function Step(op: Op, tx: Spend, vm: Vm): (r: Vm) {
    if vm.Failed? then Failed
    else if Executing(vm.branches) then Exec(op, tx, vm.stack, vm.alt, vm.branches)
    else match op
      case IF => Running(vm.stack, vm.alt, Nested(Skipped, vm.branches))
      case ELSE => Alternate(vm.stack, vm.alt, vm.branches)
      case ENDIF => Running(vm.stack, vm.alt, vm.branches.outer)
      case _ => vm
  }

  /** The machine after the first `n` opcodes. */
  function After(n: nat, code: Code, tx: Spend, vm: Vm): (r: Vm)
    requires n <= |code|
    decreases n
  {
    if n == 0 then vm else Step(code[n - 1], tx, After(n - 1, code, tx, vm))
  }

  function Run(code: Code, tx: Spend, vm: Vm): (r: Vm) { After(|code|, code, tx, vm) }

  /** A witness as the initial stack: its last element is on top. */
  function Witness(proofs: seq<bytes>): (s: Stack) {
    if proofs == [] then Bottom else Push(Data(proofs[|proofs| - 1]), Witness(proofs[..|proofs| - 1]))
  }

  /** The program runs to its end, closes every branch and leaves a single true element. */
  predicate Accepts(code: Code, tx: Spend, proofs: seq<bytes>) {
    var end := Run(code, tx, Running(Witness(proofs), Bottom, NoBranch));
    end.Running? && end.branches.NoBranch? && end.stack.Push? && Truth(end.stack.top) && end.stack.under.Bottom?
  }

  // ---------- Running a program piece by piece ----------

  lemma {:induction false} AfterPrefix(n: nat, a: Code, b: Code, tx: Spend, vm: Vm)
    requires n <= |a|
    ensures After(n, a + b, tx, vm) == After(n, a, tx, vm)
  {
    if n > 0 {
      AfterPrefix(n - 1, a, b, tx, vm);
    }
  }

  lemma {:induction false} AfterSuffix(n: nat, a: Code, b: Code, tx: Spend, vm: Vm)
    requires n <= |b|
    ensures After(|a| + n, a + b, tx, vm) == After(n, b, tx, Run(a, tx, vm))
  {
    if n == 0 {
      AfterPrefix(|a|, a, b, tx, vm);
    } else {
      AfterSuffix(n - 1, a, b, tx, vm);
    }
  }

  /** Running two pieces in a row is running their concatenation. */
  lemma RunConcat(a: Code, b: Code, tx: Spend, vm: Vm)
    ensures Run(a + b, tx, vm) == Run(b, tx, Run(a, tx, vm))
  {
    AfterSuffix(|b|, a, b, tx, vm);
  }

  lemma {:induction false} FailedStays(n: nat, code: Code, tx: Spend)
    requires n <= |code|
    ensures After(n, code, tx, Failed) == Failed
  {
    if n > 0 {
      FailedStays(n - 1, code, tx);
    }
  }

  /** Branch opcodes aside, a branch not taken changes nothing. */
  lemma {:induction false} NotTakenSkips(n: nat, code: Code, tx: Spend, vm: Vm)
    requires n <= |code| && vm.Running? && !Executing(vm.branches)
    requires forall i | 0 <= i < n :: !code[i].IF? && !code[i].ELSE? && !code[i].ENDIF?
    ensures After(n, code, tx, vm) == vm
  {
    if n > 0 {
      NotTakenSkips(n - 1, code, tx, vm);
    }
  }
}
