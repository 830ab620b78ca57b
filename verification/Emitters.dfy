/** The emitters: each assembles its program line by line on a mutable builder. */
module Emitters {
  import opened Bytes
  import opened Hand
  import opened Machine
  import opened Pieces
  import opened Preservation
  import opened Betting
  import opened Options

  /** Opcodes appended so far. The ghost fields hold the fragments still to come and the whole program. */
  class ProgramBuilder {
    var code: Code
    ghost var pending: Pieces
    ghost const whole: Code

    ghost predicate Valid()
      reads this
    {
      code + Flat(pending) == whole
    }

    constructor (ghost plan: Pieces)
      ensures Valid() && code == [] && pending == plan && whole == Flat(plan)
    {
      code, pending, whole := [], plan, Flat(plan);
    }

    /** Appends one line of opcodes: the next fragment of the program. */
    method Add(line: Code)
      requires Valid() && pending.Then? && pending.piece == line
      modifies this
      ensures Valid() && code == old(code) + line && pending == old(pending).rest
    {
      assert (code + line) + Flat(pending.rest) == code + (line + Flat(pending.rest));
      code := code + line;
      pending := pending.rest;
    }

    method AddUnsignedField(depth: nat, offset: nat, width: nat)
      requires Valid() && pending.Then? && pending.piece == UnsignedField(depth, offset, width)
      modifies this
      ensures Valid() && pending == old(pending).rest
    {
      if depth == 0 {
        Add([DUP] + TakeField(offset, width));
      } else {
        Add([NUM(depth), PICK] + TakeField(offset, width));
      }
    }

    /** Appends a program emitted elsewhere. */
    method Include(other: Code, ghost rest: Pieces)
      requires Valid() && Flat(pending) == other + Flat(rest)
      modifies this
      ensures Valid() && pending == rest
    {
      assert (code + other) + Flat(rest) == code + (other + Flat(rest));
      code := code + other;
      pending := rest;
    }
  }

  /** The builder's error for amounts no contract could carry. */
  method ValidateAmounts(p: Params) returns (ok: bool)
    ensures ok == ValidAmounts(p)
  {
    var fields := [p.stake, p.bond, p.minBet, p.maxWager];
    for i := 0 to 4
      invariant forall k | 0 <= k < i :: 0 < fields[k] <= MAX_MONEY
    {
      if fields[i] <= 0 || fields[i] > MAX_MONEY {
        return false;
      }
    }
    assert fields[0] == p.stake && fields[1] == p.bond && fields[2] == p.minBet && fields[3] == p.maxWager;
    if p.minBet > p.maxWager {
      return false;
    }
    var total := AddAmount(p.stake, p.bond);
    if total.None? {
      return false;
    }
    total := AddAmount(total.value, p.maxWager);
    if total.None? {
      return false;
    }
    total := AddAmount(total.value, total.value);
    return total.Some?;
  }

  // ---------- Preserving and proving shares ----------

  /** The offsets of the batch's slots in one packet. */
  method OffsetsIn(packet: nat, changed: seq<nat>) returns (offsets: seq<nat>)
    requires forall i | 0 <= i < |changed| :: changed[i] < SLOTS
    ensures offsets == Offsets(packet, changed)
  {
    offsets := [];
    for i := 0 to |changed|
      invariant offsets == Offsets(packet, changed[..i])
    {
      assert changed[..i + 1][..i] == changed[..i] && changed[..i + 1][i] == changed[i];
      if Packet(changed[i]) == packet {
        offsets := offsets + [Offset(changed[i])];
      }
    }
    assert changed[..|changed|] == changed;
  }

  method IsContiguous(offsets: seq<nat>) returns (ok: bool)
    ensures ok == Contiguous(offsets)
  {
    var i := 1;
    while i < |offsets|
      invariant forall k | 0 < k < i && k < |offsets| :: offsets[k] == offsets[k - 1] + SHARE
    {
      if offsets[i] != offsets[i - 1] + SHARE {
        return false;
      }
      i := i + 1;
    }
    return true;
  }

  /** One packet: unchanged altogether, or unchanged before and after the batch. */
  method EmitPacket(packet: nat, offsets: seq<nat>) returns (code: Code)
    requires 1 <= packet <= 3 && Fits(packet, offsets)
    ensures code == Flat(PacketPieces(packet, offsets, Done))
  {
    var n := PacketLength(packet);
    code := OpenSource(TYPE_STATE + packet, n) + OpenNext(TYPE_STATE + packet, n);
    if offsets == [] {
      code := code + [EQUALVERIFY];
    } else {
      var start, end := offsets[0], offsets[|offsets| - 1] + SHARE;
      code := code + (SameRange(0, start) + SameRange(end, n - end) + [DROP2]);
    }
    PacketFlat(packet, offsets, code);
  }

  /** Refuses unknown slots and batches with a gap; otherwise emits the frame check of each packet. */
  method EmitRevealPreservation(changed: seq<nat>) returns (code: Option<Code>)
    ensures code.Some? <==> Batch(changed)
    ensures code.Some? ==> code.value == Flat(PreservationPieces(changed, Done))
  {
    hide Offsets, Packet, PacketPieces, PreservationPieces;
    for i := 0 to |changed|
      invariant forall k | 0 <= k < i :: changed[k] < SLOTS
    {
      if changed[i] >= SLOTS {
        return None;
      }
    }
    var out: Code := [];
    for k := 1 to 4
      invariant forall j | 1 <= j < k :: Contiguous(Offsets(j, changed))
      invariant out == FlatBelow(k, changed)
    {
      var offsets := OffsetsIn(k, changed);
      OffsetsInPacket(k, changed);
      var contiguous := IsContiguous(offsets);
      if !contiguous {
        return None;
      }
      if offsets != [] {
        StartBeforeEnd(offsets);
      }
      var body := EmitPacket(k, offsets);
      out := out + body;
    }
    PreservationFlat(changed);
    return Some(out);
  }

  /** The frame checks of the packets before `k`, as one program. */
  ghost function FlatBelow(k: nat, changed: seq<nat>): (c: Code)
    requires 1 <= k <= 4 && forall i | 0 <= i < |changed| :: changed[i] < SLOTS
    requires forall j | 1 <= j < k :: Contiguous(Offsets(j, changed))
  {
    if k == 1 then []
    else
      assert Contiguous(Offsets(k - 1, changed));
      OffsetsInPacket(k - 1, changed);
      FlatBelow(k - 1, changed) + Flat(PacketPieces(k - 1, Offsets(k - 1, changed), Done))
  }

  lemma PacketFlat(packet: nat, offsets: seq<nat>, body: Code)
    requires 1 <= packet <= 3 && Fits(packet, offsets)
    requires body == OpenSource(TYPE_STATE + packet, PacketLength(packet))
      + OpenNext(TYPE_STATE + packet, PacketLength(packet))
      + (if offsets == [] then [EQUALVERIFY]
         else SameRange(0, BatchStart(offsets)) + SameRange(BatchEnd(offsets), PacketLength(packet) - BatchEnd(offsets))
              + [DROP2])
    ensures Flat(PacketPieces(packet, offsets, Done)) == body
  {
    hide OpenSource, OpenNext, SameRange;
    var q := PacketPieces(packet, offsets, Done);
    var q2 := q.rest.rest;
    if offsets == [] {
      assert Flat(q2) == [EQUALVERIFY] + Flat(Done) == [EQUALVERIFY];
    } else {
      assert Flat(q2.rest.rest) == [DROP2] + Flat(Done) == [DROP2];
      assert Flat(q2) == q2.piece + (q2.rest.piece + [DROP2]);
    }
    assert Flat(q) == q.piece + (q.rest.piece + Flat(q2));
  }

  lemma {:induction false} PacketThen(packet: nat, offsets: seq<nat>, rest: Pieces)
    requires 1 <= packet <= 3 && Fits(packet, offsets)
    ensures Flat(PacketPieces(packet, offsets, rest)) == Flat(PacketPieces(packet, offsets, Done)) + Flat(rest)
  {
    hide OpenSource, OpenNext, SameRange;
    var q, d := PacketPieces(packet, offsets, rest), PacketPieces(packet, offsets, Done);
    var q2, d2 := q.rest.rest, d.rest.rest;
    assert Flat(q) == q.piece + (q.rest.piece + Flat(q2));
    assert Flat(d) == d.piece + (d.rest.piece + Flat(d2));
    if offsets == [] {
      assert Flat(q2) == [EQUALVERIFY] + Flat(rest);
      assert Flat(d2) == [EQUALVERIFY] + Flat(Done);
    } else {
      assert Flat(q2.rest.rest) == [DROP2] + Flat(rest) && Flat(d2.rest.rest) == [DROP2] + Flat(Done);
      assert Flat(q2.rest) == q2.rest.piece + Flat(q2.rest.rest) && Flat(d2.rest) == d2.rest.piece + Flat(d2.rest.rest);
      assert Flat(q2) == q2.piece + Flat(q2.rest) && Flat(d2) == d2.piece + Flat(d2.rest);
    }
  }

  lemma PreservationFlat(changed: seq<nat>)
    requires Batch(changed)
    ensures FlatBelow(4, changed) == Flat(PreservationPieces(changed, Done))
  {
    hide Flat, PacketPieces, Offsets;
    var o1, o2, o3 := Offsets(1, changed), Offsets(2, changed), Offsets(3, changed);
    forall k | 1 <= k <= 3 ensures Fits(k, Offsets(k, changed)) {
      OffsetsInPacket(k, changed);
      assert Contiguous(Offsets(k, changed));
      if Offsets(k, changed) != [] {
        StartBeforeEnd(Offsets(k, changed));
      }
    }
    PacketThen(2, o2, PacketPieces(3, o3, Done));
    PacketThen(1, o1, PacketPieces(2, o2, PacketPieces(3, o3, Done)));
    var f1, f2, f3 := Flat(PacketPieces(1, o1, Done)), Flat(PacketPieces(2, o2, Done)), Flat(PacketPieces(3, o3, Done));
    assert FlatBelow(1, changed) == [];
    assert FlatBelow(2, changed) == f1;
    assert FlatBelow(3, changed) == f1 + f2;
    assert FlatBelow(4, changed) == f1 + f2 + f3 == f1 + (f2 + f3);
  }

  lemma PreservationThen(changed: seq<nat>, rest: Pieces)
    requires Batch(changed)
    ensures Flat(PreservationPieces(changed, rest)) == Flat(PreservationPieces(changed, Done)) + Flat(rest)
  {
    hide Flat, PacketPieces, Offsets;
    var o1, o2, o3 := Offsets(1, changed), Offsets(2, changed), Offsets(3, changed);
    forall k | 1 <= k <= 3 ensures Fits(k, Offsets(k, changed)) {
      OffsetsInPacket(k, changed);
      assert Contiguous(Offsets(k, changed));
      if Offsets(k, changed) != [] {
        StartBeforeEnd(Offsets(k, changed));
      }
    }
    PacketThen(3, o3, rest);
    PacketThen(2, o2, PacketPieces(3, o3, rest));
    PacketThen(1, o1, PacketPieces(2, o2, PacketPieces(3, o3, rest)));
    PacketThen(2, o2, PacketPieces(3, o3, Done));
    PacketThen(1, o1, PacketPieces(2, o2, PacketPieces(3, o3, Done)));
  }

  /** Includes the frame check of a batch the emitter accepts. */
  method AddPreservation(b: ProgramBuilder, slots: seq<nat>, ghost rest: Pieces)
    requires b.Valid() && Batch(slots) && b.pending == PreservationPieces(slots, rest)
    modifies b
    ensures b.Valid() && b.pending == rest
  {
    hide Flat, PreservationPieces, Batch;
    var code := EmitRevealPreservation(slots);
    PreservationThen(slots, rest);
    b.Include(code.value, rest);
  }

  /** One proof check for each published slot. */
  method AddProofs(b: ProgramBuilder, actor: Player, slots: seq<nat>, ghost rest: Pieces)
    requires b.Valid() && (forall i | 0 <= i < |slots| :: slots[i] < SLOTS)
      && b.pending == ProofPieces(actor, slots, rest)
    modifies b
    ensures b.Valid() && b.pending == rest
  {
    hide SlotCard;
    for i := 0 to |slots|
      invariant b.Valid() && b.pending == ProofPieces(actor, slots[i..], rest)
    {
      assert slots[i..][0] == slots[i] && slots[i..][1..] == slots[i + 1..];
      b.Add([REVEALPROOF(actor, slots[i], SlotCard(slots[i]))]);
    }
  }

  method AddRemainingShares(b: ProgramBuilder, actor: Player, slots: seq<nat>)
    requires b.Valid() && Batch(slots) && b.pending == PublishPieces(actor, slots)
    modifies b
    ensures b.Valid() && b.pending == Done
  {
    hide PreservationPieces, ProofPieces;
    AddPreservation(b, slots, ProofPieces(actor, slots, Then([NUM(1)], Done)));
    AddProofs(b, actor, slots, Then([NUM(1)], Done));
    b.Add([NUM(1)]);
  }

  // ---------- Betting ----------

  method AddReadSource(b: ProgramBuilder, prefix: bytes, street: Street, actor: Player, ghost rest: Pieces)
    requires b.Valid() && b.pending == ReadSource(prefix, street, actor, rest)
    modifies b
    ensures b.Valid() && b.pending == rest
  {
    hide Flat, UnsignedField;
    b.Add([CURRENTINPUT, NUM(0), NUMEQUALVERIFY]);
    b.Add([DEPTH, NUM(0), NUMEQUALVERIFY]);
    b.Add(OpenSource(TYPE_STATE, HEADER));
    b.Add(RangeIs(0, OFF_PHASE, prefix));
    b.Add(RangeIs(OFF_PHASE, 1, [SourceByte(street, actor)]));
    b.AddUnsignedField(0, OFF_DEADLINE, 8);
    b.Add([TOALT]);
    b.AddUnsignedField(0, WagerOffset(actor), 8);
    b.AddUnsignedField(1, WagerOffset(Other(actor)), 8);
    b.AddUnsignedField(2, OFF_ACTION, 1);
    b.Add([NUM(3), ROLL, DROP]);
  }

  method AddReadNext(b: ProgramBuilder, prefix: bytes, actor: Player, ghost rest: Pieces)
    requires b.Valid() && b.pending == ReadNext(prefix, actor, rest)
    modifies b
    ensures b.Valid() && b.pending == rest
  {
    hide Flat, UnsignedField;
    b.Add(OpenNext(TYPE_STATE, HEADER));
    b.Add(RangeIs(0, OFF_PHASE, prefix));
    b.AddUnsignedField(0, WagerOffset(Other(actor)), 8);
    b.Add([NUM(3), PICK, NUMEQUALVERIFY]);
    b.AddUnsignedField(0, OFF_DEADLINE, 8);
    b.Add([FROMALT, NUM(DEADLINE_INTERVAL), ADD, NUMEQUALVERIFY]);
    b.Add(TakeField(WagerOffset(actor), 8));
    b.Add([SWAP]);
  }

  method AddHistory(b: ProgramBuilder, p: Params, least: nat, ghost rest: Pieces)
    requires b.Valid() && b.pending == CheckHistory(p, least, rest)
    modifies b
    ensures b.Valid() && b.pending == rest
  {
    hide Flat;
    b.Add([DUP, NUM(least), GREATERTHANOREQUAL, VERIFY]);
    b.Add([DUP, NUM(2), LESSTHANOREQUAL, VERIFY]);
    b.Add([NUM(3), PICK, NUM(p.maxWager), LESSTHAN, VERIFY]);
    b.Add([NUM(2), PICK, NUM(p.maxWager), LESSTHAN, VERIFY]);
    b.Add([DUP, NUM(2), NUMEQUAL, IF]);
    b.Add([NUM(2), PICK, NUM(4), PICK, SUB, NUM(p.minBet), GREATERTHANOREQUAL, VERIFY]);
    b.Add([ELSE, NUM(3), PICK, NUM(3), PICK, NUMEQUALVERIFY, ENDIF]);
  }

  method AddValues(b: ProgramBuilder, p: Params, ghost rest: Pieces)
    requires b.Valid() && b.pending == CheckValues(p, rest)
    modifies b
    ensures b.Valid() && b.pending == rest
  {
    hide Flat;
    b.Add([NUM(1), PICK, NUM(4), PICK, GREATERTHANOREQUAL, VERIFY]);
    b.Add([NUM(1), PICK, NUM(p.maxWager), LESSTHANOREQUAL, VERIFY]);
    b.Add([NUM(1), PICK, NUM(4), PICK, GREATERTHAN]);
    b.Add([NUMINPUTS, NUM(1), GREATERTHAN, NUMEQUALVERIFY]);
    b.Add([NUM(3), PICK, NUM(3), PICK, ADD, NUM(Pot(p)), ADD]);
    b.Add([NUM(0), INPUTVALUE, NUMEQUALVERIFY]);
    b.Add([NUM(1), PICK, NUM(3), PICK, ADD, NUM(Pot(p)), ADD]);
    b.Add([NUM(0), OUTPUTVALUE, NUMEQUALVERIFY]);
    b.Add([NUM(0), INPUTSCRIPT, NUM(0), OUTPUTSCRIPT, ROT, EQUALVERIFY, EQUALVERIFY]);
  }

  method AddOutcome(b: ProgramBuilder, p: Params, betting: byte, closing: byte, ghost rest: Pieces)
    requires b.Valid() && b.pending == ChooseOutcome(p, betting, closing, rest)
    modifies b
    ensures b.Valid() && b.pending == rest
  {
    hide Flat;
    b.Add([NUM(1), PICK, NUM(3), PICK, NUMEQUAL, IF]);
    b.Add([DUP, NUM(0), NUMEQUAL, IF, NUM(betting), NUM(1), ELSE, NUM(closing), NUM(0), ENDIF]);
    b.Add([ELSE, NUM(1), PICK, NUM(3), PICK, GREATERTHAN, VERIFY]);
    b.Add([DUP, NUM(2), NUMEQUAL, IF, NUM(2), PICK, NUM(4), PICK, SUB]);
    b.Add([ELSE, NUM(p.minBet), ENDIF]);
    b.Add([NUM(2), PICK, NUM(4), PICK, SUB, SWAP, GREATERTHANOREQUAL]);
    b.Add([NUM(2), PICK, NUM(p.maxWager), NUMEQUAL, BOOLOR, VERIFY]);
    b.Add([NUM(1), PICK, NUM(p.maxWager), NUMEQUAL, IF, NUM(betting + 26), ELSE, NUM(betting), ENDIF]);
    b.Add([NUM(2), ENDIF]);
  }

  method AddOutcomeCheck(b: ProgramBuilder, ghost rest: Pieces)
    requires b.Valid() && b.pending == CheckOutcome(rest)
    modifies b
    ensures b.Valid() && b.pending == rest
  {
    hide Flat;
    b.Add([NUM(TYPE_STATE), PACKET, VERIFY]);
    b.Add(TakeField(OFF_ACTION, 1));
    b.Add([NUMEQUALVERIFY]);
    b.Add([NUM(TYPE_STATE), PACKET, VERIFY]);
    b.Add(TakeField(OFF_PHASE, 1));
    b.Add([NUMEQUALVERIFY]);
    b.Add([DROP2, DROP2]);
  }

  method EmitBetting(p: Params, street: Street, actor: Player) returns (code: Option<Code>)
    requires |p.id| == 32
    ensures code == if ValidAmounts(p) then Some(BettingCode(p, street, actor)) else None
  {
    hide Flat, ReadSource, ReadNext, CheckHistory, CheckValues, ChooseOutcome, CheckOutcome, PreservationPieces,
      HeaderPrefix;
    var ok := ValidateAmounts(p);
    if !ok {
      return None;
    }
    NothingChanged();
    var player := Index(actor);
    var betting, closing := 2 + 2 * StreetIndex(street), 0x0a + 4 * StreetIndex(street);
    var nextBetting: byte, nextClosing: byte := betting + 1 - player, closing + 1 - player;
    var least := 0;
    if street == PreFlop {
      least := 1 + player;
    }
    var prefix := HeaderPrefix(p.id);
    ghost var q6 := Then([NUM(1)], Done);
    ghost var q5 := PreservationPieces([], q6);
    ghost var q4 := CheckOutcome(q5);
    ghost var q3 := ChooseOutcome(p, nextBetting, nextClosing, q4);
    ghost var q2 := CheckValues(p, q3);
    ghost var q1 := CheckHistory(p, least, q2);
    var b := new ProgramBuilder(BettingPieces(p, street, actor));
    AddReadSource(b, prefix, street, actor, ReadNext(prefix, actor, q1));
    AddReadNext(b, prefix, actor, q1);
    AddHistory(b, p, least, q2);
    AddValues(b, p, q3);
    AddOutcome(b, p, nextBetting, nextClosing, q4);
    AddOutcomeCheck(b, q5);
    AddPreservation(b, [], q6);
    b.Add([NUM(1)]);
    FlatDone(b.code);
    return Some(b.code);
  }

  lemma FlatDone(code: Code)
    ensures code + Flat(Done) == code
  {
  }
}
