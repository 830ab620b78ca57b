/** The code that keeps every share outside a batch of slots, and the frame property it enforces. */
module Preservation {
  import opened Bytes
  import opened Hand
  import opened Codec
  import opened Machine
  import opened Laws
  import opened Pieces

  /** The offsets of the changed slots that live in a packet, in batch order. */
  function Offsets(packet: nat, changed: seq<nat>): (offsets: seq<nat>)
    requires forall i | 0 <= i < |changed| :: changed[i] < SLOTS
  {
    if changed == [] then []
    else
      var n := |changed| - 1;
      var before := Offsets(packet, changed[..n]);
      if Packet(changed[n]) == packet then before + [Offset(changed[n])] else before
  }

  predicate Contiguous(offsets: seq<nat>) { forall i | 0 < i < |offsets| :: offsets[i] == offsets[i - 1] + SHARE }

  /** The batches the emitter accepts: known slots, contiguous within each packet. */
  predicate Batch(changed: seq<nat>) {
    && (forall i | 0 <= i < |changed| :: changed[i] < SLOTS)
    && (forall k | 1 <= k <= 3 :: Contiguous(Offsets(k, changed)))
  }

  /** Compares a range of the two byte strings on top. */
  function SameRange(offset: nat, width: nat): (c: Code) {
    if width == 0 then []
    else [OVER, NUM(offset), NUM(width), SUBSTR, OVER, NUM(offset), NUM(width), SUBSTR, EQUALVERIFY]
  }

  function BatchStart(offsets: seq<nat>): (start: nat)
    requires offsets != []
  {
    offsets[0]
  }

  function BatchEnd(offsets: seq<nat>): (end: nat)
    requires offsets != []
  {
    offsets[|offsets| - 1] + SHARE
  }

  function PacketPieces(packet: nat, offsets: seq<nat>, rest: Pieces): (p: Pieces)
    requires 1 <= packet <= 3 && (offsets != [] ==> BatchEnd(offsets) <= PacketLength(packet))
  {
    var n := PacketLength(packet);
    Then(OpenSource(TYPE_STATE + packet, n), Then(OpenNext(TYPE_STATE + packet, n),
      if offsets == [] then Then([EQUALVERIFY], rest)
      else Then(SameRange(0, BatchStart(offsets)),
                Then(SameRange(BatchEnd(offsets), n - BatchEnd(offsets)), Then([DROP2], rest)))))
  }

  function PreservationPieces(changed: seq<nat>, rest: Pieces): (p: Pieces)
    requires Batch(changed)
  {
    OffsetsInPacket(1, changed);
    OffsetsInPacket(2, changed);
    OffsetsInPacket(3, changed);
    PacketPieces(1, Offsets(1, changed),
                 PacketPieces(2, Offsets(2, changed), PacketPieces(3, Offsets(3, changed), rest)))
  }

  // ---------- Offsets ----------

  lemma {:induction false} OffsetsInPacket(packet: nat, changed: seq<nat>)
    requires 1 <= packet <= 3 && forall i | 0 <= i < |changed| :: changed[i] < SLOTS
    ensures forall i | 0 <= i < |Offsets(packet, changed)| ::
      Offsets(packet, changed)[i] + SHARE <= PacketLength(packet)
    ensures forall i | 0 <= i < |Offsets(packet, changed)| :: Offsets(packet, changed)[i] % SHARE == 0
  {
    if changed != [] {
      OffsetsInPacket(packet, changed[..|changed| - 1]);
    }
  }

  /** An offset is listed exactly when the batch holds the slot at that place. */
  lemma {:induction false} ListedOffsets(slot: nat, changed: seq<nat>)
    requires slot < SLOTS && forall i | 0 <= i < |changed| :: changed[i] < SLOTS
    ensures Offset(slot) in Offsets(Packet(slot), changed) <==> slot in changed
  {
    if changed != [] {
      var n := |changed| - 1;
      ListedOffsets(slot, changed[..n]);
      assert changed == changed[..n] + [changed[n]];
      if Packet(changed[n]) == Packet(slot) && Offset(changed[n]) == Offset(slot) {
        SlotPlace(slot);
        SlotPlace(changed[n]);
      }
    }
  }

  lemma {:induction false} ContiguousAt(offsets: seq<nat>, i: nat)
    requires Contiguous(offsets) && i < |offsets|
    ensures offsets[i] == offsets[0] + SHARE * i
  {
    if i > 0 {
      ContiguousAt(offsets, i - 1);
    }
  }

  /** A multiple of 64 is listed exactly when it lies between the start and the end of the batch. */
  lemma ListedIsBetween(offsets: seq<nat>, o: nat)
    requires Contiguous(offsets) && offsets != [] && o % SHARE == 0 && offsets[0] % SHARE == 0
    ensures o in offsets <==> BatchStart(offsets) <= o < BatchEnd(offsets)
  {
    ContiguousAt(offsets, |offsets| - 1);
    if o in offsets {
      var i :| 0 <= i < |offsets| && offsets[i] == o;
      ContiguousAt(offsets, i);
    }
    if BatchStart(offsets) <= o < BatchEnd(offsets) {
      var i := (o - offsets[0]) / SHARE;
      assert o == offsets[0] + SHARE * i;
      ContiguousAt(offsets, i);
    }
  }

  // ---------- What the code enforces ----------

  predicate Fits(packet: nat, offsets: seq<nat>)
    requires packet <= 3
  {
    offsets != [] ==> BatchStart(offsets) <= BatchEnd(offsets) <= PacketLength(packet)
  }

  predicate BytesKept(packet: nat, offsets: seq<nat>, before: Packets, after: Packets)
    requires 1 <= packet <= 3 && Fits(packet, offsets)
  {
    && HasPacket(before, packet) && HasPacket(after, packet)
    && var b, a := before[TYPE_STATE + packet], after[TYPE_STATE + packet];
       if offsets == [] then b == a
       else b[..BatchStart(offsets)] == a[..BatchStart(offsets)] && b[BatchEnd(offsets)..] == a[BatchEnd(offsets)..]
  }

  lemma SameRangeRuns(offset: nat, width: nat, b: bytes, a: bytes, tx: Spend, s: Stack, alt: Stack, br: Branches)
    requires Executing(br) && offset + width <= |b| && |b| == |a|
    ensures Run(SameRange(offset, width), tx, Running(Push(Data(a), Push(Data(b), s)), alt, br))
      == if b[offset..offset + width] == a[offset..offset + width]
         then Running(Push(Data(a), Push(Data(b), s)), alt, br) else Failed
  {
    if width == 0 {
      assert SameRange(offset, width) == [];
    } else {
      hide Run, Step, Exec;
      PushLaws(tx);
      StackLaws(tx);
      StringLaws(tx);
      CheckLaws(tx);
      Run9(OVER, NUM(offset), NUM(width), SUBSTR, OVER, NUM(offset), NUM(width), SUBSTR, EQUALVERIFY, tx,
           Running(Push(Data(a), Push(Data(b), s)), alt, br));
    }
  }

  lemma PacketRuns(packet: nat, offsets: seq<nat>, rest: Pieces, tx: Spend, s: Stack, alt: Stack, br: Branches)
    requires Executing(br)
    requires 1 <= packet <= 3 && Fits(packet, offsets)
    ensures Go(PacketPieces(packet, offsets, rest), tx, Running(s, alt, br))
      == if BytesKept(packet, offsets, SourcePackets(tx), tx.packets) then Go(rest, tx, Running(s, alt, br)) else Failed
  {
    hide Run, Step, Exec, Go, OpenSource, OpenNext, SameRange;
    var n, kind, v0 := PacketLength(packet), TYPE_STATE + packet, Running(s, alt, br);
    var p0 := PacketPieces(packet, offsets, rest);
    OpenSourceGoes(p0, kind, n, tx, s, alt, br);
    if HasPacket(SourcePackets(tx), packet) {
      var b := SourcePackets(tx)[kind];
      var s1 := Push(Data(b), s);
      OpenNextGoes(p0.rest, kind, n, tx, s1, alt, br);
      if HasPacket(tx.packets, packet) {
        ComparedRuns(packet, offsets, rest, b, tx.packets[kind], tx, s, alt, br);
      }
    }
  }

  lemma ComparedRuns(packet: nat, offsets: seq<nat>, rest: Pieces, b: bytes, a: bytes, tx: Spend, s: Stack, alt: Stack,
                     br: Branches)
    requires Executing(br)
    requires 1 <= packet <= 3 && Fits(packet, offsets)
    requires |b| == |a| == PacketLength(packet)
    ensures Go(PacketPieces(packet, offsets, rest).rest.rest, tx, Running(Push(Data(a), Push(Data(b), s)), alt, br))
      == if (if offsets == [] then b == a
             else b[..BatchStart(offsets)] == a[..BatchStart(offsets)]
                  && b[BatchEnd(offsets)..] == a[BatchEnd(offsets)..])
         then Go(rest, tx, Running(s, alt, br)) else Failed
  {
    hide Run, Step, Exec, Go, OpenSource, OpenNext, SameRange;
    var n, v := PacketLength(packet), Running(Push(Data(a), Push(Data(b), s)), alt, br);
    var p := PacketPieces(packet, offsets, rest).rest.rest;
    Next(p.piece, p.rest, tx, v);
    PushLaws(tx);
    StackLaws(tx);
    CheckLaws(tx);
    if offsets == [] {
      Run1(EQUALVERIFY, tx, v);
    } else {
      var start, end := BatchStart(offsets), BatchEnd(offsets);
      SameRangeRuns(0, start, b, a, tx, s, alt, br);
      SameRangeRuns(end, n - end, b, a, tx, s, alt, br);
      assert b[end..n] == b[end..] && a[end..n] == a[end..];
      Next(p.rest.piece, p.rest.rest, tx, v);
      Next([DROP2], rest, tx, v);
      Run1(DROP2, tx, v);
    }
  }

  /** Every byte of the three packets outside the changed slots is unchanged. */
  predicate SharesKept(changed: seq<nat>, before: Packets, after: Packets) {
    && HasShares(before) && HasShares(after)
    && forall slot: nat | slot < SLOTS && slot !in changed :: ShareAt(before, slot) == ShareAt(after, slot)
  }

  predicate SlotsKept(packet: nat, changed: seq<nat>, before: Packets, after: Packets)
    requires 1 <= packet <= 3 && HasPacket(before, packet) && HasPacket(after, packet)
  {
    forall slot: nat | slot < SLOTS && Packet(slot) == packet && slot !in changed ::
      ShareAt(before, slot) == ShareAt(after, slot)
  }

  lemma StartBeforeEnd(offsets: seq<nat>)
    requires Contiguous(offsets) && offsets != []
    ensures BatchStart(offsets) <= BatchEnd(offsets)
  {
    ContiguousAt(offsets, |offsets| - 1);
  }

  /** Keeping the bytes outside the batch's range keeps the slots outside the batch, and the other way round. */
  lemma BytesAreSlots(packet: nat, changed: seq<nat>, before: Packets, after: Packets)
    requires 1 <= packet <= 3 && Batch(changed) && HasPacket(before, packet) && HasPacket(after, packet)
    requires Fits(packet, Offsets(packet, changed))
    ensures BytesKept(packet, Offsets(packet, changed), before, after)
      <==> SlotsKept(packet, changed, before, after)
  {
    hide BytesKept, SlotsKept, Fits, HasPacket;
    if BytesKept(packet, Offsets(packet, changed), before, after) {
      SlotsOfKeptBytes(packet, changed, before, after);
    }
    if SlotsKept(packet, changed, before, after) {
      BytesOfKeptSlots(packet, changed, before, after);
    }
  }

  lemma SlotsOfKeptBytes(packet: nat, changed: seq<nat>, before: Packets, after: Packets)
    requires 1 <= packet <= 3 && Batch(changed) && HasPacket(before, packet) && HasPacket(after, packet)
    requires Fits(packet, Offsets(packet, changed))
    requires BytesKept(packet, Offsets(packet, changed), before, after)
    ensures SlotsKept(packet, changed, before, after)
  {
    hide Offset, PacketSlots;
    var offsets, b, a := Offsets(packet, changed), before[TYPE_STATE + packet], after[TYPE_STATE + packet];
    OffsetsInPacket(packet, changed);
    assert Contiguous(offsets);
    forall slot: nat | slot < SLOTS && Packet(slot) == packet && slot !in changed
      ensures ShareAt(before, slot) == ShareAt(after, slot)
    {
      KeptSlot(packet, changed, b, a, slot);
    }
  }

  lemma BytesOfKeptSlots(packet: nat, changed: seq<nat>, before: Packets, after: Packets)
    requires 1 <= packet <= 3 && Batch(changed) && HasPacket(before, packet) && HasPacket(after, packet)
    requires Fits(packet, Offsets(packet, changed))
    requires SlotsKept(packet, changed, before, after)
    ensures BytesKept(packet, Offsets(packet, changed), before, after)
  {
    hide Offset, PacketSlots;
    var offsets, b, a := Offsets(packet, changed), before[TYPE_STATE + packet], after[TYPE_STATE + packet];
    OffsetsInPacket(packet, changed);
    assert Contiguous(offsets);
    forall i | 0 <= i < |b| && !(offsets != [] && BatchStart(offsets) <= i < BatchEnd(offsets)) ensures b[i] == a[i] {
      var slot := SlotOfByte(packet, changed, i);
      assert ShareAt(before, slot) == ShareAt(after, slot);
      var o := Offset(slot);
      assert b[o..o + SHARE][i - o] == a[o..o + SHARE][i - o];
    }
    KeptOutside(offsets, b, a);
  }

  lemma KeptOutside(offsets: seq<nat>, b: bytes, a: bytes)
    requires |b| == |a| && Contiguous(offsets) && (offsets != [] ==> BatchEnd(offsets) <= |b|)
    requires forall i | 0 <= i < |b| && !(offsets != [] && BatchStart(offsets) <= i < BatchEnd(offsets)) :: b[i] == a[i]
    ensures if offsets == [] then b == a
      else BatchStart(offsets) <= BatchEnd(offsets) && b[..BatchStart(offsets)] == a[..BatchStart(offsets)]
           && b[BatchEnd(offsets)..] == a[BatchEnd(offsets)..]
  {
    if offsets != [] {
      StartBeforeEnd(offsets);
    }
  }

  lemma KeptSlot(packet: nat, changed: seq<nat>, b: bytes, a: bytes, slot: nat)
    requires 1 <= packet <= 3 && Batch(changed) && |b| == |a| == PacketLength(packet)
    requires slot < SLOTS && Packet(slot) == packet && slot !in changed
    requires var offsets := Offsets(packet, changed);
             if offsets == [] then b == a
             else BatchStart(offsets) <= BatchEnd(offsets) <= |b|
                  && b[..BatchStart(offsets)] == a[..BatchStart(offsets)]
                  && b[BatchEnd(offsets)..] == a[BatchEnd(offsets)..]
    ensures b[Offset(slot)..Offset(slot) + SHARE] == a[Offset(slot)..Offset(slot) + SHARE]
  {
    var offsets, o := Offsets(packet, changed), Offset(slot);
    OffsetsInPacket(packet, changed);
    ListedOffsets(slot, changed);
    if offsets != [] {
      assert Contiguous(offsets);
      ListedIsBetween(offsets, o);
      var start, end := BatchStart(offsets), BatchEnd(offsets);
      SameSlice(b, a, start, end, o);
    }
  }

  lemma SameSlice(b: bytes, a: bytes, start: nat, end: nat, o: nat)
    requires |b| == |a| && start <= end <= |b| && b[..start] == a[..start] && b[end..] == a[end..]
    requires o + SHARE <= |b| && (o + SHARE <= start || end <= o)
    ensures b[o..o + SHARE] == a[o..o + SHARE]
  {
    forall i | o <= i < o + SHARE
      ensures b[i] == a[i]
    {
      if o + SHARE <= start {
        assert b[..start][i] == a[..start][i];
      } else {
        assert b[end..][i - end] == a[end..][i - end];
      }
    }
  }

  /** The unchanged slot a byte outside the batch's range belongs to. */
  lemma SlotOfByte(packet: nat, changed: seq<nat>, i: nat) returns (slot: nat)
    requires 1 <= packet <= 3 && Batch(changed) && i < PacketLength(packet)
    requires var offsets := Offsets(packet, changed);
             !(offsets != [] && BatchStart(offsets) <= i < BatchEnd(offsets))
    ensures slot < SLOTS && Packet(slot) == packet && slot !in changed && Offset(slot) <= i < Offset(slot) + SHARE
  {
    var offsets := Offsets(packet, changed);
    Layout(packet, 0);
    slot := PacketSlots(packet)[i / SHARE];
    Layout(packet, i / SHARE);
    OffsetsInPacket(packet, changed);
    ListedOffsets(slot, changed);
    if offsets != [] {
      assert Contiguous(offsets);
      assert offsets[0] % SHARE == 0;
      StartBeforeEnd(offsets);
      ContiguousAt(offsets, |offsets| - 1);
      ListedIsBetween(offsets, Offset(slot));
    }
  }

  /** For every contiguous batch the emitted code succeeds exactly when all bytes outside the batch are unchanged,
      and it leaves the machine as it found it. */
  lemma PreservationRuns(changed: seq<nat>, rest: Pieces, tx: Spend, s: Stack, alt: Stack, br: Branches)
    requires Batch(changed) && Executing(br)
    ensures Go(PreservationPieces(changed, rest), tx, Running(s, alt, br))
      == if SharesKept(changed, SourcePackets(tx), tx.packets) then Go(rest, tx, Running(s, alt, br)) else Failed
  {
    hide Go, PacketPieces;
    var o1, o2, o3 := Offsets(1, changed), Offsets(2, changed), Offsets(3, changed);
    forall k | 1 <= k <= 3
      ensures Fits(k, Offsets(k, changed))
    {
      OffsetsInPacket(k, changed);
      assert Contiguous(Offsets(k, changed));
      if Offsets(k, changed) != [] {
        StartBeforeEnd(Offsets(k, changed));
      }
    }
    PacketRuns(3, o3, rest, tx, s, alt, br);
    PacketRuns(2, o2, PacketPieces(3, o3, rest), tx, s, alt, br);
    PacketRuns(1, o1, PacketPieces(2, o2, PacketPieces(3, o3, rest)), tx, s, alt, br);
    AllKept(changed, SourcePackets(tx), tx.packets);
  }

  lemma AllKept(changed: seq<nat>, before: Packets, after: Packets)
    requires Batch(changed)
    requires forall k | 1 <= k <= 3 :: Fits(k, Offsets(k, changed))
    ensures SharesKept(changed, before, after)
      <==> (&& BytesKept(1, Offsets(1, changed), before, after)
            && BytesKept(2, Offsets(2, changed), before, after)
            && BytesKept(3, Offsets(3, changed), before, after))
  {
    hide Offsets, Batch, Fits, ShareAt, BytesKept, HasPacket;
    PacketKept(1, changed, before, after);
    PacketKept(2, changed, before, after);
    PacketKept(3, changed, before, after);
    if HasShares(before) && HasShares(after) {
      assert (forall slot: nat | slot < SLOTS && slot !in changed :: ShareAt(before, slot) == ShareAt(after, slot))
        <==> SlotsKept(1, changed, before, after) && SlotsKept(2, changed, before, after)
             && SlotsKept(3, changed, before, after);
    }
  }

  lemma PacketKept(packet: nat, changed: seq<nat>, before: Packets, after: Packets)
    requires 1 <= packet <= 3 && Batch(changed) && Fits(packet, Offsets(packet, changed))
    ensures BytesKept(packet, Offsets(packet, changed), before, after)
      <==> HasPacket(before, packet) && HasPacket(after, packet) && SlotsKept(packet, changed, before, after)
  {
    if HasPacket(before, packet) && HasPacket(after, packet) {
      BytesAreSlots(packet, changed, before, after);
    }
  }

  // ---------- Preserving, then proving ----------

  /** One proof check per published slot, in publication order. */
  function ProofPieces(actor: Player, slots: seq<nat>, rest: Pieces): (p: Pieces)
    requires forall i | 0 <= i < |slots| :: slots[i] < SLOTS
  {
    if slots == [] then rest
      else Then([REVEALPROOF(actor, slots[0], SlotCard(slots[0]))], ProofPieces(actor, slots[1..], rest))
  }

  /** Every published slot's share checks against its proof: the witness holds the proofs in reverse. */
  predicate ProofsHold(actor: Player, slots: seq<nat>, tx: Spend, proofs: seq<bytes>)
    requires forall i | 0 <= i < |slots| :: slots[i] < SLOTS
  {
    && |proofs| == |slots|
    && forall i | 0 <= i < |slots| :: ProofHolds(tx, actor, slots[i], SlotCard(slots[i]), proofs[|slots| - 1 - i])
  }

  lemma {:induction false} ProofsGo(actor: Player, slots: seq<nat>, rest: Pieces, tx: Spend, proofs: seq<bytes>)
    requires (forall i | 0 <= i < |slots| :: slots[i] < SLOTS) && |proofs| == |slots|
    ensures Go(ProofPieces(actor, slots, rest), tx, Ok(Witness(proofs), Bottom))
      == if ProofsHold(actor, slots, tx, proofs) then Go(rest, tx, Ok(Bottom, Bottom)) else Failed
  {
    hide Go, Step, Exec, ProofHolds;
    if slots != [] {
      var n, tail := |proofs| - 1, proofs[..|proofs| - 1];
      var q := ProofPieces(actor, slots, rest);
      PushLaws(tx);
      CheckLaws(tx);
      Go1(q, REVEALPROOF(actor, slots[0], SlotCard(slots[0])), tx, Ok(Witness(proofs), Bottom));
      ProofsGo(actor, slots[1..], rest, tx, tail);
      assert ProofsHold(actor, slots, tx, proofs)
        <==> ProofHolds(tx, actor, slots[0], SlotCard(slots[0]), proofs[n])
             && ProofsHold(actor, slots[1..], tx, tail) by {
        if ProofHolds(tx, actor, slots[0], SlotCard(slots[0]), proofs[n]) && ProofsHold(actor, slots[1..], tx, tail) {
          forall i | 0 <= i < |slots| ensures ProofHolds(tx, actor, slots[i], SlotCard(slots[i]), proofs[n - i]) {
            if i > 0 {
              assert slots[1..][i - 1] == slots[i] && tail[n - i] == proofs[n - i];
            }
          }
        }
        if ProofsHold(actor, slots, tx, proofs) {
          forall i | 0 <= i < n ensures ProofHolds(tx, actor, slots[1..][i], SlotCard(slots[1..][i]), tail[n - 1 - i]) {
            assert slots[1..][i] == slots[i + 1] && tail[n - 1 - i] == proofs[n - (i + 1)];
          }
        }
      }
    }
  }

  /** The end of every publishing program. */
  function PublishPieces(actor: Player, slots: seq<nat>): (p: Pieces)
    requires Batch(slots)
  {
    PreservationPieces(slots, ProofPieces(actor, slots, Then([NUM(1)], Done)))
  }

  /** Shares outside the batch are kept and the batch's shares are proven. */
  predicate SharesPublished(actor: Player, slots: seq<nat>, tx: Spend, proofs: seq<bytes>)
    requires Batch(slots)
  {
    SharesKept(slots, SourcePackets(tx), tx.packets) && ProofsHold(actor, slots, tx, proofs)
  }

  lemma PublishGoes(actor: Player, slots: seq<nat>, tx: Spend, proofs: seq<bytes>)
    requires Batch(slots) && |proofs| == |slots|
    ensures Go(PublishPieces(actor, slots), tx, Ok(Witness(proofs), Bottom))
      == if SharesPublished(actor, slots, tx, proofs) then Ok(Push(Num(1), Bottom), Bottom) else Failed
  {
    hide Go, PreservationPieces, ProofPieces, SharesKept, ProofsHold, Witness;
    var end := Then([NUM(1)], Done);
    PreservationRuns(slots, ProofPieces(actor, slots, end), tx, Witness(proofs), Bottom, NoBranch);
    ProofsGo(actor, slots, end, tx, proofs);
    EndGoes(tx);
  }
}
