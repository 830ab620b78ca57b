/** The packet codec of a state: decoding is the exact inverse of encoding, over every byte string. */
module Codec {
  import opened Bytes
  import opened Hand
  import opened Options

  function ActionAt(b: byte): (a: Option<LastAction>) {
    if b == 0 then Some(Start) else if b == 1 then Some(Checked) else if b == 2 then Some(Raised) else None
  }

  /** The unsigned little-endian field of a header. */
  function Field(h: bytes, offset: nat, width: nat): (n: nat)
    requires offset + width <= |h|
  {
    LittleEndian(h[offset..offset + width])
  }

  function ShareAt(packets: Packets, slot: nat): (share: bytes)
    requires slot < SLOTS && HasPacket(packets, Packet(slot))
    ensures |share| == SHARE
  {
    packets[TYPE_STATE + Packet(slot)][Offset(slot)..Offset(slot) + SHARE]
  }

  /** Each 64-byte share slot, read from its place in the three share packets. */
  function SharesOf(packets: Packets): (shares: seq<bytes>)
    requires HasShares(packets)
    ensures |shares| == SLOTS && forall i | 0 <= i < SLOTS :: |shares[i]| == SHARE
  {
    seq(SLOTS, i requires 0 <= i < SLOTS => ShareAt(packets, i))
  }

  predicate HasPacket(packets: Packets, k: nat)
    requires k <= 3
  {
    TYPE_STATE + k in packets && |packets[TYPE_STATE + k]| == PacketLength(k)
  }

  predicate HasShares(packets: Packets) { forall k | 1 <= k <= 3 :: HasPacket(packets, k) }

  predicate OnlyKnown(packets: Packets) {
    forall k | k in packets :: TYPE_STATE <= k <= TYPE_STATE + 3 || k == TYPE_EMULATOR
  }

  function DecodeHeader(h: bytes, shares: seq<bytes>): (s: Option<State>) {
    if |h| != HEADER || h[0] != 1 || h[1] != 0 || DecodePhase(h[OFF_PHASE]).None? || ActionAt(h[OFF_ACTION]).None?
      then None
    else Some(State(h[2..OFF_PHASE], DecodePhase(h[OFF_PHASE]).value, ActionAt(h[OFF_ACTION]).value,
                    Field(h, OFF_WAGER1, 8), Field(h, OFF_WAGER2, 8), Field(h, OFF_DEADLINE, 8), shares))
  }

  function DecodeState(packets: Packets): (s: Option<State>) {
    if !OnlyKnown(packets) || TYPE_STATE !in packets || !HasShares(packets) then None
    else DecodeHeader(packets[TYPE_STATE], SharesOf(packets))
  }

  // ---------- The header ----------

  lemma FieldBound(h: bytes, offset: nat)
    requires offset + 8 <= |h|
    ensures Field(h, offset, 8) <= MAX_U64
  {
    LittleEndianBound(h[offset..offset + 8]);
    U64Width();
  }

  /** The bytes of an encoded header, piece by piece. */
  lemma HeaderPieces(s: State)
    requires |s.id| == 32 && EncodePhase(s.phase).Some?
    ensures var h := EncodeHeader(s).value;
            && |h| == HEADER
            && h[..OFF_PHASE] == HeaderPrefix(s.id)
            && h[OFF_PHASE] == EncodePhase(s.phase).value
            && h[OFF_ACTION] == ActionByte(s.last)
            && h[OFF_WAGER1..OFF_WAGER1 + 8] == ToLittleEndian(s.wager1, 8)
            && h[OFF_WAGER2..OFF_WAGER2 + 8] == ToLittleEndian(s.wager2, 8)
            && h[OFF_DEADLINE..OFF_DEADLINE + 8] == ToLittleEndian(s.deadline, 8)
  {
    hide ToLittleEndian, EncodePhase;
  }

  lemma ReadU64(n: nat)
    requires n <= MAX_U64
    ensures LittleEndian(ToLittleEndian(n, 8)) == n
  {
    U64Width();
    WriteThenRead(n, 8);
  }

  /** Two headers agreeing on every field are the same bytes. */
  lemma SameHeader(h: bytes, g: bytes)
    requires |h| == |g| == HEADER
    requires h[..OFF_PHASE] == g[..OFF_PHASE] && h[OFF_PHASE] == g[OFF_PHASE] && h[OFF_ACTION] == g[OFF_ACTION]
    requires h[OFF_WAGER1..OFF_WAGER1 + 8] == g[OFF_WAGER1..OFF_WAGER1 + 8]
    requires h[OFF_WAGER2..OFF_WAGER2 + 8] == g[OFF_WAGER2..OFF_WAGER2 + 8]
    requires h[OFF_DEADLINE..OFF_DEADLINE + 8] == g[OFF_DEADLINE..OFF_DEADLINE + 8]
    ensures h == g
  {
    forall i | 0 <= i < HEADER ensures h[i] == g[i] {
      if i < OFF_PHASE {
        assert h[..OFF_PHASE][i] == g[..OFF_PHASE][i];
      } else if OFF_ACTION < i {
        var o := if i < OFF_WAGER2 then OFF_WAGER1 else if i < OFF_DEADLINE then OFF_WAGER2 else OFF_DEADLINE;
        assert h[o..o + 8][i - o] == g[o..o + 8][i - o];
      }
    }
  }

  /** The fields a header must hold to be the encoding of `s`. */
  predicate HeaderFields(h: bytes, s: State)
    requires |s.id| == 32
  {
    && |h| == HEADER
    && h[..OFF_PHASE] == HeaderPrefix(s.id)
    && EncodePhase(s.phase) == Some(h[OFF_PHASE])
    && h[OFF_ACTION] == ActionByte(s.last)
    && Field(h, OFF_WAGER1, 8) == s.wager1
    && Field(h, OFF_WAGER2, 8) == s.wager2
    && Field(h, OFF_DEADLINE, 8) == s.deadline
  }

  /** A header encodes a state exactly when its fields are the state's. */
  lemma HeaderIsFields(h: bytes, s: State)
    requires WellFormed(s)
    ensures EncodeHeader(s) == Some(h) <==> HeaderFields(h, s)
  {
    hide EncodePhase, EncodeHeader;
    if EncodePhase(s.phase).Some? {
      HeaderHas(s);
      HeaderPieces(s);
      ReadU64(s.wager1);
      ReadU64(s.wager2);
      ReadU64(s.deadline);
      var g := EncodeHeader(s).value;
      if HeaderFields(h, s) {
        FieldWritten(h, OFF_WAGER1);
        FieldWritten(h, OFF_WAGER2);
        FieldWritten(h, OFF_DEADLINE);
        SameHeader(h, g);
      }
    } else {
      HeaderHas(s);
    }
  }

  lemma HeaderHas(s: State)
    requires |s.id| == 32
    ensures EncodeHeader(s).Some? <==> EncodePhase(s.phase).Some?
  {
    hide EncodePhase;
  }

  lemma FieldWritten(h: bytes, o: nat)
    requires o + 8 <= |h|
    ensures h[o..o + 8] == ToLittleEndian(Field(h, o, 8), 8)
  {
    ReadThenWrite(h[o..o + 8]);
  }

  lemma OneByteField(h: bytes, o: nat)
    requires o < |h|
    ensures Field(h, o, 1) == h[o]
  {
    var f := h[o..o + 1];
    assert f[1..] == [] && f[0] == h[o];
    assert LittleEndian(f) == f[0] + 256 * LittleEndian(f[1..]);
  }

  lemma OneByteRange(h: bytes, o: nat, b: byte)
    requires o < |h|
    ensures h[o..o + 1] == [b] <==> h[o] == b
  {
    assert h[o..o + 1] == [h[o]];
  }

  // ---------- The shares ----------

  /** A joined packet holds each share at its multiple of 64. */
  lemma {:induction false} JoinAt(shares: seq<bytes>, slots: seq<nat>, i: nat)
    requires forall j | 0 <= j < |slots| :: slots[j] < |shares| && |shares[slots[j]]| == SHARE
    requires i < |slots|
    ensures |Join(shares, slots)| == SHARE * |slots|
    ensures Join(shares, slots)[SHARE * i..SHARE * i + SHARE] == shares[slots[i]]
  {
    var rest := Join(shares, slots[1..]);
    if |slots| == 1 {
      assert slots[1..] == [] && rest == [];
    } else {
      JoinAt(shares, slots[1..], if i == 0 then 0 else i - 1);
      if i > 0 {
        var k := i - 1;
        assert (shares[slots[0]] + rest)[SHARE + SHARE * k..SHARE + SHARE * k + SHARE]
            == rest[SHARE * k..SHARE * k + SHARE];
        assert slots[i] == slots[1..][k];
      }
    }
  }

  /** A packet that holds each share at its multiple of 64 is the joined packet. */
  lemma {:induction false} JoinOf(shares: seq<bytes>, slots: seq<nat>, b: bytes)
    requires forall j | 0 <= j < |slots| :: slots[j] < |shares| && |shares[slots[j]]| == SHARE
    requires |b| == SHARE * |slots|
    requires forall i | 0 <= i < |slots| :: b[SHARE * i..SHARE * i + SHARE] == shares[slots[i]]
    ensures Join(shares, slots) == b
  {
    if slots != [] {
      var c := b[SHARE..];
      forall i | 0 <= i < |slots| - 1
        ensures c[SHARE * i..SHARE * i + SHARE] == shares[slots[1..][i]]
      {
        var j := i + 1;
        assert b[SHARE * j..SHARE * j + SHARE] == shares[slots[j]];
        assert SHARE * j == SHARE * i + SHARE;
        assert c[SHARE * i..SHARE * i + SHARE] == b[SHARE * i + SHARE..SHARE * i + SHARE + SHARE];
      }
      JoinOf(shares, slots[1..], c);
      assert b[SHARE * 0..SHARE * 0 + SHARE] == shares[slots[0]];
      assert b == b[..SHARE] + c;
    }
  }

  /** The slot table and the packet layout agree: the `i`th slot of a packet sits at 64 * i. */
  lemma Layout(packet: nat, i: nat)
    requires 1 <= packet <= 3 && i < |PacketSlots(packet)|
    ensures Packet(PacketSlots(packet)[i]) == packet && Offset(PacketSlots(packet)[i]) == SHARE * i
    ensures PacketLength(packet) == SHARE * |PacketSlots(packet)|
  {
  }

  lemma SlotPlace(slot: nat)
    requires slot < SLOTS
    ensures Offset(slot) / SHARE < |PacketSlots(Packet(slot))|
    ensures PacketSlots(Packet(slot))[Offset(slot) / SHARE] == slot
  {
  }

  /** One packet holds a state's shares exactly when each of its slots reads back. */
  lemma PacketIsShares(s: State, packet: nat, b: bytes)
    requires WellFormed(s) && 1 <= packet <= 3
    ensures b == SharePacket(s, packet) <==>
      && |b| == PacketLength(packet)
      && forall i | 0 <= i < |PacketSlots(packet)| ::
           b[SHARE * i..SHARE * i + SHARE] == s.shares[PacketSlots(packet)[i]]
  {
    var slots := PacketSlots(packet);
    Layout(packet, 0);
    JoinAt(s.shares, slots, 0);
    if b == SharePacket(s, packet) {
      forall i | 0 <= i < |slots| ensures b[SHARE * i..SHARE * i + SHARE] == s.shares[slots[i]] {
        JoinAt(s.shares, slots, i);
      }
    } else if |b| == PacketLength(packet)
      && forall i | 0 <= i < |slots| :: b[SHARE * i..SHARE * i + SHARE] == s.shares[slots[i]] {
      JoinOf(s.shares, slots, b);
    }
  }

  /** All three share packets hold a state's shares exactly when every slot reads back. */
  lemma PacketsAreShares(s: State, packets: Packets)
    requires WellFormed(s)
    ensures CarriesShares(packets, s) <==> HasShares(packets) && SharesOf(packets) == s.shares
  {
    if CarriesShares(packets, s) {
      forall k | 1 <= k <= 3 ensures HasPacket(packets, k) {
        assert Holds(packets, TYPE_STATE + k, SharePacket(s, k));
        PacketIsShares(s, k, packets[TYPE_STATE + k]);
      }
      forall i: nat | i < SLOTS ensures SharesOf(packets)[i] == s.shares[i] {
        SlotPlace(i);
        var k, j := Packet(i), Offset(i) / SHARE;
        assert Holds(packets, TYPE_STATE + k, SharePacket(s, k));
        PacketIsShares(s, k, packets[TYPE_STATE + k]);
        assert packets[TYPE_STATE + k][SHARE * j..SHARE * j + SHARE] == s.shares[i];
      }
    }
    if HasShares(packets) && SharesOf(packets) == s.shares {
      forall k | 1 <= k <= 3 ensures Holds(packets, TYPE_STATE + k, SharePacket(s, k)) {
        assert HasPacket(packets, k);
        var b := packets[TYPE_STATE + k];
        forall i | 0 <= i < |PacketSlots(k)| ensures b[SHARE * i..SHARE * i + SHARE] == s.shares[PacketSlots(k)[i]] {
          Layout(k, i);
          assert SharesOf(packets)[PacketSlots(k)[i]] == ShareAt(packets, PacketSlots(k)[i]);
        }
        PacketIsShares(s, k, b);
      }
    }
  }

  // ---------- The whole state ----------

  lemma ActionCodec(a: LastAction, b: byte)
    ensures ActionAt(b) == Some(a) <==> b == ActionByte(a)
  {
  }

  lemma DecodedIsWellFormed(h: bytes, shares: seq<bytes>)
    requires |shares| == SLOTS && (forall i | 0 <= i < SLOTS :: |shares[i]| == SHARE)
    ensures DecodeHeader(h, shares).Some? ==> WellFormed(DecodeHeader(h, shares).value)
  {
    hide DecodePhase, ActionAt;
    if |h| == HEADER {
      FieldBound(h, OFF_WAGER1);
      FieldBound(h, OFF_WAGER2);
      FieldBound(h, OFF_DEADLINE);
    }
  }

  lemma HeaderDecodes(h: bytes, s: State)
    requires WellFormed(s)
    ensures DecodeHeader(h, s.shares) == Some(s) <==> HeaderFields(h, s)
  {
    hide DecodePhase, EncodePhase, ActionAt, ActionByte, Field;
    if |h| == HEADER {
      PhaseCodec(s.phase, h[OFF_PHASE]);
      ActionCodec(s.last, h[OFF_ACTION]);
      PrefixIsId(h, s.id);
    }
  }

  lemma PrefixIsId(h: bytes, id: bytes)
    requires |h| >= OFF_PHASE && |id| == 32
    ensures h[..OFF_PHASE] == HeaderPrefix(id) <==> h[0] == 1 && h[1] == 0 && h[2..OFF_PHASE] == id
  {
    if h[0] == 1 && h[1] == 0 && h[2..OFF_PHASE] == id {
      assert h[..OFF_PHASE] == [1, 0] + h[2..OFF_PHASE];
    }
    if h[..OFF_PHASE] == HeaderPrefix(id) {
      assert h[0] == h[..OFF_PHASE][0] && h[1] == h[..OFF_PHASE][1];
      assert h[2..OFF_PHASE] == h[..OFF_PHASE][2..];
    }
  }

  /** Decoding succeeds with exactly the well-formed state whose four packets are there, and no other kind is. */
  lemma StateCodec(packets: Packets, s: State)
    ensures DecodeState(packets) == Some(s) <==> WellFormed(s) && Carries(packets, s) && OnlyKnown(packets)
  {
    hide DecodeHeader, EncodeHeader, HeaderFields, SharePacket;
    if WellFormed(s) {
      PacketsAreShares(s, packets);
      if TYPE_STATE in packets {
        HeaderIsFields(packets[TYPE_STATE], s);
        HeaderDecodes(packets[TYPE_STATE], s);
        if DecodeState(packets) == Some(s) {
          SharesDecoded(packets[TYPE_STATE], SharesOf(packets));
        }
      }
    } else if DecodeState(packets) == Some(s) {
      DecodedIsWellFormed(packets[TYPE_STATE], SharesOf(packets));
    }
  }

  lemma SharesDecoded(h: bytes, shares: seq<bytes>)
    ensures DecodeHeader(h, shares).Some? ==> DecodeHeader(h, shares).value.shares == shares
  {
    hide DecodePhase, ActionAt, Field;
  }

  lemma CarriesIsCodec(packets: Packets, s: State)
    requires WellFormed(s)
    ensures Carries(packets, s) <==>
      && TYPE_STATE in packets && HeaderFields(packets[TYPE_STATE], s)
      && HasShares(packets) && SharesOf(packets) == s.shares
  {
    hide EncodeHeader, HeaderFields, SharePacket;
    PacketsAreShares(s, packets);
    if TYPE_STATE in packets {
      HeaderIsFields(packets[TYPE_STATE], s);
    }
  }
}
