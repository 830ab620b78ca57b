/** What a program that accepts a spend has enforced, in terms of the action builders. */
module Enforcement {
  import opened Bytes
  import opened Hand
  import opened Codec
  import opened Rules
  import opened Runs
  import opened Admission
  import opened Machine
  import opened Pieces
  import opened Preservation
  import opened Options

  /** The spend moves the covenant from one state to another: the source packets and the new packets carry them. */
  predicate Moves(before: State, after: State, tx: Spend) {
    && WellFormed(before) && WellFormed(after)
    && Carries(SourcePackets(tx), before) && Carries(tx.packets, after)
  }

  /** An action builder makes this spend: same successor, locked value, coin count, covenant script and witness. */
  predicate BuildsSpend(p: Params, before: State, m: Move, f: Funding, after: State, tx: Spend, proofs: seq<bytes>) {
    && |before.shares| == SLOTS
    && tx.current == 0 && |tx.inputs| == 1 + |f.inputs| && ScriptKept(tx)
    && Live(p, before, tx.inputs[0].value, m, f) == Some(Built(after, tx.outputs[0].value, f, proofs))
  }

  /** The seven live programs; the opening and all-in streets are fixed at emission, the pass is read on chain. */
  datatype Program =
    | FundingProgram
    | OpeningProgram
    | BettingProgram(street: Street, actor: Player)
    | BoardProgram(street: Street, actor: Player)
    | HolesProgram(actor: Player)
    | CallProgram(street: Street, actor: Player)
    | LastRevealProgram(street: Street, actor: Player)

  function ProgramOf(phase: Phase): (program: Option<Program>) {
    match phase
    case AwaitFunding => Some(FundingProgram)
    case AwaitOpening => Some(OpeningProgram)
    case Betting(street, actor) => Some(BettingProgram(street, actor))
    case BoardReveal(street, _, actor) => Some(BoardProgram(street, actor))
    case ShowdownReveal(_, actor) => Some(HolesProgram(actor))
    case AllIn(street, actor) => Some(CallProgram(street, actor))
    case AllInReveal(street, actor) => Some(LastRevealProgram(street, actor))
    case Evaluation => None
  }

  /** The ideal proof check accepts each published share with its proof. */
  predicate SharesProven(actor: Player, slots: seq<nat>, after: State, tx: Spend, proofs: seq<bytes>)
    requires |after.shares| == SLOTS && forall i | 0 <= i < |slots| :: slots[i] < SLOTS
  {
    && |proofs| == |slots|
    && forall i | 0 <= i < |slots| ::
         tx.shareValid(actor, slots[i], SlotCard(slots[i]), after.shares[slots[i]], proofs[|slots| - 1 - i])
  }

  predicate Proven(before: State, m: Move, after: State, tx: Spend, proofs: seq<bytes>) {
    && |after.shares| == SLOTS && RequiredActor(before.phase).Some?
    && SharesProven(RequiredActor(before.phase).value, MoveSlots(before, m), after, tx, proofs)
  }

  /** One transition between encoded states that a builder makes, with valid share proofs. */
  predicate Makes(p: Params, program: Program, before: State, m: Move, f: Funding, after: State, tx: Spend,
                  proofs: seq<bytes>) {
    && Moves(before, after, tx) && ProgramOf(before.phase) == Some(program)
    && BuildsSpend(p, before, m, f, after, tx, proofs) && Proven(before, m, after, tx, proofs)
  }

  /** Some builder makes this spend from a state the program serves. */
  ghost predicate SomeBuilder(p: Params, program: Program, tx: Spend, proofs: seq<bytes>) {
    exists before, after, m, f :: Makes(p, program, before, m, f, after, tx, proofs)
  }

  lemma MakesIsSome(
    p: Params, program: Program, before: State, m: Move, f: Funding, after: State, tx: Spend, proofs: seq<bytes>)
    requires Makes(p, program, before, m, f, after, tx, proofs)
    ensures SomeBuilder(p, program, tx, proofs)
  {
    hide Makes;
  }

  lemma SomeMakes(p: Params, program: Program, tx: Spend, proofs: seq<bytes>)
    returns (before: State, m: Move, f: Funding, after: State)
    requires SomeBuilder(p, program, tx, proofs)
    ensures Makes(p, program, before, m, f, after, tx, proofs)
  {
    hide Makes;
    before, after, m, f :| Makes(p, program, before, m, f, after, tx, proofs);
  }

  // ---------- From bytes to states ----------

  /** The state a complete set of packets encodes. */
  function StateOf(packets: Packets): (s: State)
    requires Sized(packets, TYPE_STATE, HEADER) && HasShares(packets)
    requires DecodeHeader(packets[TYPE_STATE], SharesOf(packets)).Some?
  {
    DecodeHeader(packets[TYPE_STATE], SharesOf(packets)).value
  }

  lemma StateOfCarries(packets: Packets, id: bytes)
    requires |id| == 32 && HasHeader(packets, HeaderPrefix(id)) && HasShares(packets)
    requires DecodePhase(packets[TYPE_STATE][OFF_PHASE]).Some? && packets[TYPE_STATE][OFF_ACTION] <= 2
    ensures DecodeHeader(packets[TYPE_STATE], SharesOf(packets)).Some?
    ensures WellFormed(StateOf(packets)) && Carries(packets, StateOf(packets))
  {
    hide DecodePhase, HeaderFields, Carries;
    var h, shares := packets[TYPE_STATE], SharesOf(packets);
    assert h[0..OFF_PHASE] == h[..OFF_PHASE];
    PrefixIsId(h, id);
    DecodedIsWellFormed(h, shares);
    SharesDecoded(h, shares);
    var s := StateOf(packets);
    HeaderDecodes(h, s);
    CarriesIsCodec(packets, s);
  }

  /** The header of a carried state, field by field. */
  lemma CarriedHeader(packets: Packets, s: State, id: bytes)
    requires WellFormed(s) && Carries(packets, s) && |id| == 32
    ensures Sized(packets, TYPE_STATE, HEADER) && HeaderFields(packets[TYPE_STATE], s)
    ensures HasHeader(packets, HeaderPrefix(id)) <==> s.id == id
    ensures HasShares(packets) && SharesOf(packets) == s.shares
    ensures Field(packets[TYPE_STATE], OFF_ACTION, 1) == ActionByte(s.last)
    ensures EncodePhase(s.phase) == Some(packets[TYPE_STATE][OFF_PHASE])
    ensures Field(packets[TYPE_STATE], OFF_PHASE, 1) == packets[TYPE_STATE][OFF_PHASE]
    ensures forall q :: Field(packets[TYPE_STATE], WagerOffset(q), 8) == Wager(s, q)
    ensures Field(packets[TYPE_STATE], OFF_DEADLINE, 8) == s.deadline
  {
    hide EncodePhase, ActionByte, Carries, Field;
    CarriesIsCodec(packets, s);
    var h := packets[TYPE_STATE];
    assert h[0..OFF_PHASE] == h[..OFF_PHASE];
    PrefixIsId(h, id);
    PrefixIsId(h, s.id);
    OneByteField(h, OFF_ACTION);
    OneByteField(h, OFF_PHASE);
  }

  lemma KeptShares(changed: seq<nat>, before: State, after: State, tx: Spend)
    requires Moves(before, after, tx)
    ensures SharesKept(changed, SourcePackets(tx), tx.packets)
      <==> forall slot: nat | slot < SLOTS && slot !in changed :: before.shares[slot] == after.shares[slot]
  {
    hide Carries, ShareAt;
    CarriesIsCodec(SourcePackets(tx), before);
    CarriesIsCodec(tx.packets, after);
    forall slot: nat | slot < SLOTS
      ensures before.shares[slot] == ShareAt(SourcePackets(tx), slot) && after.shares[slot] == ShareAt(tx.packets, slot)
    {
      assert SharesOf(SourcePackets(tx))[slot] == before.shares[slot];
      assert SharesOf(tx.packets)[slot] == after.shares[slot];
    }
  }

  lemma SixteenBytes(h: bytes, g: bytes)
    requires |h| == HEADER == |g|
    ensures g[OFF_WAGER1..OFF_WAGER1 + 16] == h[OFF_WAGER1..OFF_WAGER1 + 16]
      <==> Field(g, OFF_WAGER1, 8) == Field(h, OFF_WAGER1, 8) && Field(g, OFF_WAGER2, 8) == Field(h, OFF_WAGER2, 8)
  {
    hide Field;
    SameField(h, g, OFF_WAGER1);
    SameField(h, g, OFF_WAGER2);
    SplitRange(h);
    SplitRange(g);
  }

  lemma SplitRange(h: bytes)
    requires |h| == HEADER
    ensures h[OFF_WAGER1..OFF_WAGER1 + 16] == h[OFF_WAGER1..OFF_WAGER1 + 8] + h[OFF_WAGER2..OFF_WAGER2 + 8]
    ensures h[OFF_WAGER1..OFF_WAGER1 + 8] == h[OFF_WAGER1..OFF_WAGER1 + 16][..8]
    ensures h[OFF_WAGER2..OFF_WAGER2 + 8] == h[OFF_WAGER1..OFF_WAGER1 + 16][8..]
  {
  }

  lemma SameField(h: bytes, g: bytes, o: nat)
    requires o + 8 <= |h| && o + 8 <= |g|
    ensures h[o..o + 8] == g[o..o + 8] <==> Field(h, o, 8) == Field(g, o, 8)
  {
    FieldWritten(h, o);
    FieldWritten(g, o);
  }

  lemma SamePhase(x: Phase, y: Phase)
    requires EncodePhase(x).Some? && EncodePhase(y).Some?
    ensures EncodePhase(x) == EncodePhase(y) <==> x == y
  {
    DecodeOfEncode(x);
    DecodeOfEncode(y);
  }

  // ---------- Funding ----------

  function Zero(n: nat): (z: seq<int>)
    ensures |z| == n
  {
    if n == 0 then [] else Zero(n - 1) + [0]
  }

  /** A contribution is covered by any positive number of coins: one of the exact amount and empty ones. */
  lemma {:induction false} CoinsCover(required: int, coins: nat)
    requires 0 < required <= MAX_MONEY
    ensures Total([required] + Zero(coins)) == Some(required)
  {
    var all := [required] + Zero(coins);
    if coins == 0 {
      assert all == [required] && all[..0] == [];
    } else {
      CoinsCover(required, coins - 1);
      assert all[..|all| - 1] == [required] + Zero(coins - 1);
    }
  }

  function SomeFunding(required: int, coins: nat): (f: Funding) {
    if coins == 0 then Funding([], None) else Funding([required] + Zero(coins - 1), None)
  }

  lemma SomeFundingCovers(held: int, required: int, coins: nat)
    requires 0 <= required && 0 <= held && held + required <= MAX_MONEY && (required > 0 <==> coins > 0)
    ensures var f := SomeFunding(required, coins);
      |f.inputs| == coins && FundingCovers(f, required) && AddAmount(held, FundedTotal(f)) == Some(held + required)
  {
    if coins > 0 {
      CoinsCover(required, coins - 1);
    }
  }

  /** Covering a contribution takes at least one coin, and none when nothing is contributed. */
  lemma CoveringCoins(f: Funding, required: int)
    requires FundingCovers(f, required)
    ensures required >= 0 && (required > 0 <==> |f.inputs| > 0)
  {
  }

  lemma HeaderSized(packets: Packets, id: bytes)
    requires |id| == 32 && HasHeader(packets, HeaderPrefix(id))
    ensures Sized(packets, TYPE_STATE, HEADER)
  {
  }

  lemma MovesWell(before: State, after: State, tx: Spend)
    requires Moves(before, after, tx)
    ensures WellFormed(before) && WellFormed(after)
  {
  }

  lemma PotFits(p: Params)
    requires ValidParams(p)
    ensures 0 < Pot(p) && Pot(p) + 2 * p.maxWager <= MAX_MONEY && MAX_MONEY <= MAX_U64
  {
  }

  /** `BuildsSpend`, with the transition and the money spelled out. */
  lemma SpendUnfolds(p: Params, before: State, m: Move, f: Funding, after: State, tx: Spend, proofs: seq<bytes>)
    requires WellFormed(before)
    ensures BuildsSpend(p, before, m, f, after, tx, proofs) <==>
      && tx.current == 0 && |tx.inputs| == 1 + |f.inputs| && ScriptKept(tx)
      && before.id == p.id && (before.phase == AwaitFunding <==> m.Fund?)
      && RequiredValue(p, before) == Some(tx.inputs[0].value)
      && Apply(p, before, m).Some?
      && var a := Apply(p, before, m).value;
         && a.proofs == proofs && a.state.(deadline := after.deadline) == after
         && after.deadline == a.state.deadline + DEADLINE_INTERVAL && after.deadline <= MAX_U64
         && LiveValue(p, after) == Some(tx.outputs[0].value)
         && 0 <= tx.inputs[0].value <= tx.outputs[0].value
         && FundingCovers(f, tx.outputs[0].value - tx.inputs[0].value)
         && AddAmount(tx.inputs[0].value, FundedTotal(f)).Some?
  {
    hide Apply, FundingCovers, FundedTotal, AddAmount, RequiredValue;
  }

  // ---------- Publishing ----------

  lemma PublishedCounts(actor: Player, slots: seq<nat>, tx: Spend, proofs: seq<bytes>)
    requires Batch(slots)
    ensures SharesPublished(actor, slots, tx, proofs)
      ==> |proofs| == |slots| && HasShares(SourcePackets(tx)) && HasShares(tx.packets)
  {
  }

  lemma ProofOfShare(before: State, after: State, tx: Spend, actor: Player, slot: nat, card: nat, proof: bytes)
    requires Moves(before, after, tx) && slot < SLOTS
    ensures ProofHolds(tx, actor, slot, card, proof)
      <==> |proof| == PROOF && after.shares[slot] != BLANK
           && tx.shareValid(actor, slot, card, after.shares[slot], proof)
  {
    hide Carries;
    CarriesIsCodec(tx.packets, after);
    assert HasPacket(tx.packets, Packet(slot));
    assert SharesOf(tx.packets)[slot] == ShareAt(tx.packets, slot);
  }

  /** The cards a published batch stands for, in publication order. */
  function CardsOf(slots: seq<nat>, after: State, proofs: seq<bytes>): (cards: seq<CardReveal>)
    requires |proofs| == |slots| && |after.shares| == SLOTS && forall i | 0 <= i < |slots| :: slots[i] < SLOTS
    ensures |cards| == |slots|
    ensures forall i | 0 <= i < |slots| :: cards[i] == Share(after.shares[slots[i]], proofs[|slots| - 1 - i])
  {
    seq(|slots|, i requires 0 <= i < |slots| => Share(after.shares[slots[i]], proofs[|slots| - 1 - i]))
  }

  lemma ProvenCards(before: State, after: State, actor: Player, slots: seq<nat>, tx: Spend, proofs: seq<bytes>)
    requires Moves(before, after, tx) && (forall i | 0 <= i < |slots| :: slots[i] < SLOTS)
      && ProofsHold(actor, slots, tx, proofs)
    ensures SharesProven(actor, slots, after, tx, proofs)
    ensures forall i | 0 <= i < |slots| :: Encodable(CardsOf(slots, after, proofs)[i])
  {
    hide Carries, ProofHolds, SlotCard;
    forall i | 0 <= i < |slots|
      ensures Encodable(CardsOf(slots, after, proofs)[i])
      ensures tx.shareValid(actor, slots[i], SlotCard(slots[i]), after.shares[slots[i]], proofs[|slots| - 1 - i])
    {
      ProofOfShare(before, after, tx, actor, slots[i], SlotCard(slots[i]), proofs[|slots| - 1 - i]);
    }
  }

  lemma CardsPublish(mid: State, shares: seq<bytes>, r: Reveals, kind: RevealKind, actor: Player, phase: Phase,
                     proofs: seq<bytes>)
    requires |mid.shares| == SLOTS && Publishable(r, kind)
    requires Write(mid.shares, KindSlots(kind, actor), KindCards(r)) == shares && Proofs(KindCards(r)) == proofs
    ensures PublishAs(mid, r, kind, actor, phase) == Some(Applied(mid.(shares := shares, phase := phase), proofs))
  {
  }

  /** What the shared end of a program enforces is what publishing does, with a witness read off the spend. */
  lemma PublishedBuilds(before: State, after: State, mid: State, kind: RevealKind, actor: Player, phase: Phase,
                        tx: Spend, proofs: seq<bytes>) returns (r: Reveals)
    requires Moves(before, after, tx) && mid.shares == before.shares
    requires Batch(KindSlots(kind, actor)) && SharesPublished(actor, KindSlots(kind, actor), tx, proofs)
    ensures PublishAs(mid, r, kind, actor, phase) == Some(Applied(mid.(shares := after.shares, phase := phase), proofs))
    ensures SharesProven(actor, KindSlots(kind, actor), after, tx, proofs)
  {
    hide Carries, ProofHolds, Batch, Packet, Offset, SlotCard, SlotPublisher, KindSlots, Fill, KindCards, UnusedAbsent,
      Write, SharesProven, PublishAs, SharesKept, Encodable;
    var slots := KindSlots(kind, actor);
    var cards := CardsOf(slots, after, proofs);
    KindWidth(kind, actor);
    ProvenCards(before, after, actor, slots, tx, proofs);
    KeptShares(slots, before, after, tx);
    WritesAfter(before.shares, after.shares, slots, cards);
    r := Fill(kind, cards);
    assert Proofs(cards) == proofs;
    CardsPublish(mid, after.shares, r, kind, actor, phase, proofs);
  }

  lemma WritesAfter(shares: seq<bytes>, next: seq<bytes>, slots: seq<nat>, cards: seq<CardReveal>)
    requires |shares| == |next| && |slots| == |cards|
    requires forall i | 0 <= i < |slots| :: slots[i] < |shares| && cards[i].Share? && cards[i].share == next[slots[i]]
    requires forall i, j | 0 <= i < j < |slots| :: slots[i] != slots[j]
    requires forall k | 0 <= k < |shares| && k !in slots :: shares[k] == next[k]
    ensures Write(shares, slots, cards) == next
  {
    WriteAt(|slots|, shares, slots, cards);
    assert slots[..|slots|] == slots;
    forall k | 0 <= k < |shares| ensures Write(shares, slots, cards)[k] == next[k] {
      if k in slots {
        var i :| 0 <= i < |slots| && slots[i] == k;
      }
    }
  }

  /** A built publication has one share and one proof for every slot. */
  lemma PublishedCard(mid: State, shares: seq<bytes>, r: Reveals, kind: RevealKind, actor: Player, phase: Phase,
                      proofs: seq<bytes>, i: nat)
    requires |mid.shares| == SLOTS && i < |KindSlots(kind, actor)|
    requires PublishAs(mid, r, kind, actor, phase) == Some(Applied(mid.(shares := shares, phase := phase), proofs))
    ensures |proofs| == |KindSlots(kind, actor)| && |proofs[|proofs| - 1 - i]| == PROOF
    ensures |shares| == SLOTS && shares[KindSlots(kind, actor)[i]] != BLANK
    ensures forall k | 0 <= k < SLOTS && k !in KindSlots(kind, actor) :: shares[k] == mid.shares[k]
  {
    hide KindCards, UnusedAbsent, SlotPublisher;
    KindWidth(kind, actor);
    CardCount(r);
    var slots, cards := KindSlots(kind, actor), KindCards(r);
    WriteAt(|slots|, mid.shares, slots, cards);
    assert slots[..|slots|] == slots;
    assert Encodable(cards[i]);
  }

  lemma CardCount(r: Reveals)
    ensures |KindCards(r)| == |KindSlots(r.kind, Player1)|
  {
  }

  /** The other way round: a built publication passes the end of the program. */
  lemma BuiltIsPublished(before: State, after: State, mid: State, r: Reveals, kind: RevealKind, actor: Player,
                         phase: Phase, tx: Spend, proofs: seq<bytes>)
    requires Moves(before, after, tx) && mid.shares == before.shares
    requires PublishAs(mid, r, kind, actor, phase)
      == Some(Applied(mid.(shares := after.shares, phase := phase), proofs))
    requires SharesProven(actor, KindSlots(kind, actor), after, tx, proofs) && Batch(KindSlots(kind, actor))
    ensures SharesPublished(actor, KindSlots(kind, actor), tx, proofs)
  {
    hide Carries, ProofHolds, Batch, Packet, Offset, SlotCard, SlotPublisher, KindSlots, PublishAs, SharesKept;
    var slots := KindSlots(kind, actor);
    assert |slots| > 0 by { KindNotEmpty(kind, actor); }
    PublishedCard(mid, after.shares, r, kind, actor, phase, proofs, 0);
    forall i | 0 <= i < |slots|
      ensures ProofHolds(tx, actor, slots[i], SlotCard(slots[i]), proofs[|slots| - 1 - i])
    {
      PublishedCard(mid, after.shares, r, kind, actor, phase, proofs, i);
      ProofOfShare(before, after, tx, actor, slots[i], SlotCard(slots[i]), proofs[|slots| - 1 - i]);
    }
    KeptShares(slots, before, after, tx);
  }

  lemma KindNotEmpty(kind: RevealKind, actor: Player)
    ensures |KindSlots(kind, actor)| > 0
  {
  }
}
