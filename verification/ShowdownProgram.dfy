/** The showdown program: nine decrypted cards, two committed ranks and one split of the joint value. */
module ShowdownProgram {
  import opened Bits
  import opened Bytes
  import opened Hand
  import opened Codec
  import opened Terminals
  import opened Machine
  import opened Laws
  import opened Pieces
  import opened RevealPrograms
  import opened TerminalPrograms
  import opened Enforcement
  import opened Options

  const CARDS: nat := 9

  /** The two slots whose shares, one from each player, open a dealt card. */
  function CardSlots(position: nat): (slots: (nat, nat))
    requires position < CARDS
  {
    [(0, 14), (1, 15), (2, 16), (3, 17), (4, 7), (5, 8), (6, 9), (10, 11), (12, 13)][position]
  }

  /** The deal positions of a player's seven cards: two hole cards, then the board. */
  function Seven(player: Player): (positions: seq<nat>)
    ensures forall i | 0 <= i < |positions| :: positions[i] < CARDS
  {
    if player == Player1 then [0, 1, 4, 5, 6, 7, 8] else [2, 3, 4, 5, 6, 7, 8]
  }

  // ---------- The code ----------

  function ReadEvaluation(p: Params, rest: Pieces): (q: Pieces)
    requires |p.id| == 32
  {
    Then(WitnessCount(7), Then(OnlyFirstInput(), Then(OneInput(), Then(OpenSource(TYPE_STATE, HEADER),
    Then(RangeIs(0, OFF_PHASE, HeaderPrefix(p.id)), Then(RangeIs(OFF_PHASE, 2, [0x1a, 0]), rest))))))
  }

  function ReadWager(p: Params, rest: Pieces): (q: Pieces) {
    Then(UnsignedField(0, OFF_WAGER1, 8), Then([DUP, NUM(p.maxWager), LESSTHANOREQUAL, VERIFY],
    Then(UnsignedField(1, OFF_WAGER2, 8), Then([OVER, NUMEQUALVERIFY], Then([SWAP, DROP],
    Then([DUP, NUM(Half(p)), ADD, NUM(2), MUL], Then([DUP, NUM(0), INPUTVALUE, NUMEQUALVERIFY], rest)))))))
  }

  function CheckShapes(rest: Pieces): (q: Pieces) {
    Then(OpenSource(TYPE_STATE + 1, PacketLength(1)),
         Then([DROP], Then(OpenSource(TYPE_STATE + 2, PacketLength(2)), Then([DROP],
    Then(OpenSource(TYPE_STATE + 3, PacketLength(3)), Then([DROP], rest))))))
  }

  function OpenCards(i: nat, rest: Pieces): (q: Pieces)
    requires i <= CARDS
    decreases CARDS - i
  {
    if i == CARDS then rest
    else Then([DEALTCARD(i, CardSlots(i).0, CardSlots(i).1)], OpenCards(i + 1, rest))
  }

  function ReadCards(i: nat, rest: Pieces): (q: Pieces)
    requires i <= CARDS
    decreases CARDS - i
  {
    if i == CARDS then rest else Then([NUM(i), PICK], Then(TakeField(i, 1), ReadCards(i + 1, rest)))
  }

  function DistinctFrom(i: nat, j: nat, rest: Pieces): (q: Pieces)
    requires i < j <= CARDS
    decreases CARDS - j
  {
    if j == CARDS then rest
    else Then([NUM(8 - i), PICK, NUM(9 - j), PICK, NUMNOTEQUAL, VERIFY], DistinctFrom(i, j + 1, rest))
  }

  function Distinct(i: nat, rest: Pieces): (q: Pieces)
    requires i <= CARDS
    decreases CARDS - i
  {
    if i == CARDS then rest else DistinctFrom(i, i + 1, Distinct(i + 1, rest))
  }

  function AddBits(depth: nat, positions: seq<nat>, rest: Pieces): (q: Pieces)
    requires depth >= CARDS && forall i | 0 <= i < |positions| :: positions[i] < CARDS
  {
    if positions == [] then rest
    else Then([NUM(1), NUM(depth - positions[0]), PICK, LSHIFT, ADD], AddBits(depth, positions[1..], rest))
  }

  function MaskPieces(player: Player, rest: Pieces): (q: Pieces) {
    Then([NUM(0)], AddBits(10 + Index(player), Seven(player), rest))
  }

  function ProveRank(depth: nat, rest: Pieces): (q: Pieces) {
    Then([NUM(1), PICK, NUM(depth), PICK, NUM(depth), PICK, NUM(depth), PICK], Then([RANKPROOF], rest))
  }

  /** The split: 2, 1 or 0 halves of the wagered pot above the bond for Player 1, the rest for Player 2. */
  function SplitPieces(p: Params, rest: Pieces): (q: Pieces) {
    Then([DUP2, GREATERTHAN, NUM(2), MUL, TOALT], Then([NUMEQUAL, FROMALT, ADD], Then([FROMALT, MUL, NUM(p.bond), ADD],
    Then([FROMALT, OVER, SUB], Then([NUM(1), OUTPUTVALUE, NUMEQUALVERIFY], Then([NUM(0), OUTPUTVALUE, NUMEQUALVERIFY],
    rest))))))
  }

  function DropAll(rest: Pieces): (q: Pieces) {
    Then([DROP2, DROP2], Then([DROP2, DROP2, DROP2], Then([DROP2, DROP2], Then([DROP2, DROP2], rest))))
  }

  function PayBoth(payees: Payees, rest: Pieces): (q: Pieces) {
    Then(PayoutTo(0, payees.script1), Then(PayoutTo(1, payees.script2), NoSuccessor(rest)))
  }

  function SettlePieces(p: Params, payees: Payees): (q: Pieces) {
    MaskPieces(Player1,
               MaskPieces(Player2, ProveRank(18, ProveRank(16, SplitPieces(p, PayBoth(payees, DropAll(Verdict())))))))
  }

  function ShowdownPieces(p: Params, payees: Payees): (q: Pieces)
    requires |p.id| == 32
  {
    var cards := OpenCards(0, ReadCards(0, Distinct(0, SettlePieces(p, payees))));
    var claim := Then([TOALT, NUM(p.stake), ADD, TOALT], Then([SIZE, NUM(CARDS), NUMEQUALVERIFY], cards));
    ReadEvaluation(p, ReadWager(p, CheckShapes(claim)))
  }

  // ---------- The source ----------

  predicate EvaluationSource(p: Params, tx: Spend)
    requires |p.id| == 32
  {
    && tx.current == 0 && |tx.inputs| == 1 && HasHeader(SourcePackets(tx), HeaderPrefix(p.id))
    && SourcePackets(tx)[TYPE_STATE][OFF_PHASE..OFF_PHASE + 2] == [0x1a, 0]
  }

  lemma ReadEvaluationGoes(p: Params, rest: Pieces, s: Stack, tx: Spend)
    requires |p.id| == 32
    ensures Go(ReadEvaluation(p, rest), tx, Ok(s, Bottom))
      == if Depth(s) == 7 && EvaluationSource(p, tx)
        then Go(rest, tx, Ok(Push(Data(SourcePackets(tx)[TYPE_STATE]), s), Bottom))
         else Failed
  {
    hide Run, Go, Step, Exec, OnlyFirstInput, OneInput, WitnessCount, OpenSource, RangeIs, Depth, HeaderPrefix;
    var q := ReadEvaluation(p, rest);
    WitnessCountGoes(q, 7, tx, s, Bottom, NoBranch);
    q := q.rest;
    OnlyFirstInputGoes(q, tx, s, Bottom, NoBranch);
    q := q.rest;
    OneInputGoes(q, tx, s, Bottom, NoBranch);
    q := q.rest;
    OpenSourceGoes(q, TYPE_STATE, HEADER, tx, s, Bottom, NoBranch);
    q := q.rest;
    if Sized(SourcePackets(tx), TYPE_STATE, HEADER) {
      var h := SourcePackets(tx)[TYPE_STATE];
      RangeIsGoes(q, 0, OFF_PHASE, HeaderPrefix(p.id), h, tx, s, Bottom, NoBranch);
      RangeIsGoes(q.rest, OFF_PHASE, 2, [0x1a, 0], h, tx, s, Bottom, NoBranch);
    }
  }

  lemma ReadWagerGoes(p: Params, rest: Pieces, h: bytes, s: Stack, tx: Spend)
    requires |h| == HEADER && |tx.inputs| == 1
    ensures var w := Field(h, OFF_WAGER1, 8);
      Go(ReadWager(p, rest), tx, Ok(Push(Data(h), s), Bottom))
      == if w <= p.maxWager && Field(h, OFF_WAGER2, 8) == w && tx.inputs[0].value == (w + Half(p)) * 2
         then Go(rest, tx, Ok(Push(Num((w + Half(p)) * 2), Push(Num(w), s)), Bottom)) else Failed
  {
    hide Run, Go, Step, Exec, UnsignedField, Field, Half;
    PushLaws(tx);
    StackLaws(tx);
    CheckLaws(tx);
    ArithmeticLaws(tx);
    ComparisonLaws(tx);
    InspectionLaws(tx);
    var q, d, w, w2 := ReadWager(p, rest), Push(Data(h), s), Field(h, OFF_WAGER1, 8), Field(h, OFF_WAGER2, 8);
    UnsignedFieldGoes(q, 0, OFF_WAGER1, 8, h, tx, d, Bottom, NoBranch);
    q := q.rest;
    var d1 := Push(Num(w), d);
    Go4(q, DUP, NUM(p.maxWager), LESSTHANOREQUAL, VERIFY, tx, Ok(d1, Bottom));
    q := q.rest;
    UnsignedFieldGoes(q, 1, OFF_WAGER2, 8, h, tx, d1, Bottom, NoBranch);
    q := q.rest;
    Go2(q, OVER, NUMEQUALVERIFY, tx, Ok(Push(Num(w2), d1), Bottom));
    q := q.rest;
    Go2(q, SWAP, DROP, tx, Ok(d1, Bottom));
    q := q.rest;
    Go5(q, DUP, NUM(Half(p)), ADD, NUM(2), MUL, tx, Ok(Push(Num(w), s), Bottom));
    Go4(q.rest, DUP, NUM(0), INPUTVALUE, NUMEQUALVERIFY, tx, Ok(Push(Num((w + Half(p)) * 2), Push(Num(w), s)), Bottom));
  }

  lemma CheckShapesGoes(rest: Pieces, s: Stack, tx: Spend)
    ensures Go(CheckShapes(rest), tx, Ok(s, Bottom)) == if HasShares(SourcePackets(tx))
      then Go(rest, tx, Ok(s, Bottom)) else Failed
  {
    hide Run, Go, Step, Exec, OpenSource;
    PushLaws(tx);
    var q := CheckShapes(rest);
    ShapeGoes(q, 1, s, tx);
    ShapeGoes(q.rest.rest, 2, s, tx);
    ShapeGoes(q.rest.rest.rest.rest, 3, s, tx);
  }

  lemma ShapeGoes(q: Pieces, k: nat, s: Stack, tx: Spend)
    requires 1 <= k <= 3 && q.Then? && q.piece == OpenSource(TYPE_STATE + k, PacketLength(k)) && q.rest.Then?
      && q.rest.piece == [DROP]
    ensures Go(q, tx, Ok(s, Bottom)) == if HasPacket(SourcePackets(tx), k) then Go(q.rest.rest, tx, Ok(s, Bottom))
      else Failed
  {
    hide Run, Go, Step, Exec, OpenSource;
    PushLaws(tx);
    StackLaws(tx);
    OpenSourceGoes(q, TYPE_STATE + k, PacketLength(k), tx, s, Bottom, NoBranch);
    if HasPacket(SourcePackets(tx), k) {
      Go1(q.rest, DROP, tx, Ok(Push(Data(SourcePackets(tx)[TYPE_STATE + k]), s), Bottom));
    }
  }

  // ---------- The cards ----------

  predicate CardsOpen(i: nat, cards: bytes, tx: Spend) {
    forall k | i <= k < CARDS :: CardHolds(tx, k, CardSlots(k).0, CardSlots(k).1, cards)
  }

  lemma {:induction false} OpenCardsGoes(i: nat, rest: Pieces, cards: bytes, s: Stack, alt: Stack, tx: Spend)
    requires i <= CARDS
    ensures Go(OpenCards(i, rest), tx, Ok(Push(Data(cards), s), alt))
      == if CardsOpen(i, cards, tx) then Go(rest, tx, Ok(Push(Data(cards), s), alt)) else Failed
    decreases CARDS - i
  {
    hide Run, Go, Step, Exec, CardHolds, CardSlots;
    if i < CARDS {
      PushLaws(tx);
      SettlementLaws(tx);
      Go1(OpenCards(i, rest), DEALTCARD(i, CardSlots(i).0, CardSlots(i).1), tx, Ok(Push(Data(cards), s), alt));
      OpenCardsGoes(i + 1, rest, cards, s, alt, tx);
      assert CardsOpen(i, cards, tx)
        <==> CardHolds(tx, i, CardSlots(i).0, CardSlots(i).1, cards) && CardsOpen(i + 1, cards, tx);
    }
  }

  /** The first `n` cards as numbers, the latest on top. */
  function CardStack(n: nat, cards: bytes, s: Stack): (t: Stack)
    requires n <= |cards|
  {
    if n == 0 then s else Push(Num(cards[n - 1]), CardStack(n - 1, cards, s))
  }

  lemma {:induction false} CardAt(n: nat, cards: bytes, s: Stack, depth: nat)
    requires n <= |cards|
    ensures depth < n ==> Drop(depth, CardStack(n, cards, s)) == CardStack(n - depth, cards, s)
    ensures Drop(n, CardStack(n, cards, s)) == s
  {
    if n > 0 && depth > 0 {
      CardAt(n - 1, cards, s, depth - 1);
    } else if n > 0 {
      CardAt(n - 1, cards, s, 0);
    }
  }

  lemma {:induction false} ReadCardsGoes(i: nat, rest: Pieces, cards: bytes, s: Stack, alt: Stack, tx: Spend)
    requires i <= CARDS == |cards|
    ensures Go(ReadCards(i, rest), tx, Ok(CardStack(i, cards, Push(Data(cards), s)), alt))
      == Go(rest, tx, Ok(CardStack(CARDS, cards, Push(Data(cards), s)), alt))
    decreases CARDS - i
  {
    hide Run, Go, Step, Exec, Field, TakeField, Drop;
    if i < CARDS {
      PushLaws(tx);
      PickLaws(tx);
      var d := Push(Data(cards), s);
      var c := CardStack(i, cards, d);
      CardAt(i, cards, d, 0);
      var q := ReadCards(i, rest);
      Go2(q, NUM(i), PICK, tx, Ok(c, alt));
      TakeFieldGoes(q.rest, i, 1, cards, tx, c, alt, NoBranch);
      OneByteField(cards, i);
      assert CardStack(i + 1, cards, d) == Push(Num(cards[i]), c);
      ReadCardsGoes(i + 1, rest, cards, s, alt, tx);
    }
  }

  predicate AllDistinct(i: nat, cards: bytes)
    requires |cards| == CARDS
  {
    forall k, j | i <= k < j < CARDS :: cards[k] != cards[j]
  }

  lemma {:induction false} DistinctFromGoes(i: nat, j: nat, rest: Pieces, cards: bytes, s: Stack, alt: Stack, tx: Spend)
    requires i < j <= CARDS == |cards|
    ensures Go(DistinctFrom(i, j, rest), tx, Ok(CardStack(CARDS, cards, s), alt))
      == if forall k | j <= k < CARDS :: cards[i] != cards[k] then Go(rest, tx, Ok(CardStack(CARDS, cards, s), alt))
        else Failed
    decreases CARDS - j
  {
    hide Run, Go, Step, Exec, Drop;
    if j < CARDS {
      var c := CardStack(CARDS, cards, s);
      PickCard(cards, s, i);
      PickSecond(cards, s, i, j);
      PushLaws(tx);
      PickLaws(tx);
      CheckLaws(tx);
      EqualityLaws(tx);
      Go6(DistinctFrom(i, j, rest), NUM(8 - i), PICK, NUM(9 - j), PICK, NUMNOTEQUAL, VERIFY, tx, Ok(c, alt));
      DistinctFromGoes(i, j + 1, rest, cards, s, alt, tx);
    }
  }

  lemma PickCard(cards: bytes, s: Stack, i: nat)
    requires i < CARDS == |cards|
    ensures Drop(8 - i, CardStack(CARDS, cards, s)).Push?
      && Drop(8 - i, CardStack(CARDS, cards, s)).top == Num(cards[i])
  {
    CardAt(CARDS, cards, s, 8 - i);
  }

  lemma PickSecond(cards: bytes, s: Stack, i: nat, j: nat)
    requires i < CARDS == |cards| && j < CARDS
    ensures var c := Push(Num(cards[i]), CardStack(CARDS, cards, s));
      Drop(9 - j, c).Push? && Drop(9 - j, c).top == Num(cards[j])
  {
    PickCard(cards, s, j);
    assert Drop(9 - j, Push(Num(cards[i]), CardStack(CARDS, cards, s))) == Drop(8 - j, CardStack(CARDS, cards, s));
  }

  lemma {:induction false} DistinctGoes(i: nat, rest: Pieces, cards: bytes, s: Stack, alt: Stack, tx: Spend)
    requires i <= CARDS == |cards|
    ensures Go(Distinct(i, rest), tx, Ok(CardStack(CARDS, cards, s), alt))
      == if AllDistinct(i, cards) then Go(rest, tx, Ok(CardStack(CARDS, cards, s), alt)) else Failed
    decreases CARDS - i
  {
    hide Run, Go, Step, Exec, DistinctFrom, CardStack;
    if i < CARDS {
      DistinctFromGoes(i, i + 1, Distinct(i + 1, rest), cards, s, alt, tx);
      DistinctGoes(i + 1, rest, cards, s, alt, tx);
    }
  }

  // ---------- Masks and ranks ----------

  /** The mask with one bit for each card at the given positions. */
  function CardMask(cards: bytes, positions: seq<nat>): (m: nat)
    requires forall i | 0 <= i < |positions| :: positions[i] < |cards|
  {
    if positions == [] then 0 else Pow2(cards[positions[0]]) + CardMask(cards, positions[1..])
  }

  /** The cards below one or two accumulators. */
  function Under(masks: Stack, cards: bytes, s: Stack): (t: Stack)
    requires |cards| == CARDS
  {
    match masks
    case Bottom => CardStack(CARDS, cards, s)
    case Push(m, under) => Push(m, Under(under, cards, s))
  }

  lemma {:induction false} UnderAt(masks: Stack, cards: bytes, s: Stack, position: nat)
    requires position < CARDS == |cards|
    ensures var t := Drop(Depth(masks) + 8 - position, Under(masks, cards, s)); t.Push? && t.top == Num(cards[position])
  {
    match masks
    case Bottom => PickCard(cards, s, position);
    case Push(m, under) => UnderAt(under, cards, s, position);
  }

  lemma {:induction false} AddBitsGoes(depth: nat, positions: seq<nat>, rest: Pieces, sum: nat, masks: Stack,
                                       cards: bytes, s: Stack, alt: Stack, tx: Spend)
    requires |cards| == CARDS && depth == Depth(masks) + 10 && forall i | 0 <= i < |positions| :: positions[i] < CARDS
    ensures Go(AddBits(depth, positions, rest), tx, Ok(Push(Num(sum), Under(masks, cards, s)), alt))
      == Go(rest, tx, Ok(Push(Num(sum + CardMask(cards, positions)), Under(masks, cards, s)), alt))
  {
    hide Run, Go, Step, Exec, Drop, Pow2, CardStack;
    if positions != [] {
      var i, c := positions[0], Under(masks, cards, s);
      UnderAt(Push(Num(1), Push(Num(sum), masks)), cards, s, i);
      assert Depth(Push(Num(1), Push(Num(sum), masks))) + 8 - i == depth - i;
      assert Under(Push(Num(1), Push(Num(sum), masks)), cards, s) == Push(Num(1), Push(Num(sum), c));
      PushLaws(tx);
      PickLaws(tx);
      ArithmeticLaws(tx);
      ShiftLaws(tx);
      Go5(AddBits(depth, positions, rest), NUM(1), NUM(depth - i), PICK, LSHIFT, ADD, tx, Ok(Push(Num(sum), c), alt));
      assert 1 * Pow2(cards[i]) == Pow2(cards[i]);
      AddBitsGoes(depth, positions[1..], rest, sum + Pow2(cards[i]), masks, cards, s, alt, tx);
    }
  }

  lemma MaskGoes(player: Player, rest: Pieces, masks: Stack, cards: bytes, s: Stack, alt: Stack, tx: Spend)
    requires |cards| == CARDS && Depth(masks) == Index(player)
    ensures Go(MaskPieces(player, rest), tx, Ok(Under(masks, cards, s), alt))
      == Go(rest, tx, Ok(Push(Num(CardMask(cards, Seven(player))), Under(masks, cards, s)), alt))
  {
    hide Run, Go, Step, Exec, CardMask, AddBits, Under;
    PushLaws(tx);
    Go1(MaskPieces(player, rest), NUM(0), tx, Ok(Under(masks, cards, s), alt));
    AddBitsGoes(10 + Index(player), Seven(player), rest, 0, masks, cards, s, alt, tx);
  }

  predicate At(s: Stack, depth: nat, x: Item) { Drop(depth, s).Push? && Drop(depth, s).top == x }

  /** A rank is proven from a mask and the three witness elements picked from below. */
  lemma ProveRankGoes(depth: nat, rest: Pieces, t: Stack, mask: int, rank: bytes, low: bytes, high: bytes, alt: Stack,
                      tx: Spend)
    requires depth >= 3 && At(t, 1, Num(mask))
    requires At(t, depth - 1, Data(rank)) && At(t, depth - 2, Data(low)) && At(t, depth - 3, Data(high))
    ensures Go(ProveRank(depth, rest), tx, Ok(t, alt))
      == if RankHolds(tx, mask, rank, low, high) then Go(rest, tx, Ok(Push(Num(LittleEndian(rank)), t), alt))
        else Failed
  {
    hide Run, Go, Step, Exec, RankHolds;
    PushLaws(tx);
    PickLaws(tx);
    SettlementLaws(tx);
    var q := ProveRank(depth, rest);
    var t1 := Push(Num(mask), t);
    var t2 := Push(Data(rank), t1);
    var t3 := Push(Data(low), t2);
    assert Drop(depth, t1) == Drop(depth - 1, t);
    assert Drop(depth, t2) == Drop(depth - 1, t1) == Drop(depth - 2, t);
    assert Drop(depth, t3) == Drop(depth - 1, t2) == Drop(depth - 2, t1) == Drop(depth - 3, t);
    Go8(q, NUM(1), PICK, NUM(depth), PICK, NUM(depth), PICK, NUM(depth), PICK, tx, Ok(t, alt));
    Go1(q.rest, RANKPROOF, tx, Ok(Push(Data(high), t3), alt));
  }

  /** Player 1's output in the program's own arithmetic. */
  function Split(p: Params, w: int, rank1: int, rank2: int): (v: int) {
    (if rank1 > rank2 then 2 else if rank1 == rank2 then 1 else 0) * (w + p.stake) + p.bond
  }

  lemma SplitGoes(p: Params, rest: Pieces, rank1: int, rank2: int, w: int, total: int, t: Stack, tx: Spend)
    ensures Go(SplitPieces(p, rest), tx,
               Ok(Push(Num(rank2), Push(Num(rank1), t)), Push(Num(w + p.stake), Push(Num(total), Bottom))))
      == if |tx.outputs| >= 2 && tx.outputs[1].value == total - Split(p, w, rank1, rank2)
            && tx.outputs[0].value == Split(p, w, rank1, rank2)
         then Go(rest, tx, Ok(t, Bottom)) else Failed
  {
    hide Run, Go, Step, Exec;
    PushLaws(tx);
    StackLaws(tx);
    ArithmeticLaws(tx);
    EqualityLaws(tx);
    ComparisonLaws(tx);
    var q, c := SplitPieces(p, rest), Push(Num(total), Bottom);
    var alt := Push(Num(w + p.stake), c);
    var twice := if rank1 > rank2 then 2 else 0;
    var g := if rank1 > rank2 then 2 else if rank1 == rank2 then 1 else 0;
    var first := g * (w + p.stake) + p.bond;
    Go5(q, DUP2, GREATERTHAN, NUM(2), MUL, TOALT, tx, Ok(Push(Num(rank2), Push(Num(rank1), t)), alt));
    q := q.rest;
    Go3(q, NUMEQUAL, FROMALT, ADD, tx, Ok(Push(Num(rank2), Push(Num(rank1), t)), Push(Num(twice), alt)));
    q := q.rest;
    Go4(q, FROMALT, MUL, NUM(p.bond), ADD, tx, Ok(Push(Num(g), t), alt));
    PayGoes(q.rest, rest, first, total, t, tx);
  }

  lemma PayGoes(q: Pieces, rest: Pieces, first: int, total: int, t: Stack, tx: Spend)
    requires q
      == Then([FROMALT, OVER, SUB],
              Then([NUM(1), OUTPUTVALUE, NUMEQUALVERIFY], Then([NUM(0), OUTPUTVALUE, NUMEQUALVERIFY],
                  rest)))
    ensures Go(q, tx, Ok(Push(Num(first), t), Push(Num(total), Bottom)))
      == if |tx.outputs| >= 2 && tx.outputs[1].value == total - first && tx.outputs[0].value == first
         then Go(rest, tx, Ok(t, Bottom)) else Failed
  {
    hide Run, Go, Step, Exec;
    PushLaws(tx);
    StackLaws(tx);
    CheckLaws(tx);
    ArithmeticLaws(tx);
    InspectionLaws(tx);
    Go3(q, FROMALT, OVER, SUB, tx, Ok(Push(Num(first), t), Push(Num(total), Bottom)));
    Go3(q.rest, NUM(1), OUTPUTVALUE, NUMEQUALVERIFY, tx, Ok(Push(Num(total - first), Push(Num(first), t)), Bottom));
    Go3(q.rest.rest, NUM(0), OUTPUTVALUE, NUMEQUALVERIFY, tx, Ok(Push(Num(first), t), Bottom));
  }

  lemma PayBothGoes(payees: Payees, rest: Pieces, s: Stack, tx: Spend)
    ensures Go(PayBoth(payees, rest), tx, Ok(s, Bottom))
      == if PaidScript(0, payees.script1, tx) && PaidScript(1, payees.script2, tx) && Settles(tx)
        then Go(rest, tx, Ok(s, Bottom))
         else Failed
  {
    hide Run, Go, Step, Exec, PayoutTo, NoSuccessor, Settles, PaidScript;
    var q := PayBoth(payees, rest);
    PayoutGoes(q, 0, payees.script1, s, tx);
    PayoutGoes(q.rest, 1, payees.script2, s, tx);
    NoSuccessorGoes(rest, s, tx);
  }

  // ---------- The settlement as a whole ----------

  /** The six rank witnesses, below the cards. */
  function Ranks(w: seq<bytes>, s: Stack): (t: Stack)
    requires |w| == 7
  {
    Push(Data(w[5]), Push(Data(w[4]), Push(Data(w[3]), Push(Data(w[2]), Push(Data(w[1]), Push(Data(w[0]), s))))))
  }

  lemma WitnessOfSeven(w: seq<bytes>)
    requires |w| == 7
    ensures Witness(w) == Push(Data(w[6]), Ranks(w, Bottom))
  {
    assert w[..6][..5] == w[..5] && w[..5][..4] == w[..4] && w[..4][..3] == w[..3] && w[..3][..2] == w[..2]
      && w[..2][..1] == w[..1];
    assert w[..1][..0] == [];
    assert Witness(w[..0]) == Bottom;
    assert Witness(w[..1]) == Push(Data(w[0]), Bottom);
    assert Witness(w[..2]) == Push(Data(w[1]), Witness(w[..1]));
    assert Witness(w[..3]) == Push(Data(w[2]), Witness(w[..2]));
    assert Witness(w[..4]) == Push(Data(w[3]), Witness(w[..3]));
    assert Witness(w[..5]) == Push(Data(w[4]), Witness(w[..4]));
    assert Witness(w[..6]) == Push(Data(w[5]), Witness(w[..5]));
  }

  lemma {:induction false} UnderSkip(masks: Stack, cards: bytes, s: Stack, k: nat)
    requires |cards| == CARDS
    ensures Drop(Depth(masks) + CARDS + k, Under(masks, cards, s)) == Drop(k, s)
  {
    match masks
    case Bottom =>
      CardAt(CARDS, cards, s, 0);
      DropMore(CARDS, k, CardStack(CARDS, cards, s));
    case Push(m, under) => UnderSkip(under, cards, s, k);
  }

  lemma {:induction false} DropMore(n: nat, k: nat, s: Stack)
    ensures Drop(n + k, s) == Drop(k, Drop(n, s))
  {
    if n > 0 && s.Push? {
      DropMore(n - 1, k, s.under);
    }
  }

  lemma DropAllGoes(rest: Pieces, m1: Item, m2: Item, cards: bytes, w: seq<bytes>, tx: Spend)
    requires |cards| == CARDS && |w| == 7
    ensures Go(DropAll(rest), tx,
               Ok(Under(Push(m2, Push(m1, Bottom)), cards, Push(Data(cards), Ranks(w, Bottom))), Bottom))
      == Go(rest, tx, Ok(Bottom, Bottom))
  {
    hide Run, Go, Step, Exec;
    PushLaws(tx);
    StackLaws(tx);
    var q, s := DropAll(rest), Push(Data(cards), Ranks(w, Bottom));
    var one := Push(m1, Bottom);
    assert Under(Push(m2, one), cards, s) == Push(m2, Under(one, cards, s))
      == Push(m2, Push(m1, Under(Bottom, cards, s)));
    var c1, c7 := CardStack(1, cards, s), CardStack(7, cards, s);
    assert CardStack(CARDS, cards, s) == Push(Num(cards[8]), Push(Num(cards[7]), c7));
    assert c7 == Push(Num(cards[6]), CardStack(6, cards, s));
    assert CardStack(6, cards, s) == Push(Num(cards[5]), CardStack(5, cards, s));
    assert CardStack(5, cards, s) == Push(Num(cards[4]), CardStack(4, cards, s));
    assert CardStack(4, cards, s) == Push(Num(cards[3]), CardStack(3, cards, s));
    assert CardStack(3, cards, s) == Push(Num(cards[2]), CardStack(2, cards, s));
    assert CardStack(2, cards, s) == Push(Num(cards[1]), c1);
    assert c1 == Push(Num(cards[0]), CardStack(0, cards, s)) == Push(Num(cards[0]), s);
    hide CardStack;
    Go2(q, DROP2, DROP2, tx, Ok(Under(Push(m2, Push(m1, Bottom)), cards, s), Bottom));
    Go3(q.rest, DROP2, DROP2, DROP2, tx, Ok(c7, Bottom));
    Go2(q.rest.rest, DROP2, DROP2, tx, Ok(c1, Bottom));
    Go2(q.rest.rest.rest, DROP2, DROP2, tx,
        Ok(Push(Data(w[3]), Push(Data(w[2]), Push(Data(w[1]), Push(Data(w[0]), Bottom)))), Bottom));
  }

  predicate RanksHold(cards: bytes, w: seq<bytes>, tx: Spend)
    requires |cards| == CARDS && |w| == 7
  {
    && RankHolds(tx, CardMask(cards, Seven(Player1)), w[0], w[1], w[2])
    && RankHolds(tx, CardMask(cards, Seven(Player2)), w[3], w[4], w[5])
  }

  predicate SplitPaid(p: Params, payees: Payees, wager: int, rank1: int, rank2: int, total: int, tx: Spend) {
    && |tx.outputs| >= 2 && tx.outputs[1].value == total - Split(p, wager, rank1, rank2)
    && tx.outputs[0].value == Split(p, wager, rank1, rank2)
    && PaidScript(0, payees.script1, tx) && PaidScript(1, payees.script2, tx) && Settles(tx)
  }

  lemma SettleGoes(p: Params, payees: Payees, wager: int, total: int, cards: bytes, w: seq<bytes>, tx: Spend)
    requires |cards| == CARDS && |w| == 7
    ensures Go(SettlePieces(p, payees), tx, Ok(CardStack(CARDS, cards, Push(Data(cards), Ranks(w, Bottom))),
                                               Push(Num(wager + p.stake), Push(Num(total), Bottom))))
      == if RanksHold(cards, w, tx) && SplitPaid(p, payees, wager, LittleEndian(w[0]), LittleEndian(w[3]), total, tx)
         then Ok(Push(Num(1), Bottom), Bottom) else Failed
  {
    hide Run, Go, Step, Exec, CardMask, MaskPieces, ProveRank, SplitPieces, PayBoth, DropAll, RankHolds, CardStack,
      Split, Settles, PaidScript, Drop;
    var s, alt := Push(Data(cards), Ranks(w, Bottom)), Push(Num(wager + p.stake), Push(Num(total), Bottom));
    var m1, m2 := CardMask(cards, Seven(Player1)), CardMask(cards, Seven(Player2));
    var r1, r2 := LittleEndian(w[0]), LittleEndian(w[3]);
    var one := Push(Num(m1), Bottom);
    var two := Push(Num(m2), one);
    var t := Under(two, cards, s);
    var q6 := DropAll(Verdict());
    var q5 := PayBoth(payees, q6);
    var q4 := SplitPieces(p, q5);
    var q3 := ProveRank(16, q4);
    var q2 := ProveRank(18, q3);
    assert Under(Bottom, cards, s) == CardStack(CARDS, cards, s);
    assert Under(one, cards, s) == Push(Num(m1), CardStack(CARDS, cards, s));
    assert t == Push(Num(m2), Under(one, cards, s));
    MaskGoes(Player1, MaskPieces(Player2, q2), Bottom, cards, s, alt, tx);
    MaskGoes(Player2, q2, one, cards, s, alt, tx);
    RankPlaces(m1, m2, cards, w);
    ProveRankGoes(18, q3, t, m1, w[0], w[1], w[2], alt, tx);
    RankPlacesAbove(r1, m1, m2, cards, w);
    ProveRankGoes(16, q4, Push(Num(r1), t), m2, w[3], w[4], w[5], alt, tx);
    SplitGoes(p, q5, r1, r2, wager, total, t, tx);
    PayBothGoes(payees, q6, t, tx);
    DropAllGoes(Verdict(), Num(m1), Num(m2), cards, w, tx);
    EndGoes(tx);
  }

  lemma RankPlaces(m1: int, m2: int, cards: bytes, w: seq<bytes>)
    requires |cards| == CARDS && |w| == 7
    ensures var t := Under(Push(Num(m2), Push(Num(m1), Bottom)), cards, Push(Data(cards), Ranks(w, Bottom)));
      && At(t, 0, Num(m2)) && At(t, 1, Num(m1))
      && At(t, 12, Data(w[5])) && At(t, 13, Data(w[4])) && At(t, 14, Data(w[3]))
      && At(t, 15, Data(w[2])) && At(t, 16, Data(w[1])) && At(t, 17, Data(w[0]))
  {
    hide CardStack;
    var masks, s := Push(Num(m2), Push(Num(m1), Bottom)), Push(Data(cards), Ranks(w, Bottom));
    var r := Ranks(w, Bottom);
    assert Depth(masks) == 1 + Depth(masks.under) == 2;
    assert Drop(1, s) == r;
    assert Drop(2, s) == Drop(1, r) == r.under;
    assert Drop(3, s) == Drop(2, r) == Drop(1, r.under) == r.under.under;
    var r2 := r.under.under;
    assert Drop(4, s) == Drop(3, r) == Drop(2, r.under) == Drop(1, r2) == r2.under;
    assert Drop(5, s) == Drop(4, r) == Drop(3, r.under) == Drop(2, r2) == r2.under.under;
    assert Drop(6, s) == Drop(5, r) == Drop(4, r.under) == Drop(3, r2) == Drop(2, r2.under) == r2.under.under.under;
    UnderSkip(masks, cards, s, 1);
    UnderSkip(masks, cards, s, 2);
    UnderSkip(masks, cards, s, 3);
    UnderSkip(masks, cards, s, 4);
    UnderSkip(masks, cards, s, 5);
    UnderSkip(masks, cards, s, 6);
  }

  lemma RankPlacesAbove(r1: int, m1: int, m2: int, cards: bytes, w: seq<bytes>)
    requires |cards| == CARDS && |w| == 7
    ensures var t := Push(Num(r1),
                          Under(Push(Num(m2), Push(Num(m1), Bottom)), cards, Push(Data(cards), Ranks(w, Bottom))));
      At(t, 1, Num(m2)) && At(t, 13, Data(w[5])) && At(t, 14, Data(w[4])) && At(t, 15, Data(w[3]))
  {
    hide Under, Ranks;
    RankPlaces(m1, m2, cards, w);
    var u := Under(Push(Num(m2), Push(Num(m1), Bottom)), cards, Push(Data(cards), Ranks(w, Bottom)));
    assert Drop(1, Push(Num(r1), u)) == Drop(0, u);
    assert Drop(13, Push(Num(r1), u)) == Drop(12, u);
    assert Drop(14, Push(Num(r1), u)) == Drop(13, u);
    assert Drop(15, Push(Num(r1), u)) == Drop(14, u);
  }

  // ---------- The whole program ----------

  /** What the program enforces, on the header bytes, the witness and the outputs. */
  predicate ShowdownEnforced(p: Params, payees: Payees, tx: Spend, w: seq<bytes>)
    requires |p.id| == 32
  {
    && |w| == 7 && EvaluationSource(p, tx) && HasShares(SourcePackets(tx)) && |w[6]| == CARDS
    && var h := SourcePackets(tx)[TYPE_STATE];
       var wager := Field(h, OFF_WAGER1, 8);
       && wager <= p.maxWager && Field(h, OFF_WAGER2, 8) == wager && tx.inputs[0].value == (wager + Half(p)) * 2
       && CardsOpen(0, w[6], tx) && AllDistinct(0, w[6]) && RanksHold(w[6], w, tx)
       && SplitPaid(p, payees, wager, LittleEndian(w[0]), LittleEndian(w[3]), tx.inputs[0].value, tx)
  }

  lemma ShowdownGoes(p: Params, payees: Payees, tx: Spend, w: seq<bytes>)
    requires |p.id| == 32
    ensures Go(ShowdownPieces(p, payees), tx, Ok(Witness(w), Bottom))
      == if ShowdownEnforced(p, payees, tx, w) then Ok(Push(Num(1), Bottom), Bottom) else Failed
  {
    hide Run, Go, Step, Exec, ReadEvaluation, ReadWager, CheckShapes, OpenCards, ReadCards, Distinct, SettlePieces,
         CardsOpen, AllDistinct, RanksHold, SplitPaid, HeaderPrefix, Depth, Witness, Field, Half, HasShares;
    var s := Witness(w);
    var q5 := Then([SIZE, NUM(CARDS), NUMEQUALVERIFY],
                   OpenCards(0, ReadCards(0, Distinct(0, SettlePieces(p, payees)))));
    var q4 := Then([TOALT, NUM(p.stake), ADD, TOALT], q5);
    var q3 := CheckShapes(q4);
    var q2 := ReadWager(p, q3);
    WitnessDepth(w);
    ReadEvaluationGoes(p, q2, s, tx);
    if |w| == 7 && EvaluationSource(p, tx) {
      var h := SourcePackets(tx)[TYPE_STATE];
      var wager := Field(h, OFF_WAGER1, 8);
      var total := (wager + Half(p)) * 2;
      ReadWagerGoes(p, q3, h, s, tx);
      if tx.inputs[0].value == total {
        CheckShapesGoes(q4, Push(Num(total), Push(Num(wager), s)), tx);
        PushLaws(tx);
        StackLaws(tx);
        StringLaws(tx);
        CheckLaws(tx);
        ArithmeticLaws(tx);
        Go4(q4, TOALT, NUM(p.stake), ADD, TOALT, tx, Ok(Push(Num(total), Push(Num(wager), s)), Bottom));
        WitnessOfSeven(w);
        ClaimGoes(p, payees, q5, wager, total, w, tx);
      }
    }
  }

  lemma ClaimGoes(p: Params, payees: Payees, q: Pieces, wager: int, total: int, w: seq<bytes>, tx: Spend)
    requires |w| == 7
    requires q
      == Then([SIZE, NUM(CARDS), NUMEQUALVERIFY], OpenCards(0, ReadCards(0, Distinct(0, SettlePieces(p, payees)))))
    ensures Go(q, tx, Ok(Push(Data(w[6]), Ranks(w, Bottom)), Push(Num(wager + p.stake), Push(Num(total), Bottom))))
      == if |w[6]| == CARDS && CardsOpen(0, w[6], tx) && AllDistinct(0, w[6]) && RanksHold(w[6], w, tx)
            && SplitPaid(p, payees, wager, LittleEndian(w[0]), LittleEndian(w[3]), total, tx)
         then Ok(Push(Num(1), Bottom), Bottom) else Failed
  {
    hide Run, Go, Step, Exec, OpenCards, ReadCards, Distinct, SettlePieces, CardsOpen, AllDistinct, RanksHold,
      SplitPaid;
    PushLaws(tx);
    StringLaws(tx);
    CheckLaws(tx);
    var cards, r, alt := w[6], Ranks(w, Bottom), Push(Num(wager + p.stake), Push(Num(total), Bottom));
    Go3(q, SIZE, NUM(CARDS), NUMEQUALVERIFY, tx, Ok(Push(Data(cards), r), alt));
    if |cards| == CARDS {
      var d := Push(Data(cards), r);
      OpenCardsGoes(0, ReadCards(0, Distinct(0, SettlePieces(p, payees))), cards, r, alt, tx);
      assert CardStack(0, cards, d) == d;
      ReadCardsGoes(0, Distinct(0, SettlePieces(p, payees)), cards, r, alt, tx);
      DistinctGoes(0, SettlePieces(p, payees), cards, d, alt, tx);
      SettleGoes(p, payees, wager, total, cards, w, tx);
    }
  }

  lemma ShowdownAccepts(p: Params, payees: Payees, tx: Spend, w: seq<bytes>)
    requires |p.id| == 32
    ensures Accepts(Flat(ShowdownPieces(p, payees)), tx, w) <==> ShowdownEnforced(p, payees, tx, w)
  {
    hide Run, Go, ShowdownPieces, ShowdownEnforced;
    GoIsRun(ShowdownPieces(p, payees), tx, Ok(Witness(w), Bottom));
    ShowdownGoes(p, payees, tx, w);
  }

  // ---------- The builder ----------

  /** The stack arithmetic splits the pot exactly as the builder does. */
  lemma SplitIsShare(p: Params, wager: int, rank1: int, rank2: int)
    ensures Split(p, wager, rank1, rank2) == ShowdownShare(p, 2 * (Half(p) + wager), rank1, rank2)
  {
    assert 2 * (Half(p) + wager) - p.bond == 2 * (wager + p.stake) + p.bond;
    assert 2 * (Half(p) + wager) / 2 == Half(p) + wager;
  }

  /** The witness opens the nine dealt cards and proves both ranks. */
  predicate ClaimHolds(tx: Spend, w: seq<bytes>) {
    |w| == 7 && |w[6]| == CARDS && CardsOpen(0, w[6], tx) && RanksHold(w[6], w, tx)
  }

  predicate EvaluatedState(p: Params, s: State, tx: Spend) {
    && tx.current == 0 && |tx.inputs| == 1 && WellFormed(s) && Carries(SourcePackets(tx), s)
  }

  /** The showdown builder pays this spend from the evaluation state its source carries. */
  ghost predicate SomeShowdown(p: Params, payees: Payees, tx: Spend, w: seq<bytes>) {
    && ClaimHolds(tx, w)
    && exists s ::
         && EvaluatedState(p, s, tx)
         && ShowdownPayouts(p, s, tx.inputs[0].value, w[6], LittleEndian(w[0]), LittleEndian(w[3])).Some?
         && Pays(payees, ShowdownPayouts(p, s, tx.inputs[0].value, w[6], LittleEndian(w[0]), LittleEndian(w[3])).value,
                 tx)
  }

  lemma ClaimIsClaim(tx: Spend, w: seq<bytes>)
    requires ClaimHolds(tx, w)
    ensures ShowdownClaim(w[6], LittleEndian(w[0]), LittleEndian(w[3])) <==> AllDistinct(0, w[6])
  {
    hide CardMask, CardSlots, SourceShare;
    forall i | 0 <= i < CARDS ensures 0 <= w[6][i] < DECK {
      assert CardHolds(tx, i, CardSlots(i).0, CardSlots(i).1, w[6]);
    }
  }

  lemma EnforcedOnState(p: Params, payees: Payees, s: State, tx: Spend, w: seq<bytes>)
    requires ValidParams(p) && EvaluatedState(p, s, tx) && ClaimHolds(tx, w)
    ensures ShowdownEnforced(p, payees, tx, w)
      <==> && ShowdownPayouts(p, s, tx.inputs[0].value, w[6], LittleEndian(w[0]), LittleEndian(w[3])).Some?
           && Pays(payees,
                   ShowdownPayouts(p, s, tx.inputs[0].value, w[6], LittleEndian(w[0]), LittleEndian(w[3])).value, tx)
  {
    hide Carries, Field, HeaderPrefix, EncodePhase, CardsOpen, RanksHold, AllDistinct, ShowdownClaim, Settles,
      ShowdownShare, Split, HasHeader, HeaderFields;
    CarriedHeader(SourcePackets(tx), s, p.id);
    var h := SourcePackets(tx)[TYPE_STATE];
    assert Field(h, WagerOffset(Player1), 8) == s.wager1 && Field(h, WagerOffset(Player2), 8) == s.wager2;
    EvaluationByte();
    SamePhase(s.phase, Evaluation);
    OneByteField(h, OFF_ACTION);
    assert h[OFF_PHASE..OFF_PHASE + 2] == [h[OFF_PHASE], h[OFF_ACTION]];
    ClaimIsClaim(tx, w);
    SplitIsShare(p, s.wager1, LittleEndian(w[0]), LittleEndian(w[3]));
  }

  lemma EvaluationByte()
    ensures EncodePhase(Evaluation) == Some(0x1a) && DecodePhase(0x1a) == Some(Evaluation)
  {
  }

  lemma EvaluationDecodes(p: Params, tx: Spend) returns (s: State)
    requires ValidParams(p) && EvaluationSource(p, tx) && HasShares(SourcePackets(tx))
    ensures EvaluatedState(p, s, tx)
  {
    hide Carries, DecodePhase;
    var h := SourcePackets(tx)[TYPE_STATE];
    assert h[OFF_PHASE..OFF_PHASE + 2] == [h[OFF_PHASE], h[OFF_ACTION]];
    EvaluationByte();
    StateOfCarries(SourcePackets(tx), p.id);
    s := StateOf(SourcePackets(tx));
  }

  /** The showdown program accepts exactly the settlements the showdown builder makes from a proven claim. */
  lemma ShowdownProgramIsShowdown(p: Params, payees: Payees, tx: Spend, w: seq<bytes>)
    requires ValidParams(p)
    ensures Accepts(Flat(ShowdownPieces(p, payees)), tx, w) <==> SomeShowdown(p, payees, tx, w)
  {
    hide Accepts, ShowdownPieces, ShowdownPayouts, Pays, EvaluationSource, ValidAmounts, SplitPaid, Carries, CardsOpen,
      RanksHold, HasShares, AllDistinct;
    ShowdownAccepts(p, payees, tx, w);
    if ShowdownEnforced(p, payees, tx, w) {
      var s := EvaluationDecodes(p, tx);
      EnforcedOnState(p, payees, s, tx, w);
    }
    if SomeShowdown(p, payees, tx, w) {
      var s :| EvaluatedState(p, s, tx)
        && ShowdownPayouts(p, s, tx.inputs[0].value, w[6], LittleEndian(w[0]), LittleEndian(w[3])).Some?
        && Pays(payees, ShowdownPayouts(p, s, tx.inputs[0].value, w[6], LittleEndian(w[0]), LittleEndian(w[3])).value,
                tx);
      EnforcedOnState(p, payees, s, tx, w);
    }
  }
}
