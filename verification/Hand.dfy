/** The hand's data: players, phases, published reveal shares, agreed amounts and their packet encodings. */
module Hand {
  import opened Bytes
  import opened Options

  datatype Player = Player1 | Player2
  datatype Street = PreFlop | Flop | Turn | River
  datatype Pass = FirstPass | SecondPass
  datatype LastAction = Start | Checked | Raised

  datatype Phase =
    | AwaitFunding
    | AwaitOpening
    | Betting(street: Street, actor: Player)
    | AllIn(street: Street, actor: Player)
    | BoardReveal(street: Street, pass: Pass, actor: Player)
    | ShowdownReveal(pass: Pass, actor: Player)
    | AllInReveal(street: Street, actor: Player)
    | Evaluation

  const SLOTS: nat := 18
  const SHARE: nat := 64
  const PROOF: nat := 160
  const DEADLINE_INTERVAL: nat := 60
  const MAX_MONEY: int := 2_100_000_000_000_000

  datatype State = State(
    id: bytes,
    phase: Phase,
    last: LastAction,
    wager1: nat,
    wager2: nat,
    deadline: nat,
    shares: seq<bytes>)

  datatype Params = Params(id: bytes, stake: int, bond: int, minBet: int, maxWager: int, initialDeadline: nat)

  function Index(p: Player): (i: nat) { if p == Player1 then 0 else 1 }

  function Other(p: Player): (o: Player) { if p == Player1 then Player2 else Player1 }

  function StreetIndex(s: Street): (i: nat) {
    match s case PreFlop => 0 case Flop => 1 case Turn => 2 case River => 3
  }

  function NextStreet(s: Street): (n: Street)
    requires s != River
  {
    match s case PreFlop => Flop case Flop => Turn case Turn => River
  }

  function Wager(s: State, p: Player): (w: nat) { if p == Player1 then s.wager1 else s.wager2 }

  function WithWager(s: State, p: Player, w: nat): (t: State) {
    if p == Player1 then s.(wager1 := w) else s.(wager2 := w)
  }

  /** Who must act; nobody once the hand is fully revealed. */
  function RequiredActor(p: Phase): (a: Option<Player>) {
    match p
    case AwaitFunding => Some(Player1)
    case AwaitOpening => Some(Player2)
    case Evaluation => None
    case Betting(_, a) => Some(a)
    case AllIn(_, a) => Some(a)
    case BoardReveal(_, _, a) => Some(a)
    case ShowdownReveal(_, a) => Some(a)
    case AllInReveal(_, a) => Some(a)
  }

  // ---------- Agreed amounts ----------

  function AddAmount(total: int, amount: int): (r: Option<int>) {
    if amount < 0 || amount > MAX_MONEY then None
    else if total < 0 || total > MAX_MONEY - amount then None
    else Some(total + amount)
  }

  predicate ValidAmounts(p: Params) {
    && 0 < p.stake <= MAX_MONEY
    && 0 < p.bond <= MAX_MONEY
    && 0 < p.minBet <= MAX_MONEY
    && 0 < p.maxWager <= MAX_MONEY
    && p.minBet <= p.maxWager
    && AddAmount(p.stake, p.bond).Some?
    && AddAmount(p.stake + p.bond, p.maxWager).Some?
    && AddAmount(p.stake + p.bond + p.maxWager, p.stake + p.bond + p.maxWager).Some?
  }

  predicate ValidParams(p: Params) {
    ValidAmounts(p) && |p.id| == 32 && p.initialDeadline <= MAX_U64
  }

  // ---------- The phase byte ----------

  /** The assigned phase byte; a board or all-in reveal has no pre-flop form. */
  function EncodePhase(p: Phase): (b: Option<byte>) {
    match p
    case AwaitFunding => Some(0x00)
    case AwaitOpening => Some(0x01)
    case Evaluation => Some(0x1a)
    case Betting(s, a) => Some(0x02 + 2 * StreetIndex(s) + Index(a))
    case AllIn(s, a) => Some(0x1c + 2 * StreetIndex(s) + Index(a))
    case BoardReveal(s, pass, a) =>
      if s == PreFlop then None
      else Some(0x0a + 4 * (StreetIndex(s) - 1) + (if pass == FirstPass then 0 else 2) + Index(a))
    case ShowdownReveal(pass, a) => Some(0x16 + (if pass == FirstPass then 0 else 2) + Index(a))
    case AllInReveal(s, a) =>
      if s == PreFlop then None else Some(0x24 + 2 * (StreetIndex(s) - 1) + Index(a))
  }

  function StreetAt(i: int): (s: Street)
    requires 0 <= i < 4
  {
    if i == 0 then PreFlop else if i == 1 then Flop else if i == 2 then Turn else River
  }

  function PlayerAt(i: int): (p: Player)
    requires 0 <= i < 2
  {
    if i == 0 then Player1 else Player2
  }

  function DecodePhase(b: byte): (p: Option<Phase>) {
    if b == 0 then Some(AwaitFunding)
    else if b == 1 then Some(AwaitOpening)
    else if 0x02 <= b <= 0x09 then Some(Betting(StreetAt((b - 2) / 2), PlayerAt(b % 2)))
    else if 0x0a <= b <= 0x15 then
      Some(BoardReveal(StreetAt(1 + (b - 0x0a) / 4),
                       if (b - 0x0a) % 4 / 2 == 0 then FirstPass else SecondPass, PlayerAt(b % 2)))
    else if 0x16 <= b <= 0x19 then
      Some(ShowdownReveal(if (b - 0x16) / 2 == 0 then FirstPass else SecondPass, PlayerAt(b % 2)))
    else if b == 0x1a then Some(Evaluation)
    else if 0x1c <= b <= 0x23 then Some(AllIn(StreetAt((b - 0x1c) / 2), PlayerAt(b % 2)))
    else if 0x24 <= b <= 0x29 then Some(AllInReveal(StreetAt(1 + (b - 0x24) / 2), PlayerAt(b % 2)))
    else None
  }

  lemma DecodeOfEncode(p: Phase)
    requires EncodePhase(p).Some?
    ensures DecodePhase(EncodePhase(p).value) == Some(p)
  {
    match p
    case Betting(s, a) =>
      assert (2 * StreetIndex(s) + Index(a)) / 2 == StreetIndex(s);
    case AllIn(s, a) =>
      assert (2 * StreetIndex(s) + Index(a)) / 2 == StreetIndex(s);
    case BoardReveal(s, pass, a) =>
    case _ =>
  }

  lemma EncodeOfDecode(b: byte)
    requires DecodePhase(b).Some?
    ensures EncodePhase(DecodePhase(b).value) == Some(b)
  {
  }

  /** The phase table is a bijection between the phases that have a byte and the bytes that have a phase. */
  lemma PhaseCodec(p: Phase, b: byte)
    ensures EncodePhase(p) == Some(b) <==> DecodePhase(b) == Some(p)
  {
    if EncodePhase(p) == Some(b) {
      DecodeOfEncode(p);
    }
    if DecodePhase(b) == Some(p) {
      EncodeOfDecode(b);
    }
  }

  // ---------- Reveal slots ----------

  datatype CardReveal = Absent | Share(share: bytes, proof: bytes)

  /** A share slot nobody has written yet. No curve point has these coordinates. */
  const BLANK: bytes := Zeros(SHARE)

  function Zeros(n: nat): (b: bytes)
    ensures |b| == n && forall i | 0 <= i < n :: b[i] == 0
  {
    seq(n, i => 0)
  }

  predicate Encodable(c: CardReveal) {
    c.Share? && |c.share| == SHARE && |c.proof| == PROOF && c.share != BLANK
  }

  predicate IsPublished(s: State, slot: nat)
    requires |s.shares| == SLOTS && slot < SLOTS
  {
    s.shares[slot] != BLANK
  }

  function Published(s: State): (slots: set<nat>)
    requires |s.shares| == SLOTS
  {
    set i: nat | i < SLOTS && IsPublished(s, i)
  }

  predicate WellFormed(s: State) {
    && |s.id| == 32
    && s.wager1 <= MAX_U64 && s.wager2 <= MAX_U64 && s.deadline <= MAX_U64
    && |s.shares| == SLOTS
    && (forall i | 0 <= i < SLOTS :: |s.shares[i]| == SHARE)
  }

  /** Which packet (1 opening, 2 and 3 the players' remaining shares) holds a slot, and where. */
  function Packet(slot: nat): (k: nat)
    requires slot < SLOTS
    ensures 1 <= k <= 3
  {
    [1, 1, 1, 1, 2, 2, 2, 3, 3, 3, 2, 3, 2, 3, 2, 2, 3, 3][slot]
  }

  function Offset(slot: nat): (o: nat)
    requires slot < SLOTS
    ensures o % SHARE == 0 && o + SHARE <= PacketLength(Packet(slot))
  {
    [0, 64, 128, 192, 0, 64, 128, 0, 64, 128, 192, 192, 256, 256, 320, 384, 320, 384][slot]
  }

  function PacketLength(packet: nat): (n: nat)
    requires packet <= 3
  {
    if packet == 0 then HEADER else if packet == 1 then 256 else 448
  }

  /** The slots of a packet, in the order of their offsets. */
  function PacketSlots(packet: nat): (slots: seq<nat>)
    requires 1 <= packet <= 3
    ensures forall i | 0 <= i < |slots| :: slots[i] < SLOTS
  {
    if packet == 1 then [0, 1, 2, 3]
    else if packet == 2 then [4, 5, 6, 10, 12, 14, 15]
    else [7, 8, 9, 11, 13, 16, 17]
  }

  /** The player whose share a slot holds. */
  function SlotPublisher(slot: nat): (p: Player)
    requires slot < SLOTS
  {
    [Player2, Player2, Player1, Player1, Player1, Player1, Player1, Player2, Player2, Player2,
     Player1, Player2, Player1, Player2, Player1, Player1, Player2, Player2][slot]
  }

  /** The dealt card (0..8 in deal order) a slot helps to decrypt. */
  function SlotCard(slot: nat): (c: nat)
    requires slot < SLOTS
    ensures c < 9
  {
    [0, 1, 2, 3, 4, 5, 6, 4, 5, 6, 7, 7, 8, 8, 0, 1, 2, 3][slot]
  }

  // ---------- Packets ----------

  const TYPE_STATE: int := 0x20
  const TYPE_EMULATOR: int := 1
  const HEADER: nat := 60
  const OFF_PHASE: nat := 34
  const OFF_ACTION: nat := 35
  const OFF_WAGER1: nat := 36
  const OFF_WAGER2: nat := 44
  const OFF_DEADLINE: nat := 52

  type Packets = map<int, bytes>

  function ActionByte(a: LastAction): (b: byte) {
    match a case Start => 0 case Checked => 1 case Raised => 2
  }

  function HeaderPrefix(id: bytes): (b: bytes)
    requires |id| == 32
    ensures |b| == OFF_PHASE
  {
    [1, 0] + id
  }

  function EncodeHeader(s: State): (h: Option<bytes>)
    requires |s.id| == 32
    ensures h.Some? ==> |h.value| == HEADER
  {
    match EncodePhase(s.phase)
    case None => None
    case Some(b) => Some(HeaderPrefix(s.id) + [b] + [ActionByte(s.last)]
      + ToLittleEndian(s.wager1, 8) + ToLittleEndian(s.wager2, 8) + ToLittleEndian(s.deadline, 8))
  }

  /** The shares of some slots, one after another. */
  function Join(shares: seq<bytes>, slots: seq<nat>): (b: bytes)
    requires forall i | 0 <= i < |slots| :: slots[i] < |shares|
  {
    if slots == [] then [] else shares[slots[0]] + Join(shares, slots[1..])
  }

  function SharePacket(s: State, packet: nat): (b: bytes)
    requires |s.shares| == SLOTS && 1 <= packet <= 3
  {
    Join(s.shares, PacketSlots(packet))
  }

  predicate Holds(packets: Packets, kind: int, b: bytes) { kind in packets && packets[kind] == b }

  /** The four state packets of `s` are among `packets`. */
  predicate Carries(packets: Packets, s: State)
    requires WellFormed(s)
  {
    && EncodeHeader(s).Some?
    && Holds(packets, TYPE_STATE, EncodeHeader(s).value)
    && CarriesShares(packets, s)
  }

  predicate CarriesShares(packets: Packets, s: State)
    requires WellFormed(s)
  {
    forall k | 1 <= k <= 3 :: Holds(packets, TYPE_STATE + k, SharePacket(s, k))
  }
}
