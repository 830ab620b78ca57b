/** The saved spend's encoding: every optional part present exactly when its kind says so, and read back equal. */
module SavedWork {
  import opened Bytes
  import opened Codecs
  import Events
  import Reducer
  import opened Options

  datatype Outpoint = Outpoint(hash: bytes, index: nat)
  datatype Leaf = Leaf(version: nat, script: bytes)

  /** A wallet coin with everything needed to sign its selected path. */
  datatype Source = Source(
    point: Outpoint, amount: nat, previous: bytes, pathType: nat, control: bytes, script: bytes, leaves: seq<Leaf>,
    root: bytes, outputKey: Option<bytes>, tapscripts: seq<bytes>)

  datatype Coins = Coins(inputs: seq<Source>, change: Option<(nat, bytes)>)
  datatype Shares = Shares(kind: nat, cards: seq<(bytes, bytes)>)
  datatype Claimed = Claimed(cards: bytes, rank1: nat, proof1: bytes, rank2: nat, proof2: bytes)

  /** Which parts an action has follows from its kind. */
  datatype Work = Work(
    kind: nat, bet: Option<(nat, nat)>, coins: Option<Coins>, shares: Option<Shares>, claimed: Option<Claimed>,
    at: Option<nat>)

  datatype Bundle = Bundle(ark: bytes, checkpoints: seq<bytes>)

  datatype Saved = Saved(
    route: nat, source: Option<Outpoint>, walletSources: seq<Outpoint>, action: Work, prepared: Bundle,
    signed: Option<Bundle>)

  /** Which byte strings are canonical transactions, control blocks, points, proofs and texts, and which bundles hold
      transactions. */
  datatype Canonical = Canonical(
    transaction: bytes -> bool, control: bytes -> bool, point: bytes -> bool, proof: bytes -> bool, path: bytes -> bool,
    text: bytes -> bool, parses: Bundle -> bool)

  const MAX_EVENT: nat := 0x40_0000
  const MAX_SCRIPT: nat := 10000

  // ---------- Small parts ----------

  /** Exactly `n` values, the number known from elsewhere. */
  function Repeat<T(!new)>(n: nat, c: Codec<T>): (d: Codec<seq<T>>) {
    Codec((s: seq<T>) => |s| == n && AllValid(c, s), (s: seq<T>) => PutAll(c, s), (data: bytes) => TakeAll(c, n, data))
  }

  lemma RepeatLawful<T(!new)>(n: nat, c: Codec<T>)
    requires Lawful(c)
    ensures Lawful(Repeat(n, c))
  {
    var d := Repeat(n, c);
    forall s: seq<T>, rest | d.valid(s)
      ensures d.take(d.put(s) + rest) == Some((s, rest))
    {
      TakesAll(c, s, rest);
    }
    forall data | d.take(data).Some?
      ensures d.valid(d.take(data).value.0) && data == d.put(d.take(data).value.0) + d.take(data).value.1
    {
      PutsAll(c, n, data);
    }
  }

  /** A part that is there exactly when it should be, with nothing written otherwise. */
  function Given<T(!new)>(present: bool, c: Codec<T>): (d: Codec<Option<T>>) {
    Codec((v: Option<T>) => v.Some? == present && (v.Some? ==> c.valid(v.value)),
          (v: Option<T>) => match v case None => [] case Some(x) => c.put(x),
          (data: bytes) =>
            if !present then Some((None, data))
            else match c.take(data) case None => None case Some((x, rest)) => Some((Some(x), rest)))
  }

  lemma GivenLawful<T(!new)>(present: bool, c: Codec<T>)
    requires Lawful(c)
    ensures Lawful(Given(present, c))
  {
    var d := Given(present, c);
    forall v: Option<T>, rest | d.valid(v)
      ensures d.take(d.put(v) + rest) == Some((v, rest))
    {
      if v.Some? {
        Reads(c, v.value, rest);
      } else {
        assert d.put(v) + rest == rest;
      }
    }
    forall data | d.take(data).Some?
      ensures d.valid(d.take(data).value.0) && data == d.put(d.take(data).value.0) + d.take(data).value.1
    {
      assert [] + data == data;
    }
  }

  function OutpointCodec(): (c: Codec<Outpoint>) {
    Convert(Both(Fixed(32), Unsigned(4)), (p: Outpoint) => true, (v: (bytes, nat)) => Outpoint(v.0, v.1),
            (p: Outpoint) => (p.hash, p.index))
  }

  lemma OutpointLawful()
    ensures Lawful(OutpointCodec())
  {
    FixedLawful(32);
    UnsignedLawful(4);
    BothLawful(Fixed(32), Unsigned(4));
    ConvertLawful(Both(Fixed(32), Unsigned(4)), (p: Outpoint) => true, (v: (bytes, nat)) => Outpoint(v.0, v.1),
                  (p: Outpoint) => (p.hash, p.index));
  }

  function LeafCodec(): (c: Codec<Leaf>) {
    Convert(Both(Unsigned(1), Blob(MAX_SCRIPT)), (l: Leaf) => true, (v: (nat, bytes)) => Leaf(v.0, v.1),
            (l: Leaf) => (l.version, l.script))
  }

  lemma LeafLawful()
    ensures Lawful(LeafCodec())
  {
    UnsignedLawful(1);
    BlobLawful(MAX_SCRIPT);
    BothLawful(Unsigned(1), Blob(MAX_SCRIPT));
    ConvertLawful(Both(Unsigned(1), Blob(MAX_SCRIPT)), (l: Leaf) => true, (v: (nat, bytes)) => Leaf(v.0, v.1),
                  (l: Leaf) => (l.version, l.script));
  }

  // ---------- Coins ----------

  type Path = (nat, (bytes, (bytes, (seq<Leaf>, (bytes, (Option<bytes>, seq<bytes>))))))

  function PathCodec(k: Canonical): (c: Codec<Path>) {
    Both(Unsigned(1), Both(Only(Blob(MAX_SCRIPT), k.control), Both(Blob(MAX_SCRIPT), Both(List(256, LeafCodec()),
      Both(Blob(32), Both(Optional(Only(Fixed(33), k.point)), List(256, Only(Blob(2 * MAX_SCRIPT), k.text))))))))
  }

  lemma PathLawful(k: Canonical)
    ensures Lawful(PathCodec(k))
  {
    var control, key, text := Only(Blob(MAX_SCRIPT), k.control), Only(Fixed(33), k.point),
      Only(Blob(2 * MAX_SCRIPT), k.text);
    UnsignedLawful(1);
    BlobLawful(MAX_SCRIPT);
    BlobLawful(32);
    BlobLawful(2 * MAX_SCRIPT);
    FixedLawful(33);
    LeafLawful();
    OnlyLawful(Blob(MAX_SCRIPT), k.control);
    OnlyLawful(Fixed(33), k.point);
    OnlyLawful(Blob(2 * MAX_SCRIPT), k.text);
    OptionalLawful(key);
    ListLawful(256, text);
    ListLawful(256, LeafCodec());
    var end := Both(Optional(key), List(256, text));
    BothLawful(Optional(key), List(256, text));
    BothLawful(Blob(32), end);
    BothLawful(List(256, LeafCodec()), Both(Blob(32), end));
    BothLawful(Blob(MAX_SCRIPT), Both(List(256, LeafCodec()), Both(Blob(32), end)));
    BothLawful(control, Both(Blob(MAX_SCRIPT), Both(List(256, LeafCodec()), Both(Blob(32), end))));
    BothLawful(Unsigned(1), Both(control, Both(Blob(MAX_SCRIPT), Both(List(256, LeafCodec()), Both(Blob(32), end)))));
  }

  function SourceCodec(k: Canonical): (c: Codec<Source>) {
    Convert(Both(OutpointCodec(), Both(Unsigned(8), Both(Only(Blob(MAX_EVENT), k.transaction), PathCodec(k)))),
            (s: Source) => true, ToSource, FromSource)
  }

  function ToSource(v: (Outpoint, (nat, (bytes, Path)))): (s: Source) {
    var p := v.1.1.1;
    Source(v.0, v.1.0, v.1.1.0, p.0, p.1.0, p.1.1.0, p.1.1.1.0, p.1.1.1.1.0, p.1.1.1.1.1.0, p.1.1.1.1.1.1)
  }

  function FromSource(s: Source): (v: (Outpoint, (nat, (bytes, Path)))) {
    (s.point,
     (s.amount, (s.previous, (s.pathType, (s.control, (s.script, (s.leaves, (s.root, (s.outputKey, s.tapscripts)))))))))
  }

  lemma SourceLawful(k: Canonical)
    ensures Lawful(SourceCodec(k))
  {
    hide PathCodec;
    OutpointLawful();
    UnsignedLawful(8);
    BlobLawful(MAX_EVENT);
    OnlyLawful(Blob(MAX_EVENT), k.transaction);
    PathLawful(k);
    var inner := Both(Only(Blob(MAX_EVENT), k.transaction), PathCodec(k));
    BothLawful(Only(Blob(MAX_EVENT), k.transaction), PathCodec(k));
    BothLawful(Unsigned(8), inner);
    BothLawful(OutpointCodec(), Both(Unsigned(8), inner));
    ConvertLawful(Both(OutpointCodec(), Both(Unsigned(8), inner)), (s: Source) => true, ToSource, FromSource);
  }

  function CoinsCodec(k: Canonical): (c: Codec<Coins>) {
    Convert(Both(List(255, SourceCodec(k)), Optional(Both(Unsigned(8), Blob(MAX_SCRIPT)))), (c: Coins) => true,
            (v: (seq<Source>, Option<(nat, bytes)>)) => Coins(v.0, v.1), (c: Coins) => (c.inputs, c.change))
  }

  lemma CoinsLawful(k: Canonical)
    ensures Lawful(CoinsCodec(k))
  {
    hide SourceCodec;
    SourceLawful(k);
    ListLawful(255, SourceCodec(k));
    UnsignedLawful(8);
    BlobLawful(MAX_SCRIPT);
    BothLawful(Unsigned(8), Blob(MAX_SCRIPT));
    OptionalLawful(Both(Unsigned(8), Blob(MAX_SCRIPT)));
    BothLawful(List(255, SourceCodec(k)), Optional(Both(Unsigned(8), Blob(MAX_SCRIPT))));
    ConvertLawful(Both(List(255, SourceCodec(k)), Optional(Both(Unsigned(8), Blob(MAX_SCRIPT)))), (c: Coins) => true,
                  (v: (seq<Source>, Option<(nat, bytes)>)) => Coins(v.0, v.1), (c: Coins) => (c.inputs, c.change));
  }

  // ---------- Shares and claims ----------

  /** How many cards a reveal of each kind carries; none for an unknown kind. */
  function CardsOf(kind: nat): (n: nat) {
    if kind == 1 || kind == 5 then 2 else if kind == 2 then 3 else if kind == 3 || kind == 4 then 1
    else if kind == 6 then 7 else if kind == 7 then 4 else if kind == 8 then 3 else 0
  }

  function SharesCodec(k: Canonical): (c: Codec<Shares>) {
    Convert(Select(Only(Unsigned(1), (n: nat) => CardsOf(n) > 0),
                   (n: nat) => Repeat(CardsOf(n), Both(Only(Fixed(33), k.point), Only(Fixed(98), k.proof)))),
            (s: Shares) => true, (v: (nat, seq<(bytes, bytes)>)) => Shares(v.0, v.1), (s: Shares) => (s.kind, s.cards))
  }

  lemma SharesLawful(k: Canonical)
    ensures Lawful(SharesCodec(k))
  {
    FixedLawful(33);
    FixedLawful(98);
    OnlyLawful(Fixed(33), k.point);
    OnlyLawful(Fixed(98), k.proof);
    var card := Both(Only(Fixed(33), k.point), Only(Fixed(98), k.proof));
    BothLawful(Only(Fixed(33), k.point), Only(Fixed(98), k.proof));
    UnsignedLawful(1);
    OnlyLawful(Unsigned(1), (n: nat) => CardsOf(n) > 0);
    forall n: nat
      ensures Lawful(Repeat(CardsOf(n), card))
    {
      RepeatLawful(CardsOf(n), card);
    }
    var branch := (n: nat) => Repeat(CardsOf(n), Both(Only(Fixed(33), k.point), Only(Fixed(98), k.proof)));
    SelectLawful(Only(Unsigned(1), (n: nat) => CardsOf(n) > 0), branch);
    ConvertLawful(Select(Only(Unsigned(1), (n: nat) => CardsOf(n) > 0), branch), (s: Shares) => true,
                  (v: (nat, seq<(bytes, bytes)>)) => Shares(v.0, v.1), (s: Shares) => (s.kind, s.cards));
  }

  /** Nine cards, then each player's rank and 27 digests. */
  function ClaimCodec(k: Canonical): (c: Codec<Claimed>) {
    Convert(Both(Fixed(9),
                 Both(Both(Unsigned(2), Only(Fixed(864), k.path)), Both(Unsigned(2), Only(Fixed(864), k.path)))),
            (c: Claimed) => true,
            (v: (bytes, ((nat, bytes), (nat, bytes)))) => Claimed(v.0, v.1.0.0, v.1.0.1, v.1.1.0, v.1.1.1),
            (c: Claimed) => (c.cards, ((c.rank1, c.proof1), (c.rank2, c.proof2))))
  }

  lemma ClaimLawful(k: Canonical)
    ensures Lawful(ClaimCodec(k))
  {
    FixedLawful(9);
    UnsignedLawful(2);
    FixedLawful(864);
    OnlyLawful(Fixed(864), k.path);
    var side := Both(Unsigned(2), Only(Fixed(864), k.path));
    BothLawful(Unsigned(2), Only(Fixed(864), k.path));
    BothLawful(side, side);
    BothLawful(Fixed(9), Both(side, side));
    ConvertLawful(Both(Fixed(9), Both(side, side)), (c: Claimed) => true,
                  (v: (bytes, ((nat, bytes), (nat, bytes)))) => Claimed(v.0, v.1.0.0, v.1.0.1, v.1.1.0, v.1.1.1),
                  (c: Claimed) => (c.cards, ((c.rank1, c.proof1), (c.rank2, c.proof2))));
  }

  // ---------- Actions ----------

  /** Deposit 1, funding 2, opening 3, betting 4, board 5, holes 6, all-in call 7, all-in reveal 8, concession 9,
      timeout 10, showdown 11. */
  predicate KnownKind(n: nat) { 1 <= n <= 11 }

  predicate HasBet(n: nat) { n == 3 || n == 4 }

  predicate HasCoins(n: nat) { 1 <= n <= 4 || n == 7 }

  predicate HasShares(n: nat) { n == 2 || n == 3 || 5 <= n <= 8 }

  predicate IsTimed(n: nat) { n == 10 || n == 11 }

  type Parts = (Option<(nat, nat)>, (Option<Coins>, (Option<Shares>, (Option<Claimed>, Option<nat>))))

  /** Check 1, call 2, raise 3; only a raise has an amount. Checked when encoding only. */
  predicate BetFits(b: (nat, nat)) { 1 <= b.0 <= 3 && (b.0 != 3 ==> b.1 == 0) }

  function PartsCodec(k: Canonical, n: nat): (c: Codec<Parts>) {
    Both(Given(HasBet(n), Both(Unsigned(1), Unsigned(8))), Both(Given(HasCoins(n), CoinsCodec(k)),
      Both(Given(HasShares(n), SharesCodec(k)), Both(Given(n == 11, ClaimCodec(k)), Given(IsTimed(n), Unsigned(8))))))
  }

  lemma PartsLawful(k: Canonical, n: nat)
    ensures Lawful(PartsCodec(k, n))
  {
    hide CoinsCodec, SharesCodec, ClaimCodec;
    UnsignedLawful(1);
    UnsignedLawful(8);
    BothLawful(Unsigned(1), Unsigned(8));
    CoinsLawful(k);
    SharesLawful(k);
    ClaimLawful(k);
    var bet, coins := Given(HasBet(n), Both(Unsigned(1), Unsigned(8))), Given(HasCoins(n), CoinsCodec(k));
    var shares, claim, at := Given(HasShares(n), SharesCodec(k)), Given(n == 11, ClaimCodec(k)),
      Given(IsTimed(n), Unsigned(8));
    GivenLawful(HasBet(n), Both(Unsigned(1), Unsigned(8)));
    GivenLawful(HasCoins(n), CoinsCodec(k));
    GivenLawful(HasShares(n), SharesCodec(k));
    GivenLawful(n == 11, ClaimCodec(k));
    GivenLawful(IsTimed(n), Unsigned(8));
    BothLawful(claim, at);
    BothLawful(shares, Both(claim, at));
    BothLawful(coins, Both(shares, Both(claim, at)));
    BothLawful(bet, Both(coins, Both(shares, Both(claim, at))));
  }

  function WorkCodec(k: Canonical): (c: Codec<Work>) {
    Convert(Select(Unsigned(1), (n: nat) => PartsCodec(k, n)), (w: Work) => true, ToWork, FromWork)
  }

  function ToWork(v: (nat, Parts)): (w: Work) { Work(v.0, v.1.0, v.1.1.0, v.1.1.1.0, v.1.1.1.1.0, v.1.1.1.1.1) }

  function FromWork(w: Work): (v: (nat, Parts)) { (w.kind, (w.bet, (w.coins, (w.shares, (w.claimed, w.at))))) }

  lemma WorkLawful(k: Canonical)
    ensures Lawful(WorkCodec(k))
  {
    hide PartsCodec;
    UnsignedLawful(1);
    var branch := (n: nat) => PartsCodec(k, n);
    forall n: nat
      ensures Lawful(branch(n))
    {
      PartsLawful(k, n);
    }
    SelectLawful(Unsigned(1), branch);
    ConvertLawful(Select(Unsigned(1), branch), (w: Work) => true, ToWork, FromWork);
  }

  // ---------- The saved spend ----------

  function BundleCodec(k: Canonical): (c: Codec<Bundle>) {
    Convert(Both(Only(Blob(MAX_EVENT), k.text), List(256, Only(Blob(MAX_EVENT), k.text))), (b: Bundle) => true,
            (v: (bytes, seq<bytes>)) => Bundle(v.0, v.1), (b: Bundle) => (b.ark, b.checkpoints))
  }

  lemma BundleLawful(k: Canonical)
    ensures Lawful(BundleCodec(k))
  {
    var text := Only(Blob(MAX_EVENT), k.text);
    BlobLawful(MAX_EVENT);
    OnlyLawful(Blob(MAX_EVENT), k.text);
    ListLawful(256, text);
    BothLawful(text, List(256, text));
    ConvertLawful(Both(text, List(256, text)), (b: Bundle) => true,
                  (v: (bytes, seq<bytes>)) => Bundle(v.0, v.1), (b: Bundle) => (b.ark, b.checkpoints));
  }

  type SavedParts = (nat, (Option<Outpoint>, (seq<Outpoint>, (Work, (Bundle, Option<Bundle>)))))

  function SavedCodec(k: Canonical): (c: Codec<Saved>) {
    Convert(Both(Unsigned(1), Both(Optional(OutpointCodec()), Both(List(255, OutpointCodec()),
              Both(WorkCodec(k), Both(BundleCodec(k), Optional(BundleCodec(k))))))),
            (s: Saved) => true, ToSaved, FromSaved)
  }

  function ToSaved(v: SavedParts): (s: Saved) { Saved(v.0, v.1.0, v.1.1.0, v.1.1.1.0, v.1.1.1.1.0, v.1.1.1.1.1) }

  function FromSaved(s: Saved): (v: SavedParts) {
    (s.route, (s.source, (s.walletSources, (s.action, (s.prepared, s.signed)))))
  }

  lemma SavedLawful(k: Canonical)
    ensures Lawful(SavedCodec(k))
  {
    hide OutpointCodec, WorkCodec, BundleCodec;
    UnsignedLawful(1);
    OutpointLawful();
    WorkLawful(k);
    BundleLawful(k);
    OptionalLawful(OutpointCodec());
    ListLawful(255, OutpointCodec());
    OptionalLawful(BundleCodec(k));
    var end := Both(WorkCodec(k), Both(BundleCodec(k), Optional(BundleCodec(k))));
    BothLawful(BundleCodec(k), Optional(BundleCodec(k)));
    BothLawful(WorkCodec(k), Both(BundleCodec(k), Optional(BundleCodec(k))));
    BothLawful(List(255, OutpointCodec()), end);
    BothLawful(Optional(OutpointCodec()), Both(List(255, OutpointCodec()), end));
    BothLawful(Unsigned(1), Both(Optional(OutpointCodec()), Both(List(255, OutpointCodec()), end)));
    ConvertLawful(Both(Unsigned(1), Both(Optional(OutpointCodec()), Both(List(255, OutpointCodec()), end))),
                  (s: Saved) => true, ToSaved, FromSaved);
  }

  /** What the encoder insists on and the decoder does not look at. */
  predicate Encodable(k: Canonical, s: Saved) {
    && KnownKind(s.action.kind) && (s.action.bet.Some? ==> BetFits(s.action.bet.value))
    && k.parses(s.prepared) && (s.signed.Some? ==> k.parses(s.signed.value))
  }

  function Encode(k: Canonical, s: Saved): (b: Option<bytes>) {
    if SavedCodec(k).valid(s) && Encodable(k, s) then Some(SavedCodec(k).put(s)) else None
  }

  /** The decoder alone: every byte must be used. */
  function DecodeSaved(k: Canonical, b: bytes): (s: Option<Saved>) {
    match SavedCodec(k).take(b) case None => None case Some((s, rest)) => if rest == [] then Some(s) else None
  }

  /** A spend inside an event: decoded, encoded again and compared. */
  function Decode(k: Canonical, b: bytes): (s: Option<Saved>) {
    match DecodeSaved(k, b) case None => None case Some(s) => if Encode(k, s) == Some(b) then Some(s) else None
  }

  /** The copy handed out for submission, made through its bytes. */
  function PendingSpend(k: Canonical, s: Saved): (copy: Option<Saved>) {
    match Encode(k, s) case None => None case Some(b) => DecodeSaved(k, b)
  }

  lemma DecodesWritten(k: Canonical, s: Saved, b: bytes)
    ensures DecodeSaved(k, b) == Some(s) <==> SavedCodec(k).valid(s) && b == SavedCodec(k).put(s)
  {
    hide SavedCodec;
    var c := SavedCodec(k);
    SavedLawful(k);
    if c.valid(s) && b == c.put(s) {
      Reads(c, s, []);
      assert b + [] == b;
    }
    if DecodeSaved(k, b) == Some(s) {
      assert c.put(s) + [] == c.put(s);
    }
  }

  /** An event's bytes are read as a saved spend exactly when they are its encoding. Of what the field decoder alone
      reads, those are exactly the spends of a known kind whose bet fits it and whose bundles parse. */
  lemma SavedSpendCodec(k: Canonical, s: Saved, b: bytes)
    ensures Decode(k, b) == Some(s) <==> Encode(k, s) == Some(b)
    ensures DecodeSaved(k, b) == Some(s) ==> (Encode(k, s) == Some(b) <==> Encodable(k, s))
  {
    hide SavedCodec, Encodable;
    DecodesWritten(k, s, b);
  }

  /** A spend of the given action with nothing else in it. */
  function Bare(w: Work): (s: Saved) { Saved(0, None, [], w, Bundle([], []), None) }

  /** An action of no known kind. */
  function NoKind(): (w: Work) { Work(0, None, None, None, None, None) }

  /** A bet that is neither check, call nor raise. */
  function NoBet(): (w: Work) { Work(4, Some((4, 0)), Some(Coins([], None)), None, None, None) }

  /** A concession, which has no parts. */
  function NoParts(): (w: Work) { Work(9, None, None, None, None, None) }

  /** What the encoder refuses to write for its kind, its bet, or bundles that hold no transaction. */
  predicate Unwritable(k: Canonical, w: Work) {
    w == NoKind() || w == NoBet() || (w == NoParts() && !k.parses(Bundle([], [])))
  }

  /** The field decoder reads each of them back. */
  lemma FieldDecoderIsLenient(k: Canonical, w: Work)
    requires k.text([]) && Unwritable(k, w)
    ensures var b := SavedCodec(k).put(Bare(w));
      DecodeSaved(k, b) == Some(Bare(w)) && Encode(k, Bare(w)).None? && Decode(k, b).None?
  {
    hide SavedCodec;
    BareIsValid(k, w);
    DecodesWritten(k, Bare(w), SavedCodec(k).put(Bare(w)));
  }

  lemma BareIsValid(k: Canonical, w: Work)
    requires k.text([]) && Unwritable(k, w)
    ensures SavedCodec(k).valid(Bare(w))
  {
    hide WorkCodec, BundleCodec, OutpointCodec, List, Pow256;
    PowersOf256();
    WorkIsValid(k, w);
    EmptyBundle(k);
    EmptyList(255, OutpointCodec());
    var end: (Bundle, Option<Bundle>) := (Bundle([], []), None);
    assert Both(BundleCodec(k), Optional(BundleCodec(k))).valid(end);
    assert Both(WorkCodec(k), Both(BundleCodec(k), Optional(BundleCodec(k)))).valid((w, end));
    assert FromSaved(Bare(w)) == (0, (None, ([], (w, end))));
  }

  lemma PowersOf256()
    ensures Pow256(1) == 256 && Pow256(4) > 255 && Pow256(8) > 255
  {
  }

  lemma EmptyList<T(!new)>(n: nat, c: Codec<T>)
    ensures List(n, c).valid([])
  {
  }

  lemma EmptyBundle(k: Canonical)
    requires k.text([])
    ensures BundleCodec(k).valid(Bundle([], []))
  {
    hide List, Pow256;
    PowersOf256();
    EmptyList(256, Only(Blob(MAX_EVENT), k.text));
  }

  lemma WorkIsValid(k: Canonical, w: Work)
    requires w == NoKind() || w == NoBet() || w == NoParts()
    ensures WorkCodec(k).valid(w)
  {
    hide CoinsCodec, SharesCodec, ClaimCodec, Pow256;
    PowersOf256();
    NoCoins(k);
    assert PartsCodec(k, w.kind).valid(FromWork(w).1);
  }

  lemma NoCoins(k: Canonical)
    ensures CoinsCodec(k).valid(Coins([], None))
  {
    hide SourceCodec, List;
    EmptyList(255, SourceCodec(k));
  }

  /** Work that can be encoded is handed out as an equal copy. */
  lemma PendingSpendIsEqual(k: Canonical, s: Saved)
    ensures PendingSpend(k, s) == if Encode(k, s).Some? then Some(s) else None
  {
    hide SavedCodec, DecodeSaved, Encodable;
    if Encode(k, s).Some? {
      DecodesWritten(k, s, Encode(k, s).value);
    }
  }

  /** Comparing bytes with the signatures left out compares everything else exactly. */
  lemma SameBytesSameWork(k: Canonical, a: Saved, b: Saved)
    requires Encode(k, a.(signed := None)).Some?
    ensures Encode(k, a.(signed := None)) == Encode(k, b.(signed := None)) <==> a.(signed := None) == b.(signed := None)
  {
    hide SavedCodec, Encode, Decode;
    if Encode(k, a.(signed := None)) == Encode(k, b.(signed := None)) {
      var bytes := Encode(k, a.(signed := None)).value;
      SavedSpendCodec(k, a.(signed := None), bytes);
      SavedSpendCodec(k, b.(signed := None), bytes);
    }
  }

  // ---------- The reducer's spend ----------

  /** How the reducer sees an action and a bundle. */
  datatype View = View(action: Work -> Events.Action, bundle: Bundle -> bytes)

  /** The spend the reducer carries. */
  function Carried(v: View, s: Saved): (r: Events.SavedSpend) {
    Events.SavedSpend(
      v.action(s.action), if s.route == 1 then Events.ToArkd else Events.ToEmulator,
      match s.source case None => None case Some(p) => Some(p.hash),
      v.bundle(s.prepared), match s.signed case None => None case Some(b) => Some(v.bundle(b)))
  }

  /** The reducer's comparison of prepared work is implied by the program's comparison of bytes, and the copy handed out
      is the spend the reducer carries. */
  lemma CarriedAlike(k: Canonical, v: View, a: Saved, b: Saved)
    requires Encode(k, a.(signed := None)).Some?
    ensures Encode(k, a.(signed := None)) == Encode(k, b.(signed := None)) ==>
      Reducer.SameSaved(Carried(v, a), Carried(v, b))
    ensures Encode(k, a).Some? ==> PendingSpend(k, a).Some? && Carried(v, PendingSpend(k, a).value) == Carried(v, a)
  {
    hide Encode, PendingSpend;
    PendingSpendIsEqual(k, a);
    SameBytesSameWork(k, a, b);
    if a.(signed := None) == b.(signed := None) {
      assert a.route == b.route && a.source == b.source && a.action == b.action && a.prepared == b.prepared;
    }
  }
}
