/** Invitations, protocol messages and what they bind: canonical bytes, session ids and shuffle contexts. */
module Messages {
  import opened Bytes
  import opened Hand
  import opened Codecs
  import opened Options

  /** Which byte strings are canonical group elements and proofs. */
  datatype Formats = Formats(
    xonly: bytes -> bool, point: bytes -> bool, ownership: bytes -> bool, deck: bytes -> bool, shuffle: bytes -> bool,
    relay: bytes -> bool)

  type Hash = bytes -> bytes

  /** Two inputs the hash tells apart, unless they are the same. */
  predicate Distinguishes(h: Hash, a: bytes, b: bytes) { h(a) == h(b) ==> a == b }

  const MAX_MESSAGE: nat := 65536
  const MAX_SCRIPT: nat := 10000
  const MAX_RELAY: nat := 2048
  const DECK_BYTES: nat := 3432

  /** Domain strings with their version, as bytes. */
  datatype Domain = InvitationDomain | MessageDomain | ServicesDomain | OwnershipDomain | SessionDomain | ShuffleDomain

  function Header(d: Domain): (b: bytes) {
    match d
    case InvitationDomain => Ascii("arkade-poker/invitation") + [0, 1, 0]
    case MessageDomain => Ascii("arkade-poker/message") + [0, 1, 0]
    case ServicesDomain => Ascii("arkade-poker/services") + [0, 1, 0]
    case OwnershipDomain => Ascii("arkade-poker/ownership") + [0, 1, 0]
    case SessionDomain => Ascii("arkade-poker/session/v1")
    case ShuffleDomain => Ascii("arkade-poker/shuffle/v1")
  }

  function Ascii(s: string): (b: bytes)
    ensures |b| == |s|
  {
    seq(|s|, i requires 0 <= i < |s| => s[i] as int % 256)
  }

  // ---------- Invitations ----------

  datatype Terms = Terms(stake: int, bond: int, minBet: int, maxWager: int)

  predicate ValidTerms(t: Terms) {
    && 0 < t.stake <= MAX_MONEY && 0 < t.bond <= MAX_MONEY && 0 < t.minBet <= MAX_MONEY && 0 < t.maxWager <= MAX_MONEY
    && t.minBet <= t.maxWager && 2 * (t.stake + t.bond + t.maxWager) <= MAX_MONEY
  }

  datatype Offer = Offer(terms: Terms, services: bytes, creator: bytes, capability: bytes, relay: bytes)
  datatype Invitation = Invitation(session: bytes, offer: Offer)

  function TermsCodec(): (c: Codec<Terms>) {
    var n := Unsigned(8);
    Convert(Both(Both(n, n), Both(n, n)), (t: Terms) => ValidTerms(t),
            (v: ((nat, nat), (nat, nat))) => Terms(v.0.0, v.0.1, v.1.0, v.1.1),
            (t: Terms) => ((Natural(t.stake), Natural(t.bond)), (Natural(t.minBet), Natural(t.maxWager))))
  }

  function Natural(i: int): (n: nat) { if i < 0 then 0 else i }

  lemma TermsLawful()
    ensures Lawful(TermsCodec())
  {
    var n := Unsigned(8);
    UnsignedLawful(8);
    BothLawful(n, n);
    BothLawful(Both(n, n), Both(n, n));
    ConvertLawful(Both(Both(n, n), Both(n, n)), (t: Terms) => ValidTerms(t),
                  (v: ((nat, nat), (nat, nat))) => Terms(v.0.0, v.0.1, v.1.0, v.1.1),
                  (t: Terms) => ((Natural(t.stake), Natural(t.bond)), (Natural(t.minBet), Natural(t.maxWager))));
  }

  function OfferCodec(f: Formats): (c: Codec<(bytes, (Terms, (bytes, (bytes, (bytes, bytes)))))>) {
    Both(Literal(Header(InvitationDomain)), Both(TermsCodec(), Both(Fixed(32), Both(Only(Fixed(32), f.xonly),
      Both(Fixed(32), Only(Blob(MAX_RELAY), f.relay))))))
  }

  lemma OfferLawful(f: Formats)
    ensures Lawful(OfferCodec(f))
  {
    LiteralLawful(Header(InvitationDomain));
    TermsLawful();
    FixedLawful(32);
    OnlyLawful(Fixed(32), f.xonly);
    BlobLawful(MAX_RELAY);
    OnlyLawful(Blob(MAX_RELAY), f.relay);
    BothLawful(Fixed(32), Only(Blob(MAX_RELAY), f.relay));
    BothLawful(Only(Fixed(32), f.xonly), Both(Fixed(32), Only(Blob(MAX_RELAY), f.relay)));
    BothLawful(Fixed(32), Both(Only(Fixed(32), f.xonly), Both(Fixed(32), Only(Blob(MAX_RELAY), f.relay))));
    BothLawful(TermsCodec(),
               Both(Fixed(32), Both(Only(Fixed(32), f.xonly), Both(Fixed(32), Only(Blob(MAX_RELAY), f.relay)))));
    BothLawful(Literal(Header(InvitationDomain)), Both(TermsCodec(), Both(Fixed(32), Both(Only(Fixed(32), f.xonly),
      Both(Fixed(32), Only(Blob(MAX_RELAY), f.relay))))));
  }

  function OfferFields(o: Offer): (v: (bytes, (Terms, (bytes, (bytes, (bytes, bytes)))))) {
    (Header(InvitationDomain), (o.terms, (o.services, (o.creator, (o.capability, o.relay)))))
  }

  predicate ValidOffer(f: Formats, o: Offer) { OfferCodec(f).valid(OfferFields(o)) }

  /** The committed bytes: every field, then their checksum. */
  function OfferBytes(f: Formats, h: Hash, o: Offer): (b: Option<bytes>) {
    if !ValidOffer(f, o) then None else var body := OfferCodec(f).put(OfferFields(o)); Some(body + h(body))
  }

  function SessionOf(f: Formats, h: Hash, o: Offer): (id: Option<bytes>) {
    match OfferBytes(f, h, o) case None => None case Some(b) => Some(h(Header(SessionDomain) + b))
  }

  // ---------- Messages ----------

  datatype Participant = Participant(signing: bytes, encryption: bytes, payout: bytes)

  datatype Content =
    | Keys(participant: Participant, ownership: bytes, walletOwnership: bytes)
    | Cards(deck: bytes, proof: bytes, deadline: nat)

  datatype Kind = KeyOffer | KeyReply | InitialShuffle | FinalShuffle

  datatype Message = Message(session: bytes, sequence: nat, sender: Player, identity: bytes, kind: Kind,
                             content: Content)

  function KindByte(k: Kind): (b: byte) {
    match k case KeyOffer => 1 case KeyReply => 2 case InitialShuffle => 3 case FinalShuffle => 4
  }

  function KindCodec(): (c: Codec<Kind>) {
    Convert(Fixed(1), (k: Kind) => true,
            (b: bytes) => if b == [1] then KeyOffer else if b == [2] then KeyReply else if b == [3] then InitialShuffle
              else FinalShuffle,
            (k: Kind) => [KindByte(k)])
  }

  lemma KindLawful()
    ensures Lawful(KindCodec())
  {
    FixedLawful(1);
    ConvertLawful(Fixed(1), (k: Kind) => true,
      (b: bytes) => if b == [1] then KeyOffer else if b == [2] then KeyReply else if b == [3] then InitialShuffle
        else FinalShuffle,
      (k: Kind) => [KindByte(k)]);
  }

  function SenderCodec(): (c: Codec<Player>) {
    Convert(Fixed(1), (p: Player) => true, (b: bytes) => if b == [1] then Player1 else Player2,
            (p: Player) => [Index(p) + 1])
  }

  lemma SenderLawful()
    ensures Lawful(SenderCodec())
  {
    FixedLawful(1);
    ConvertLawful(Fixed(1), (p: Player) => true, (b: bytes) => if b == [1] then Player1 else Player2,
                  (p: Player) => [Index(p) + 1]);
  }

  function KeysCodec(f: Formats): (c: Codec<Content>) {
    Convert(Both(Only(Fixed(32), f.xonly),
                 Both(Only(Fixed(33), f.point),
                      Both(Blob(MAX_SCRIPT), Both(Only(Fixed(65), f.ownership), Blob(MAX_MESSAGE))))),
            (v: Content) => v.Keys?,
            (v: (bytes, (bytes, (bytes, (bytes, bytes))))) => Keys(Participant(v.0, v.1.0, v.1.1.0), v.1.1.1.0,
                                                                   v.1.1.1.1),
            (v: Content) => if v.Keys?
              then (v.participant.signing,
                    (v.participant.encryption, (v.participant.payout, (v.ownership, v.walletOwnership))))
                            else ([], ([], ([], ([], [])))))
  }

  lemma KeysLawful(f: Formats)
    ensures Lawful(KeysCodec(f))
  {
    var a, b, d := Only(Fixed(32), f.xonly), Only(Fixed(33), f.point), Only(Fixed(65), f.ownership);
    FixedLawful(32);
    FixedLawful(33);
    FixedLawful(65);
    OnlyLawful(Fixed(32), f.xonly);
    OnlyLawful(Fixed(33), f.point);
    OnlyLawful(Fixed(65), f.ownership);
    BlobLawful(MAX_SCRIPT);
    BlobLawful(MAX_MESSAGE);
    BothLawful(d, Blob(MAX_MESSAGE));
    BothLawful(Blob(MAX_SCRIPT), Both(d, Blob(MAX_MESSAGE)));
    BothLawful(b, Both(Blob(MAX_SCRIPT), Both(d, Blob(MAX_MESSAGE))));
    BothLawful(a, Both(b, Both(Blob(MAX_SCRIPT), Both(d, Blob(MAX_MESSAGE)))));
    ConvertLawful(Both(a, Both(b, Both(Blob(MAX_SCRIPT), Both(d, Blob(MAX_MESSAGE))))),
      (v: Content) => v.Keys?,
      (v: (bytes, (bytes, (bytes, (bytes, bytes))))) => Keys(Participant(v.0, v.1.0, v.1.1.0), v.1.1.1.0, v.1.1.1.1),
      (v: Content) => if v.Keys?
        then (v.participant.signing,
              (v.participant.encryption, (v.participant.payout, (v.ownership, v.walletOwnership))))
                      else ([], ([], ([], ([], [])))));
  }

  /** The proof's size follows from the deck's; any size here. Only a final shuffle carries a deadline. */
  function CardsCodec(f: Formats, size: nat, final: bool): (c: Codec<Content>) {
    Convert(Both(Only(Fixed(DECK_BYTES), f.deck), Both(Only(Fixed(size), f.shuffle), Unsigned(if final then 8 else 0))),
            (v: Content) => v.Cards?,
            (v: (bytes, (bytes, nat))) => Cards(v.0, v.1.0, v.1.1),
            (v: Content) => if v.Cards? then (v.deck, (v.proof, v.deadline)) else ([], ([], 0)))
  }

  lemma CardsLawful(f: Formats, size: nat, final: bool)
    ensures Lawful(CardsCodec(f, size, final))
  {
    var a, b, c := Only(Fixed(DECK_BYTES), f.deck), Only(Fixed(size), f.shuffle), Unsigned(if final then 8 else 0);
    FixedLawful(DECK_BYTES);
    FixedLawful(size);
    OnlyLawful(Fixed(DECK_BYTES), f.deck);
    OnlyLawful(Fixed(size), f.shuffle);
    UnsignedLawful(if final then 8 else 0);
    BothLawful(b, c);
    BothLawful(a, Both(b, c));
    ConvertLawful(Both(a, Both(b, c)), (v: Content) => v.Cards?,
      (v: (bytes, (bytes, nat))) => Cards(v.0, v.1.0, v.1.1),
      (v: Content) => if v.Cards? then (v.deck, (v.proof, v.deadline)) else ([], ([], 0)));
  }

  function ContentCodec(f: Formats, size: nat, kind: Kind): (c: Codec<Content>) {
    match kind
    case KeyOffer => KeysCodec(f)
    case KeyReply => KeysCodec(f)
    case InitialShuffle => CardsCodec(f, size, false)
    case FinalShuffle => CardsCodec(f, size, true)
  }

  type Fields = (bytes, (bytes, (Player, (bytes, (nat, (Kind, Content))))))

  function FieldsCodec(f: Formats, size: nat): (c: Codec<Fields>) {
    Both(Literal(Header(MessageDomain)), Both(Fixed(32), Both(SenderCodec(), Both(Only(Fixed(32), f.xonly),
      Both(Unsigned(8), Select(KindCodec(), (k: Kind) => ContentCodec(f, size, k)))))))
  }

  lemma FieldsLawful(f: Formats, size: nat)
    ensures Lawful(FieldsCodec(f, size))
  {
    var branch := (k: Kind) => ContentCodec(f, size, k);
    forall k: Kind
      ensures Lawful(branch(k))
    {
      KeysLawful(f);
      CardsLawful(f, size, k == FinalShuffle);
    }
    KindLawful();
    SelectLawful(KindCodec(), branch);
    var rest := Select(KindCodec(), branch);
    UnsignedLawful(8);
    FixedLawful(32);
    OnlyLawful(Fixed(32), f.xonly);
    SenderLawful();
    LiteralLawful(Header(MessageDomain));
    BothLawful(Unsigned(8), rest);
    BothLawful(Only(Fixed(32), f.xonly), Both(Unsigned(8), rest));
    BothLawful(SenderCodec(), Both(Only(Fixed(32), f.xonly), Both(Unsigned(8), rest)));
    BothLawful(Fixed(32), Both(SenderCodec(), Both(Only(Fixed(32), f.xonly), Both(Unsigned(8), rest))));
    BothLawful(Literal(Header(MessageDomain)),
               Both(Fixed(32), Both(SenderCodec(), Both(Only(Fixed(32), f.xonly), Both(Unsigned(8), rest)))));
  }

  function FieldsOf(m: Message): (v: Fields) {
    (Header(MessageDomain), (m.session, (m.sender, (m.identity, (m.sequence, (m.kind, m.content))))))
  }

  function EncodeMessage(f: Formats, size: nat, m: Message): (b: Option<bytes>) {
    var c := FieldsCodec(f, size);
    if !c.valid(FieldsOf(m)) || |c.put(FieldsOf(m))| > MAX_MESSAGE then None else Some(c.put(FieldsOf(m)))
  }

  /** Every byte must be used, within the limit. */
  function DecodeMessage(f: Formats, size: nat, data: bytes): (m: Option<Message>) {
    if |data| > MAX_MESSAGE then None
    else match FieldsCodec(f, size).take(data)
      case None => None
      case Some((v, rest)) =>
        if rest != [] then None
        else Some(Message(v.1.0, v.1.1.1.1.0, v.1.1.0, v.1.1.1.0, v.1.1.1.1.1.0, v.1.1.1.1.1.1))
  }

  /** Messages round trip: bytes decode to a message exactly when they are its canonical encoding. */
  lemma MessageCodec(f: Formats, size: nat, m: Message, data: bytes)
    ensures DecodeMessage(f, size, data) == Some(m) <==> EncodeMessage(f, size, m) == Some(data)
  {
    hide FieldsCodec;
    var c := FieldsCodec(f, size);
    FieldsLawful(f, size);
    if EncodeMessage(f, size, m) == Some(data) {
      Reads(c, FieldsOf(m), []);
      assert data + [] == data;
    }
    if DecodeMessage(f, size, data) == Some(m) {
      var (v, rest) := c.take(data).value;
      assert c.put(v) + [] == c.put(v);
      HeaderIsLiteral(f, size, v);
      assert v == FieldsOf(m);
    }
  }

  lemma HeaderIsLiteral(f: Formats, size: nat, v: Fields)
    requires FieldsCodec(f, size).valid(v)
    ensures v.0 == Header(MessageDomain)
  {
  }

  // ---------- What a shuffle proof is bound to ----------

  /** The invitation and both players' whole key messages, one after the other. */
  function Transcript(f: Formats, h: Hash, size: nat, o: Offer, keys1: Message, keys2: Message): (b: Option<bytes>) {
    match (OfferBytes(f, h, o), EncodeMessage(f, size, keys1), EncodeMessage(f, size, keys2))
    case (Some(offer), Some(first), Some(second)) => Some(offer + first + second)
    case _ => None
  }

  /** The hashed transcript behind a domain, and a byte for the stage. */
  function ShuffleContext(f: Formats, h: Hash, size: nat, o: Offer, keys1: Message, keys2: Message,
                          final: bool): (b: Option<bytes>) {
    match Transcript(f, h, size, o, keys1, keys2)
    case None => None
    case Some(t) => Some(Header(ShuffleDomain) + h(t) + [if final then 1 else 0])
  }

  /** A checked part and two more, run together, can be told apart. */
  lemma PartsBind<A(!new), B(!new)>(
    ca: Codec<A>, cb: Codec<B>, h: Hash, v: A, x1: B, x2: B, w: A, y1: B, y2: B)
    requires Lawful(ca) && Lawful(cb) && ca.valid(v) && ca.valid(w)
    requires cb.valid(x1) && cb.valid(x2) && cb.valid(y1) && cb.valid(y2)
    requires (ca.put(v) + h(ca.put(v))) + cb.put(x1) + cb.put(x2) == (ca.put(w) + h(ca.put(w))) + cb.put(y1)
      + cb.put(y2)
    ensures v == w && x1 == y1 && x2 == y2
  {
    var p, q := ca.put(v), ca.put(w);
    var r, s := h(p), h(q);
    var t, u := cb.put(x1) + cb.put(x2), cb.put(y1) + cb.put(y2);
    assert (p + r) + cb.put(x1) + cb.put(x2) == p + (r + t);
    assert (q + s) + cb.put(y1) + cb.put(y2) == q + (s + u);
    SelfDelimiting(ca, v, r + t, w, s + u);
    CancelPrefix(r, t, u);
    SelfDelimiting(cb, x1, cb.put(x2), y1, cb.put(y2));
    SelfDelimiting(cb, x2, [], y2, []);
  }

  /** Though its parts are not separated, a transcript determines them. */
  lemma TranscriptBinds(
    f: Formats, h: Hash, size: nat, o: Offer, a1: Message, a2: Message, p: Offer, b1: Message, b2: Message)
    requires Transcript(f, h, size, o, a1, a2).Some?
    requires Transcript(f, h, size, o, a1, a2) == Transcript(f, h, size, p, b1, b2)
    ensures o == p && a1 == b1 && a2 == b2
  {
    hide FieldsCodec, OfferCodec;
    OfferLawful(f);
    FieldsLawful(f, size);
    PartsBind(OfferCodec(f), FieldsCodec(f, size), h,
              OfferFields(o), FieldsOf(a1), FieldsOf(a2), OfferFields(p), FieldsOf(b1), FieldsOf(b2));
  }

  lemma CancelPrefix(p: bytes, x: bytes, y: bytes)
    requires p + x == p + y
    ensures x == y
  {
    assert (p + x)[|p|..] == x && (p + y)[|p|..] == y;
  }

  /** A shuffle context binds the stage, the invitation and both ordered key messages. */
  lemma ContextBinds(
    f: Formats, h: Hash, size: nat, o: Offer, a1: Message, a2: Message, final: bool,
    p: Offer, b1: Message, b2: Message, last: bool)
    requires ShuffleContext(f, h, size, o, a1, a2, final).Some?
    requires ShuffleContext(f, h, size, o, a1, a2, final) == ShuffleContext(f, h, size, p, b1, b2, last)
    requires Distinguishes(h, Transcript(f, h, size, o, a1, a2).value, Transcript(f, h, size, p, b1, b2).value)
    ensures final == last && o == p && a1 == b1 && a2 == b2
  {
    hide Transcript, EncodeMessage, OfferBytes;
    var s, t := Transcript(f, h, size, o, a1, a2).value, Transcript(f, h, size, p, b1, b2).value;
    var d := Header(ShuffleDomain);
    var x, y := if final then 1 else 0, if last then 1 else 0;
    var c := d + h(s) + [x];
    assert c == d + h(t) + [y];
    assert c[|c| - 1] == x == y;
    assert c[..|c| - 1] == d + h(s) == d + h(t);
    CancelPrefix(d, h(s), h(t));
    TranscriptBinds(f, h, size, o, a1, a2, p, b1, b2);
  }

  // ---------- Services ----------

  datatype Services = Services(network: bytes, ark: bytes, emulator: bytes, checkpoint: bytes, min: nat, max: nat)

  predicate ValidServices(f: Formats, s: Services) {
    f.xonly(s.ark) && f.xonly(s.emulator) && 0 < |s.checkpoint| && 0 < s.min <= s.max <= MAX_MONEY
  }

  function ServicesCodec(): (c: Codec<Services>) {
    Convert(Both(Literal(Header(ServicesDomain)),
                 Both(Blob(16),
                      Both(Fixed(32), Both(Fixed(32), Both(Blob(MAX_SCRIPT), Both(Unsigned(8), Unsigned(8))))))),
            (s: Services) => true,
            (v: (bytes, (bytes, (bytes, (bytes, (bytes, (nat, nat))))))) =>
              Services(v.1.0, v.1.1.0, v.1.1.1.0, v.1.1.1.1.0, v.1.1.1.1.1.0, v.1.1.1.1.1.1),
            (s: Services) => (Header(ServicesDomain),
                              (s.network, (s.ark, (s.emulator, (s.checkpoint, (s.min, s.max)))))))
  }

  lemma ServicesLawful()
    ensures Lawful(ServicesCodec())
  {
    LiteralLawful(Header(ServicesDomain));
    BlobLawful(16);
    FixedLawful(32);
    BlobLawful(MAX_SCRIPT);
    UnsignedLawful(8);
    var c4 := Both(Unsigned(8), Unsigned(8));
    var c3 := Both(Blob(MAX_SCRIPT), c4);
    BothLawful(Unsigned(8), Unsigned(8));
    BothLawful(Blob(MAX_SCRIPT), c4);
    BothLawful(Fixed(32), c3);
    BothLawful(Fixed(32), Both(Fixed(32), c3));
    BothLawful(Blob(16), Both(Fixed(32), Both(Fixed(32), c3)));
    BothLawful(Literal(Header(ServicesDomain)), Both(Blob(16), Both(Fixed(32), Both(Fixed(32), c3))));
    ConvertLawful(Both(Literal(Header(ServicesDomain)), Both(Blob(16), Both(Fixed(32), Both(Fixed(32), c3)))),
      (s: Services) => true,
      (v: (bytes, (bytes, (bytes, (bytes, (bytes, (nat, nat))))))) =>
        Services(v.1.0, v.1.1.0, v.1.1.1.0, v.1.1.1.1.0, v.1.1.1.1.1.0, v.1.1.1.1.1.1),
      (s: Services) => (Header(ServicesDomain), (s.network, (s.ark, (s.emulator, (s.checkpoint, (s.min, s.max)))))));
  }

  function ServiceBytes(f: Formats, s: Services): (b: Option<bytes>) {
    if !ValidServices(f, s) || !ServicesCodec().valid(s) then None else Some(ServicesCodec().put(s))
  }

  lemma ServicesBind(f: Formats, h: Hash, s: Services, t: Services)
    requires ServiceBytes(f, s).Some? && ServiceBytes(f, t).Some?
    requires h(ServiceBytes(f, s).value) == h(ServiceBytes(f, t).value)
    requires Distinguishes(h, ServiceBytes(f, s).value, ServiceBytes(f, t).value)
    ensures s == t
  {
    hide ServicesCodec;
    ServicesLawful();
    SelfDelimiting(ServicesCodec(), s, [], t, []);
  }
}
