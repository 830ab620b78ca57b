/** Admission during setup: invitations, key messages, shuffles and the agreement they lead to. */
module SetupRules {
  import opened Bytes
  import opened Hand
  import opened Messages
  import opened Events
  import opened Options

  predicate ValidConfig(env: Env, c: Config) {
    ValidServices(env.formats, c.services) && env.formats.xonly(c.wallet) && |c.payout| <= MAX_SCRIPT
  }

  /** The invitation names its own session and the services this side runs against. */
  predicate InvitationFits(env: Env, c: Config, inv: Invitation) {
    && ValidConfig(env, c)
    && SessionOf(env.formats, env.hash, inv.offer) == Some(inv.session)
    && ServiceBytes(env.formats, c.services).Some?
    && env.hash(ServiceBytes(env.formats, c.services).value) == inv.offer.services
  }

  /** What an ownership proof is bound to. */
  function OwnershipContext(env: Env, inv: Invitation, role: Player, identity: bytes,
                            p: Participant): (b: Option<bytes>) {
    hide OfferBytes;
    match OfferBytes(env.formats, env.hash, inv.offer)
    case None => None
    case Some(offer) =>
      if |offer| > 4096 || |p.payout| > MAX_SCRIPT then None
      else Some(Header(OwnershipDomain)
                + (Counted(offer) + ([Index(role) + 1] + identity + p.signing) + Counted(p.payout)))
  }

  function Counted(b: bytes): (c: bytes) { ToLittleEndian(|b|, 4) + b }

  function MessageBytes(env: Env, m: Message): (b: Option<bytes>) { EncodeMessage(env.formats, env.proofSize, m) }

  /** The same canonical bytes. */
  predicate SameMessage(env: Env, a: Message, b: Message) {
    MessageBytes(env, a).Some? && MessageBytes(env, a) == MessageBytes(env, b)
  }

  predicate ContextFits(env: Env, inv: Invitation, m: Message, role: Player, identity: Option<bytes>) {
    && MessageBytes(env, m).Some?
    && m.session == inv.session && m.sender == role
    && (identity.Some? ==> m.identity == identity.value)
    && (role == Player1 ==> m.identity == inv.offer.creator)
    && (role == Player2 && identity.None? ==> m.sequence == 0 && m.kind == KeyOffer)
  }

  predicate PolicyAllows(env: Env, c: Config, script: bytes, amount: int) {
    env.taproot(script) && c.services.min <= amount <= c.services.max
  }

  predicate KeysFit(env: Env, c: Config, inv: Invitation, m: Message, role: Player, identity: Option<bytes>) {
    && ContextFits(env, inv, m, role, identity)
    && m.kind == (if role == Player1 then KeyReply else KeyOffer) && m.sequence == 0
    && m.content.Keys?
    && PolicyAllows(env, c, m.content.participant.payout, inv.offer.terms.bond)
    && PolicyAllows(env, c, m.content.participant.payout,
                    (inv.offer.terms.stake + inv.offer.terms.bond + inv.offer.terms.maxWager) * 2)
    && (match OwnershipContext(env, inv, role, m.identity, m.content.participant)
        case None => false
        case Some(context) => env.owns(m.content.participant.encryption, m.content.ownership, context))
  }

  /** The key message the saved secrets stand for. */
  function KeyMessage(env: Env, c: Config, inv: Invitation, role: Player, secrets: Secrets): (m: Option<Message>) {
    var m := Message(inv.session, 0, role, secrets.identity, if role == Player1 then KeyReply else KeyOffer,
                     Keys(Participant(c.wallet, secrets.encryption, c.payout), secrets.ownership, []));
    if InvitationFits(env, c, inv) && KeysFit(env, c, inv, m, role, Some(secrets.identity)) then Some(m) else None
  }

  const DEADLINE_MARGIN: nat := 30
  const FUNDING_TIMEOUT: nat := 300

  predicate DeadlineFits(now: nat, deadline: nat) {
    && now <= MAX_U64 - (FUNDING_TIMEOUT + DEADLINE_MARGIN)
    && now + DEADLINE_MARGIN <= deadline <= now + FUNDING_TIMEOUT + DEADLINE_MARGIN
  }

  // ---------- Peers and shuffles ----------

  /** The two key messages, Player1's first. */
  function OrderedKeys(s: Setup): (k: (Message, Message))
    requires s.peer.Some?
  {
    if s.role == Player1 then (s.local, s.peer.value) else (s.peer.value, s.local)
  }

  function ContextOf(env: Env, s: Setup, final: bool): (b: Option<bytes>)
    requires s.peer.Some?
  {
    ShuffleContext(env.formats, env.hash, env.proofSize, s.invitation.offer, OrderedKeys(s).0, OrderedKeys(s).1, final)
  }

  /** Distinct identities, wallet keys and encryption keys, and a proper aggregate key. */
  predicate PeerFits(env: Env, c: Config, s: Setup, m: Message) {
    && KeysFit(env, c, s.invitation, m, Other(s.role), None)
    && m.sequence == s.nextReceive
    && s.local.content.Keys?
    && m.identity != s.local.identity
    && m.content.participant.signing != s.local.content.participant.signing
    && m.content.participant.encryption != s.local.content.participant.encryption
    && AggregateOf(env, s, m).Some?
  }

  function AggregateOf(env: Env, s: Setup, m: Message): (key: Option<bytes>)
    requires s.local.content.Keys? && m.content.Keys?
  {
    var mine, theirs := s.local.content.participant.encryption, m.content.participant.encryption;
    if s.role == Player1 then env.aggregate(mine, theirs) else env.aggregate(theirs, mine)
  }

  function WithPeer(env: Env, s: Setup, m: Message): (t: Setup)
    requires s.local.content.Keys? && m.content.Keys?
  {
    s.(peer := Some(m), key := AggregateOf(env, s, m), nextReceive := s.nextReceive + 1)
  }

  function AgreementOf(env: Env, c: Config, s: Setup, m: Message, deal: seq<bytes>): (a: Agreement)
    requires s.peer.Some? && OrderedKeys(s).0.content.Keys? && OrderedKeys(s).1.content.Keys? && m.content.Cards?
  {
    Agreement(c.services.emulator, c.services.ark, c.services.checkpoint,
              OrderedKeys(s).0.content.participant, OrderedKeys(s).1.content.participant,
              s.invitation.offer.terms, m.content.deadline, deal)
  }

  /** A verified first shuffle of the fresh deck. */
  function WithInitial(env: Env, s: Setup, m: Message): (t: Option<Setup>) {
    if s.peer.None? || s.key.None? || ContextOf(env, s, false).None? then None
    else if m.kind != InitialShuffle || m.sender != Player2 || !m.content.Cards? then None
    else if !env.firstShuffle(s.key.value, m.content.deck, m.content.proof, ContextOf(env, s, false).value) then None
    else Some(s.(initial := Some(m)))
  }

  /** A verified second shuffle, and the contract it completes. */
  function WithFinal(env: Env, c: Config, s: Setup, m: Message): (t: Option<Setup>) {
    if !FinalVerifies(env, s, m) || env.deal(m.content.deck).None? then None
    else
      var a := AgreementOf(env, c, s, m, env.deal(m.content.deck).value);
      if ParamsOf(env, a).None? then None else Some(s.(final := Some(m), agreement := Some(a)))
  }

  predicate FinalVerifies(env: Env, s: Setup, m: Message) {
    && s.peer.Some? && s.key.Some? && s.initial.Some? && s.initial.value.content.Cards?
    && OrderedKeys(s).0.content.Keys? && OrderedKeys(s).1.content.Keys?
    && ContextOf(env, s, true).Some?
    && m.kind == FinalShuffle && m.sender == Player1 && m.content.Cards?
    && env.nextShuffle(s.key.value, s.initial.value.content.deck, m.content.deck, m.content.proof,
                       ContextOf(env, s, true).value)
  }

  function WithShuffle(env: Env, c: Config, s: Setup, m: Message, final: bool): (t: Option<Setup>) {
    if final then WithFinal(env, c, s, m) else WithInitial(env, s, m)
  }
}
