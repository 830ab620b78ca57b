/** The private event log's vocabulary: what a game remembers and the facts that change it. */
module Events {
  import opened Bytes
  import opened Hand
  import opened Rules
  import opened Terminals
  import opened Admission
  import opened Messages
  import opened Options

  datatype Stage =
    | StageInit
    | StageSessionPrepared
    | StagePlayer2KeysPrepared
    | StageAwaitOpponentKeys
    | StagePlayer1KeysPrepared
    | StageInitialShuffle
    | StageInitialShufflePrepared
    | StageAwaitInitialShuffle
    | StageFinalShuffle
    | StageFinalShufflePrepared
    | StageAwaitFinalShuffle
    | StageInitialDeposit
    | StageAwaitInitialDeposit
    | StageAborted
    | StagePlayer1Funding
    | StageAwaitPlayer1Funding
    | StagePlayer2Opening
    | StageAwaitPlayer2Opening
    | StageBettingLocal
    | StageBettingOpponent
    | StageBoardRevealLocal
    | StageBoardRevealOpponent
    | StageAllInLocal
    | StageAllInOpponent
    | StageAllInRevealLocal
    | StageAllInRevealOpponent
    | StageShowdownLocal
    | StageShowdownOpponent
    | StageEvaluateShowdown
    | StageSettleShowdown
    | StageTransactionPrepared
    | StageTransactionSigned
    | StageAwaitTransactionAcceptance
    | StageFinished

  // ---------- What is remembered ----------

  /** Runtime public configuration. */
  datatype Config = Config(services: Services, wallet: bytes, payout: bytes)

  /** The agreed contract's parameters. */
  datatype Agreement = Agreement(
    emulator: bytes, ark: bytes, checkpoint: bytes, player1: Participant, player2: Participant,
    terms: Terms, deadline: nat, deal: seq<bytes>)

  datatype Setup = Setup(
    invitation: Invitation, role: Player, local: Message, peer: Option<Message>, publication: Option<bytes>,
    pending: Option<Message>, nextSend: nat, nextReceive: nat, initial: Option<Message>, final: Option<Message>,
    key: Option<bytes>, agreement: Option<Agreement>)

  /** A transaction's effect, or a terminal's payouts. */
  datatype Spend = Moves(tx: LiveTx) | Settles(payouts: seq<Payout>, claim: Option<Claim>)

  /** The cards and ranks a showdown claims. */
  datatype Claim = Claim(cards: seq<int>, rank1: int, rank2: int)

  /** Evidence of an accepted transaction: its id, the covenant output it spends and its effect. */
  datatype Accepted = Accepted(id: bytes, source: Option<bytes>, spend: Spend)

  /** The accepted hand: the covenant's state and value, the shares admitted, and whether the private holes
      are saved. */
  datatype HandState = HandState(id: bytes, state: State, value: int, observedAt: nat, known: seq<bool>, holes: bool)

  datatype Action =
    | ActionDeposit(funding: Funding)
    | ActionFund(funding: Funding, shown: Reveals)
    | ActionOpen(bet: BettingAction, funding: Funding, shown: Reveals)
    | ActionBet(bet: BettingAction, funding: Funding)
    | ActionBoard(shown: Reveals)
    | ActionHoles(shown: Reveals)
    | ActionCallAllIn(funding: Funding, shown: Reveals)
    | ActionAllInReveal(shown: Reveals)
    | ActionConcede
    | ActionTimeout(at: nat)
    | ActionSettle(claim: Claim, at: nat)

  datatype Route = ToArkd | ToEmulator

  /** Exact prepared work, and its signed form once there is one. */
  datatype SavedSpend = SavedSpend(action: Action, route: Route, source: Option<bytes>, prepared: bytes,
                                   signed: Option<bytes>)

  datatype Prepared = Prepared(saved: SavedSpend, built: Spend, id: bytes, lastAttempt: nat)

  datatype Evaluated = Evaluated(claim: Claim, winner: Option<Player>)

  datatype SettlementKind = ByConcession | ByTimeout | ByShowdown
  datatype OutcomeKind = Won | Lost | Tied | Aborted

  datatype Outcome =
    | Abort(reason: string)
    | Settlement(kind: OutcomeKind, how: SettlementKind, winner: Option<Player>, id: bytes, payouts: seq<Payout>)

  datatype Game = Game(
    config: Config, stage: Stage, setup: Option<Setup>, nextEvent: nat, previous: bytes, hand: Option<HandState>,
    prepared: Option<Prepared>, evaluated: Option<Evaluated>, outcome: Option<Outcome>)

  // ---------- Facts ----------

  /** What the saved session secrets make public. */
  datatype Secrets = Secrets(identity: bytes, encryption: bytes, ownership: bytes)

  /** A full configuration in an old log's first event. */
  datatype Legacy = Legacy(wallet: bytes, encoded: bytes)

  datatype Fact =
    | Configured(legacy: Option<Legacy>)
    | SessionPrepared(invitation: Invitation, role: Player, secrets: Secrets, message: Message)
    | SessionOpened
    | PublicationPrepared(payload: bytes, carrier: bytes)
    | MessagePrepared(message: Message)
    | MessagePublished(message: Message)
    | MessageReceived(message: Message, at: nat)
    | SetupAborted(reason: string)
    | DepositObserved(accepted: Accepted, at: nat)
    | OpeningObserved(accepted: Accepted, at: nat)
    | SpendObserved(accepted: Accepted, at: nat)
    | SpendPrepared(spend: SavedSpend)
    | SpendSigned(spend: SavedSpend)
    | SubmissionAttempted(recovery: bool, id: Option<bytes>, at: nat)
    | SubmissionFailed(reason: string)
    | ShowdownEvaluated(claim: Claim, winner: Option<Player>)

  datatype Event = Event(session: bytes, sequence: nat, previous: bytes, fact: Fact)

  // ---------- The outside world ----------

  /** Cryptography, transaction construction and the event codec, seen from the reducer. */
  datatype Env = Env(
    formats: Formats,
    hash: Hash,
    proofSize: nat,
    owns: (bytes, bytes, bytes) -> bool,
    aggregate: (bytes, bytes) -> Option<bytes>,
    firstShuffle: (bytes, bytes, bytes, bytes) -> bool,
    nextShuffle: (bytes, bytes, bytes, bytes, bytes) -> bool,
    deal: bytes -> Option<seq<bytes>>,
    taproot: bytes -> bool,
    contract: Agreement -> Option<bytes>,
    share: (Agreement, nat, bytes, bytes) -> bool,
    decodes: (Agreement, seq<bytes>, seq<bool>, bool) -> bool,
    evaluates: (Agreement, State, Claim) -> bool,
    bundle: (Option<bytes>, Spend) -> bytes,
    sameWork: (bytes, bytes) -> bool,
    transaction: (Option<bytes>, Spend) -> bytes,
    owned: Funding -> bool,
    encode: Event -> Option<bytes>,
    decode: bytes -> Option<Event>)

  /** Events round trip: the codec reads exactly what it writes. */
  ghost predicate EventCodec(env: Env) {
    forall e, b {:trigger env.encode(e), env.decode(b)} :: env.encode(e) == Some(b) <==> env.decode(b) == Some(e)
  }

  /** The covenant's parameters, once a contract can be derived. */
  function ParamsOf(env: Env, a: Agreement): (p: Option<Params>)
    ensures p.Some? ==> ValidParams(p.value)
  {
    match env.contract(a)
    case None => None
    case Some(id) =>
      var p := Params(id, a.terms.stake, a.terms.bond, a.terms.minBet, a.terms.maxWager, a.deadline);
      if ValidParams(p) then Some(p) else None
  }

  function PolicyOf(c: Config): (o: OutputPolicy) { OutputPolicy(c.services.min, c.services.max) }
}
