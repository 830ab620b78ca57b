/** The reducer on values: which facts a game admits, and the game they leave. */
module Reducer {
  import opened Bytes
  import opened Hand
  import opened Rules
  import opened Runs
  import opened Terminals
  import opened Admission
  import opened Messages
  import opened Events
  import opened SetupRules
  import opened Options

  // ---------- The chain of events ----------

  const WALLET_LOG: string := "arkade-poker/wallet-log"

  function WalletBinding(env: Env, wallet: bytes): (b: bytes) { env.hash(Ascii(WALLET_LOG) + [0] + wallet) }

  function New(env: Env, c: Config): (g: Game) {
    Game(c, StageInit, None, 0, WalletBinding(env, c.wallet), None, None, None, None)
  }

  predicate WalletFits(env: Env, c: Config, e: Event) {
    && e.fact.Configured?
    && match e.fact.legacy
       case Some(legacy) => legacy.wallet == c.wallet
       case None => e.previous == WalletBinding(env, c.wallet)
  }

  /** The hash the next event must carry; an old log starts from its own configuration's. */
  function ExpectedPrevious(env: Env, g: Game, e: Event): (h: bytes) {
    if g.nextEvent == 0 && e.fact.Configured? && e.fact.legacy.Some? then env.hash(e.fact.legacy.value.encoded)
      else g.previous
  }

  predicate InOrder(env: Env, g: Game, e: Event) {
    && (g.nextEvent == 0 && e.fact.Configured? && e.fact.legacy.Some? ==> WalletFits(env, g.config, e))
    && e.sequence == g.nextEvent && e.previous == ExpectedPrevious(env, g, e) && g.nextEvent < MAX_U64
    && (g.setup.Some? ==> e.session == g.setup.value.invitation.session)
  }

  /** One event: in order, encodable and admitted. */
  function Step(env: Env, g: Game, e: Event): (next: Option<Game>) {
    if !InOrder(env, g, e) || env.encode(e).None? then None
    else match Reduce(env, g, e)
      case None => None
      case Some(h) => Some(h.(nextEvent := g.nextEvent + 1, previous := env.hash(env.encode(e).value)))
  }

  // ---------- Setup ----------

  predicate AbortReason(reason: string) {
    reason == "invalid_peer_evidence" || reason == "initial_deadline_expired" || reason == "funding_unavailable"
  }

  /** No local money is locked yet. */
  predicate MayAbort(stage: Stage) {
    && !stage.StageInit?
    && (InSetup(stage) || stage.StageInitialDeposit? || stage.StageAwaitInitialDeposit? || stage.StagePlayer1Funding?)
  }

  predicate InSetup(stage: Stage) {
    || stage.StageInit? || stage.StageSessionPrepared? || stage.StagePlayer2KeysPrepared?
    || stage.StageAwaitOpponentKeys?
    || stage.StagePlayer1KeysPrepared? || stage.StageInitialShuffle? || stage.StageInitialShufflePrepared?
    || stage.StageAwaitInitialShuffle? || stage.StageFinalShuffle? || stage.StageFinalShufflePrepared?
    || stage.StageAwaitFinalShuffle?
  }

  /** The message waiting to be published, by stage. */
  function PendingMessage(g: Game): (m: Option<Message>) {
    if g.setup.None? then None
    else match g.stage
      case StagePlayer2KeysPrepared => Some(g.setup.value.local)
      case StagePlayer1KeysPrepared => Some(g.setup.value.local)
      case StageInitialShufflePrepared => g.setup.value.pending
      case StageFinalShufflePrepared => g.setup.value.pending
      case _ => None
  }

  function AfterPublication(stage: Stage): (next: Stage) {
    match stage
    case StagePlayer2KeysPrepared => StageAwaitOpponentKeys
    case StagePlayer1KeysPrepared => StageAwaitInitialShuffle
    case StageInitialShufflePrepared => StageAwaitFinalShuffle
    case StageFinalShufflePrepared => StageAwaitInitialDeposit
    case _ => stage
  }

  function PrepareSession(env: Env, g: Game, e: Event): (next: Option<Game>) {
    if !e.fact.SessionPrepared? || e.session != e.fact.invitation.session
      || !InvitationFits(env, g.config, e.fact.invitation)
    then None
    else match KeyMessage(env, g.config, e.fact.invitation, e.fact.role, e.fact.secrets)
      case None => None
      case Some(keys) =>
        if !e.fact.message.content.Keys? then None
        else
          var local := keys.(content := keys.content.(walletOwnership := e.fact.message.content.walletOwnership));
          if !SameMessage(env, local, e.fact.message)
             || !KeysFit(env, g.config, e.fact.invitation, local, e.fact.role, Some(local.identity)) then None
          else Some(g.(
            stage := StageSessionPrepared,
            setup := Some(Setup(e.fact.invitation, e.fact.role, local, None, None, None, 0, 0, None, None, None,
                                None))))
  }

  /** A published message moves the conversation on. */
  function Publish(env: Env, g: Game, fact: Fact): (next: Option<Game>)
    requires g.setup.Some?
  {
    if !fact.MessagePublished? || g.setup.value.publication.None? then None
    else
      var s := g.setup.value;
      var expected := if s.pending.Some? then s.pending.value else s.local;
      if !SameMessage(env, expected, fact.message) || fact.message.sequence != s.nextSend || s.nextSend == MAX_U64
        then None
      else Some(g.(stage := AfterPublication(g.stage),
                   setup := Some(s.(nextSend := s.nextSend + 1, pending := None, publication := None))))
  }

  function Reduce(env: Env, g: Game, e: Event): (next: Option<Game>) {
    if g.nextEvent == 0 then (if WalletFits(env, g.config, e) && e.session == NO_SESSION then Some(g) else None)
    else if e.fact.Configured? then None
    else if e.fact.SetupAborted? then
      if !AbortReason(e.fact.reason) || !MayAbort(g.stage) then None
      else Some(g.(stage := StageAborted, hand := None, prepared := None, evaluated := None,
                   outcome := Some(Abort(e.fact.reason))))
    else if e.fact.PublicationPrepared? then
      if PendingMessage(g).None? || g.setup.value.publication.Some?
         || MessageBytes(env, PendingMessage(g).value) != Some(e.fact.payload) then None
      else Some(g.(setup := Some(g.setup.value.(publication := Some(e.fact.carrier)))))
    else if g.stage.StageInit? then PrepareSession(env, g, e)
    else if InSetup(g.stage) then (if g.setup.None? then None else ReduceSetup(env, g, e.fact))
    else if g.setup.None? then None
    else ReduceHand(env, g, e.fact)
  }

  const NO_SESSION: bytes := Zeros(32)

  function ReduceSetup(env: Env, g: Game, fact: Fact): (next: Option<Game>)
    requires g.setup.Some?
  {
    var s := g.setup.value;
    match g.stage
    case StageSessionPrepared =>
      if !fact.SessionOpened? then None
      else Some(g.(stage := if s.role == Player1 then StageAwaitOpponentKeys else StagePlayer2KeysPrepared))
    case StagePlayer2KeysPrepared => Publish(env, g, fact)
    case StagePlayer1KeysPrepared => Publish(env, g, fact)
    case StageInitialShufflePrepared => Publish(env, g, fact)
    case StageFinalShufflePrepared => Publish(env, g, fact)
    case StageAwaitOpponentKeys =>
      if !fact.MessageReceived? || !PeerFits(env, g.config, s, fact.message) then None
      else Some(g.(stage := if s.role == Player1 then StagePlayer1KeysPrepared else StageInitialShuffle,
                   setup := Some(WithPeer(env, s, fact.message))))
    case StageInitialShuffle => PrepareShuffle(env, g, fact, false)
    case StageFinalShuffle => PrepareShuffle(env, g, fact, true)
    case StageAwaitInitialShuffle => ReceiveShuffle(env, g, fact, false)
    case StageAwaitFinalShuffle => ReceiveShuffle(env, g, fact, true)
    case _ => None
  }

  function PrepareShuffle(env: Env, g: Game, fact: Fact, final: bool): (next: Option<Game>)
    requires g.setup.Some?
  {
    var s := g.setup.value;
    if !fact.MessagePrepared? || !ContextFits(env, s.invitation, fact.message, s.role, Some(s.local.identity))
       || fact.message.sequence != s.nextSend then None
    else match WithShuffle(env, g.config, s, fact.message, final)
      case None => None
      case Some(t) => Some(g.(stage := if final then StageFinalShufflePrepared else StageInitialShufflePrepared,
                              setup := Some(t.(pending := Some(fact.message)))))
  }

  function ReceiveShuffle(env: Env, g: Game, fact: Fact, final: bool): (next: Option<Game>)
    requires g.setup.Some?
  {
    var s := g.setup.value;
    if !fact.MessageReceived? || s.peer.None?
       || !ContextFits(env, s.invitation, fact.message, Other(s.role), Some(s.peer.value.identity))
       || fact.message.sequence != s.nextReceive || s.nextReceive == MAX_U64 then None
    else if final && !(fact.message.content.Cards? && DeadlineFits(fact.at, fact.message.content.deadline)) then None
    else match WithShuffle(env, g.config, s, fact.message, final)
      case None => None
      case Some(t) => Some(g.(stage := if final then StageInitialDeposit else StageFinalShuffle,
                              setup := Some(t.(nextReceive := t.nextReceive + 1))))
  }

  // ---------- The hand ----------

  function Contract(env: Env, g: Game): (p: Option<Params>)
    ensures p.Some? ==> ValidParams(p.value)
  {
    if g.setup.None? || g.setup.value.agreement.None? then None else ParamsOf(env, g.setup.value.agreement.value)
  }

  /** The accepted deposit: the initial state and exactly the agreed value, paid for by wallet coins. */
  predicate DepositFits(env: Env, g: Game, p: Params, a: Accepted) {
    && a.spend.Moves? && a.source.None?
    && var tx := a.spend.tx;
       && tx.after == InitialState(p) && tx.value == p.stake + p.bond && tx.proofs == []
       && LayoutAdmitted(PolicyOf(g.config), tx)
       && |tx.funding.inputs| > 0 && Total(tx.funding.inputs).Some?
       && (match tx.funding.change
           case None => Total(tx.funding.inputs).value == tx.value
           case Some(c) => AddAmount(tx.value, c) == Total(tx.funding.inputs))
  }

  /** Eighteen slots of the right width, as decoding a packet gives. */
  predicate Sized(h: HandState) { WellFormed(h.state) && |h.known| == SLOTS }

  datatype Admitted = Continues(hand: HandState) | Ends(outcome: Outcome)

  /** Re-checks a spend of the accepted hand, whoever made it. */
  function Observe(env: Env, g: Game, h: HandState, a: Accepted, at: nat): (r: Option<Admitted>)
    requires Sized(h)
    ensures r.Some? && r.value.Continues? ==> Sized(r.value.hand)
  {
    if Contract(env, g).None? || a.source != Some(h.id) then None
    else
      var p, agreement := Contract(env, g).value, g.setup.value.agreement.value;
      match a.spend
      case Moves(tx) =>
        var valid := (slot: nat, share: bytes, proof: bytes) => env.share(agreement, slot, share, proof);
        if !WellFormed(tx.after) || !Admits(p, PolicyOf(g.config), h.state, h.value, h.known, tx, valid) then None
        else
          var next := HandState(a.id, tx.after, tx.value, at, KnownAfter(h.known, RevealSlots(h.state.phase)), h.holes);
          if env.decodes(agreement, tx.after.shares, next.known, next.holes) then Some(Continues(next)) else None
      case Settles(payouts, claim) =>
        match SettlementOf(env, g, p, h, payouts, claim)
        case None => None
        case Some((how, winner)) =>
          if (forall i | 0 <= i < |payouts| :: PolicyOf(g.config).min <= payouts[i].value <= PolicyOf(g.config).max)
          then Some(Ends(Settlement(OutcomeFor(g.setup.value.role, winner), how, winner, a.id, payouts)))
          else None
  }

  function KnownAfter(known: seq<bool>, slots: seq<nat>): (k: seq<bool>)
    ensures |k| == |known|
  {
    seq(|known|, i requires 0 <= i < |known| => known[i] || i in slots)
  }

  function OutcomeFor(role: Player, winner: Option<Player>): (k: OutcomeKind) {
    match winner case None => Tied case Some(w) => if w == role then Won else Lost
  }

  function RankWinner(c: Claim): (w: Option<Player>) {
    if c.rank1 > c.rank2 then Some(Player1) else if c.rank2 > c.rank1 then Some(Player2) else None
  }

  /** Which settlement a terminal's payouts are, tried in the program's order. */
  function SettlementOf(env: Env, g: Game, p: Params, h: HandState, payouts: seq<Payout>, claim: Option<Claim>)
    : (r: Option<(SettlementKind, Option<Player>)>)
  {
    var actor := RequiredActor(h.state.phase);
    if ConcessionPayouts(p, h.state.phase, h.value) == Some(payouts) && actor.Some?
      then Some((ByConcession, Some(Other(actor.value))))
    else if TimeoutPayouts(h.state.phase, h.value) == Some(payouts) && actor.Some?
      then Some((ByTimeout, Some(Other(actor.value))))
    else if h.state.phase == Evaluation && claim.Some? && g.setup.Some? && g.setup.value.agreement.Some?
            && env.evaluates(g.setup.value.agreement.value, h.state, claim.value)
            && ShowdownPayouts(p, h.state, h.value, claim.value.cards, claim.value.rank1, claim.value.rank2)
            == Some(payouts)
    then Some((ByShowdown, RankWinner(claim.value)))
    else None
  }

  /** The stage of an accepted hand, until its private holes are saved and then by phase. */
  function RouteOf(role: Player, h: HandState): (stage: Stage)
    requires |h.known| == SLOTS
  {
    if !h.holes && role == Player2 && h.known[2] then StageAwaitPlayer1Funding
    else if !h.holes && role == Player1 && h.known[0] then StageAwaitPlayer2Opening
    else
      var local := RequiredActor(h.state.phase) == Some(role);
      match h.state.phase
      case AwaitFunding => if local then StagePlayer1Funding else StageAwaitPlayer1Funding
      case AwaitOpening => if local then StagePlayer2Opening else StageAwaitPlayer2Opening
      case Betting(_, _) => if local then StageBettingLocal else StageBettingOpponent
      case BoardReveal(_, _, _) => if local then StageBoardRevealLocal else StageBoardRevealOpponent
      case AllIn(_, _) => if local then StageAllInLocal else StageAllInOpponent
      case AllInReveal(_, _) => if local then StageAllInRevealLocal else StageAllInRevealOpponent
      case ShowdownReveal(_, _) => if local then StageShowdownLocal else StageShowdownOpponent
      case Evaluation => StageEvaluateShowdown
  }

  predicate Permitted(stage: Stage, a: Action) {
    match a
    case ActionDeposit(_) => stage.StageInitialDeposit?
    case ActionFund(_, _) => stage.StagePlayer1Funding?
    case ActionOpen(_, _, _) => stage.StagePlayer2Opening?
    case ActionBet(_, _) => stage.StageBettingLocal?
    case ActionBoard(_) => stage.StageBoardRevealLocal?
    case ActionHoles(_) => stage.StageShowdownLocal?
    case ActionCallAllIn(_, _) => stage.StageAllInLocal?
    case ActionAllInReveal(_) => stage.StageAllInRevealLocal?
    case ActionConcede =>
      stage.StageBettingLocal? || stage.StageAllInLocal? || stage.StageAllInRevealLocal? || stage.StageShowdownLocal?
    case ActionTimeout(_) =>
      || stage.StageAwaitPlayer1Funding? || stage.StageAwaitPlayer2Opening? || stage.StageBettingOpponent?
      || stage.StageBoardRevealOpponent? || stage.StageAllInOpponent? || stage.StageAllInRevealOpponent?
      || stage.StageShowdownOpponent?
    case ActionSettle(_, _) => stage.StageSettleShowdown?
  }

  /** The move behind a live action. */
  function MoveOf(a: Action): (m: Option<(Move, Funding)>) {
    match a
    case ActionFund(f, r) => Some((Fund(r), f))
    case ActionOpen(bet, f, r) =>
      if bet.kind == Check then Some((Open(0, r), f)) else if bet.kind == RaiseTo then Some((Open(bet.amount, r), f))
        else None
    case ActionBet(bet, f) => Some((Bet(bet), f))
    case ActionBoard(r) => Some((RevealBoard(r), Funding([], None)))
    case ActionHoles(r) => Some((RevealHoles(r), Funding([], None)))
    case ActionCallAllIn(f, r) => Some((CallAllIn(r), f))
    case ActionAllInReveal(r) => Some((RevealAllIn(r), Funding([], None)))
    case _ => None
  }

  /** The spend an action's exact inputs build on the accepted hand. */
  function BuildAction(p: Params, hand: Option<HandState>, a: Action): (s: Option<Spend>)
    requires hand.Some? ==> WellFormed(hand.value.state)
  {
    if a.ActionDeposit? then
      if hand.Some? || !FundingCovers(a.funding, p.stake + p.bond) then None
      else Some(Moves(LiveTx(InitialState(p), p.stake + p.bond, a.funding, [])))
    else if hand.None? then None
    else
      var h := hand.value;
      match a
      case ActionConcede =>
        (match ConcessionPayouts(p, h.state.phase,
                                 h.value) case None => None case Some(out) => Some(Settles(out, None)))
      case ActionTimeout(_) =>
        (match TimeoutPayouts(h.state.phase, h.value) case None => None case Some(out) => Some(Settles(out, None)))
      case ActionSettle(c, _) =>
        (match ShowdownPayouts(p, h.state, h.value, c.cards, c.rank1, c.rank2)
         case None => None case Some(out) => Some(Settles(out, Some(c))))
      case _ =>
        match MoveOf(a)
        case None => None
        case Some((m, f)) =>
          match Live(p, h.state, h.value, m, f)
          case None => None
          case Some(b) => Some(Moves(LiveTx(b.state, b.value, b.funding, b.proofs)))
  }

  function SavedOf(env: Env, hand: Option<HandState>, a: Action, built: Spend): (s: SavedSpend) {
    var source := match hand case None => None case Some(h) => Some(h.id);
    SavedSpend(a, if hand.Some? then ToEmulator else ToArkd, source, env.bundle(source, built), None)
  }

  /** Equal but for the signature. */
  predicate SameSaved(a: SavedSpend, b: SavedSpend) { a.(signed := None) == b.(signed := None) }

  const SETTLEMENT_WAIT: nat := 30

  /** The winner, or Player1 on a tie, settles first; the other after a wait. */
  predicate SettlementEligible(role: Player, h: HandState, winner: Option<Player>, at: nat) {
    var first := if winner == Some(Player2) then Player2 else Player1;
    role == first || (h.observedAt <= MAX_U64 - SETTLEMENT_WAIT && at >= h.observedAt + SETTLEMENT_WAIT)
  }

  /** Whose turn the action needs, and when. */
  predicate ActorFits(env: Env, g: Game, h: HandState, a: Action)
    requires g.setup.Some? && g.setup.value.agreement.Some?
  {
    var actor, role := RequiredActor(h.state.phase), g.setup.value.role;
    match a
    case ActionTimeout(at) => actor == Some(Other(role)) && at >= h.state.deadline
    case ActionSettle(c, at) =>
      env.evaluates(g.setup.value.agreement.value, h.state, c) && SettlementEligible(role, h, RankWinner(c), at)
    case _ => actor == Some(role)
  }

  function FundingOf(a: Action): (f: Option<Funding>) {
    match a
    case ActionDeposit(f) => Some(f)
    case ActionFund(f, _) => Some(f)
    case ActionOpen(_, f, _) => Some(f)
    case ActionBet(_, f) => Some(f)
    case ActionCallAllIn(f, _) => Some(f)
    case _ => None
  }

  predicate FundingFits(env: Env, c: Config, a: Action) {
    match FundingOf(a)
    case None => true
    case Some(f) =>
      && |f.inputs| <= 255 && env.owned(f)
      && (f.change.Some? ==> c.services.min <= f.change.value <= c.services.max)
  }

  /** Recording work: rebuilt from its exact inputs, compared, and admitted as the opponent would admit it. */
  function Prepare(env: Env, g: Game, s: SavedSpend): (next: Option<Game>)
    requires g.setup.Some? && (g.hand.Some? ==> Sized(g.hand.value))
  {
    if s.signed.Some? || !Permitted(g.stage, s.action) || Contract(env, g).None? then None
    else if g.hand.Some? && !ActorFits(env, g, g.hand.value, s.action) then None
    else match BuildAction(Contract(env, g).value, g.hand, s.action)
      case None => None
      case Some(built) =>
        var expected := SavedOf(env, g.hand, s.action, built);
        var accepted := Accepted(env.transaction(expected.source, built), expected.source, built);
        if !SameSaved(expected, s) || !FundingFits(env, g.config, s.action) then None
        else if g.hand.None? && !DepositFits(env, g, Contract(env, g).value, accepted) then None
        else if g.hand.Some? && Observe(env, g, g.hand.value, accepted, g.hand.value.observedAt).None? then None
        else Some(g.(prepared := Some(Prepared(s, built, accepted.id, 0)), stage := StageTransactionPrepared))
  }

  const RETRY_INTERVAL: nat := 5

  predicate Submitting(stage: Stage) { stage.StageTransactionSigned? || stage.StageAwaitTransactionAcceptance? }

  /** The opponent's opening, locked, before the private holes are saved. */
  function OpeningHand(env: Env, g: Game, a: Accepted, at: nat): (h: Option<HandState>)
    requires g.hand.Some? && g.setup.Some? && Sized(g.hand.value)
  {
    var now := g.hand.value;
    var next := if a.id == now.id then Some(now)
                else match Observe(env, g, now, a, at) case Some(Continues(h)) => Some(h) case _ => None;
    if next.None? || next.value.holes then None
    else
      var start := if g.setup.value.role == Player2 then 2 else 0;
      if |next.value.known| == SLOTS && next.value.known[start] && next.value.known[start + 1] then next else None
  }

  function ReduceHand(env: Env, g: Game, fact: Fact): (next: Option<Game>)
    requires g.setup.Some?
  {
    if Contract(env, g).None? || !(g.hand.Some? ==> Sized(g.hand.value)) then None
    else
      var p, role := Contract(env, g).value, g.setup.value.role;
      match fact
      case DepositObserved(a, at) =>
        if !g.stage.StageAwaitInitialDeposit?
           && !(g.prepared.Some? && g.prepared.value.saved.action.ActionDeposit?
                && a.id == g.prepared.value.id) then None
        else if !DepositFits(env, g, p, a) then None
        else
          var h := HandState(a.id, a.spend.tx.after, a.spend.tx.value, at, NoShares(), false);
          Some(g.(hand := Some(h), prepared := None, stage := RouteOf(role, h)))
      case SpendPrepared(s) => Prepare(env, g, s)
      case SpendSigned(s) =>
        if !g.stage.StageTransactionPrepared? || g.prepared.None? || s.signed.None?
          || !SameSaved(g.prepared.value.saved, s)
           || !env.sameWork(g.prepared.value.saved.prepared, s.signed.value) then None
        else Some(g.(prepared := Some(g.prepared.value.(saved := s)), stage := StageTransactionSigned))
      case SubmissionAttempted(recovery, id, at) =>
        if !Submitting(g.stage) || g.prepared.None? || (id.Some? && id.value != g.prepared.value.id) then None
        else if g.stage.StageAwaitTransactionAcceptance? && !recovery
                && (g.prepared.value.lastAttempt > MAX_U64 - RETRY_INTERVAL
                    || at < g.prepared.value.lastAttempt + RETRY_INTERVAL)
        then None
        else Some(g.(prepared := Some(g.prepared.value.(lastAttempt := at)), stage := StageAwaitTransactionAcceptance))
      case SubmissionFailed(reason) =>
        if g.prepared.None? || !Submitting(g.stage) then None else Some(g.(stage := StageAwaitTransactionAcceptance))
      case SpendObserved(a, at) =>
        if g.hand.None? then None
        else
          (match Observe(env, g, g.hand.value, a, at)
           case None => None
           case Some(Ends(o)) =>
             Some(g.(prepared := None, evaluated := None, outcome := Some(o), hand := None, stage := StageFinished))
           case Some(Continues(h)) =>
             Some(g.(prepared := None, evaluated := None, hand := Some(h), stage := RouteOf(role, h))))
      case OpeningObserved(a, at) =>
        if (!g.stage.StageAwaitPlayer1Funding? && !g.stage.StageAwaitPlayer2Opening?) || g.hand.None? then None
        else
          (match OpeningHand(env, g, a, at)
           case None => None
           case Some(h) =>
             var next := h.(holes := true);
             if !env.decodes(g.setup.value.agreement.value, next.state.shares, next.known, true)
               || |next.known| != SLOTS then None
             else Some(g.(hand := Some(next), stage := RouteOf(role, next))))
      case ShowdownEvaluated(c, winner) =>
        if !g.stage.StageEvaluateShowdown? || g.hand.None?
           || !env.evaluates(g.setup.value.agreement.value, g.hand.value.state, c) || winner != RankWinner(c) then None
        else Some(g.(evaluated := Some(Evaluated(c, winner)), stage := StageSettleShowdown))
      case _ => None
  }

  function NoShares(): (known: seq<bool>)
    ensures |known| == SLOTS && forall i | 0 <= i < SLOTS :: !known[i]
  {
    seq(SLOTS, i => false)
  }

  // ---------- Whole logs ----------

  function Replay(env: Env, g: Game, events: seq<Event>): (r: Option<Game>) {
    if events == [] then Some(g)
    else match Replay(env, g, events[..|events| - 1])
      case None => None
      case Some(h) => Step(env, h, events[|events| - 1])
  }
}
