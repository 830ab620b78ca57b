/** What every log of admitted events keeps: the hand is always a hand of the covenant, and prepared work is exact. */
module GameRuns {
  import opened Bytes
  import opened Hand
  import opened Rules
  import opened Runs
  import opened Terminals
  import opened Admission
  import opened Refinement
  import opened Choices
  import opened Messages
  import opened Events
  import opened SetupRules
  import opened Reducer
  import opened Options

  predicate Working(stage: Stage) { stage.StageTransactionPrepared? || Submitting(stage) }

  predicate Choosing(stage: Stage) {
    stage.StageBettingLocal? || stage.StageAllInLocal?
  }

  /** Prepared work exists exactly in its three stages, and it is signed exactly after the first. */
  predicate WorkFits(g: Game) {
    && (g.prepared.Some? <==> Working(g.stage))
    && (g.prepared.Some? ==> (g.prepared.value.saved.signed.Some? <==> Submitting(g.stage)))
  }

  /** An accepted hand is a reachable state of the agreed covenant, with its exact value and the shares it published. */
  predicate HandIsReachable(env: Env, g: Game) {
    g.hand.Some? ==>
      && Contract(env, g).Some? && g.setup.Some?
      && Inv(Contract(env, g).value, g.hand.value.state)
      && g.hand.value.value == Held(Contract(env, g).value, g.hand.value.state)
      && Knows(g.hand.value.known, g.hand.value.state)
  }

  /** Between actions the stage follows from the accepted hand; a showdown's evaluation comes after it. */
  predicate StageFollows(g: Game) {
    && (g.hand.Some? ==>
          && g.setup.Some? && |g.hand.value.known| == SLOTS
          && (g.stage == RouteOf(g.setup.value.role, g.hand.value) || Working(g.stage)
              || (g.stage.StageSettleShowdown? && g.evaluated.Some? && g.hand.value.state.phase == Evaluation)))
    && (g.hand.None? ==>
        InSetup(g.stage) || g.stage.StageInitialDeposit? || g.stage.StageAwaitInitialDeposit? || Working(g.stage)
                          || g.stage.StageAborted? || g.stage.StageFinished?)
  }

  /** The smallest refund and the largest payout of these terms are admissible outputs. */
  predicate TermsPayable(c: Config, t: Terms) {
    c.services.min <= t.bond && (t.stake + t.bond + t.maxWager) * 2 <= c.services.max
  }

  predicate SetupExists(env: Env, g: Game) {
    && (g.setup.None? ==> g.stage.StageInit?)
    && (g.setup.Some? ==>
          && ValidConfig(env, g.config) && !g.stage.StageInit?
          && TermsPayable(g.config, g.setup.value.invitation.offer.terms)
          && (g.setup.value.agreement.Some? ==>
              g.setup.value.agreement.value.terms == g.setup.value.invitation.offer.terms))
  }

  predicate GameInv(env: Env, g: Game) {
    SetupExists(env, g) && WorkFits(g) && HandIsReachable(env, g) && StageFollows(g)
  }

  lemma RouteIsNotWork(role: Player, h: HandState)
    requires |h.known| == SLOTS
    ensures !Working(RouteOf(role, h)) && !RouteOf(role, h).StageSettleShowdown? && !InSetup(RouteOf(role, h))
    ensures !RouteOf(role, h).StageInitialDeposit? && !RouteOf(role, h).StageAwaitInitialDeposit?
  {
  }

  /** Admitting a live spend steps the covenant: the next hand is what some move of the builders makes of this one. */
  lemma AdmittedHandIsReachable(env: Env, g: Game, a: Accepted, at: nat)
    requires g.hand.Some? && HandIsReachable(env, g) && SetupExists(env, g)
    requires Observe(env, g, g.hand.value, a, at).Some? && Observe(env, g, g.hand.value, a, at).value.Continues?
    ensures var p, h, next := Contract(env, g).value, g.hand.value, Observe(env, g, g.hand.value, a, at).value.hand;
      && a.spend.Moves? && a.spend.tx.after == next.state
      && Inv(p, next.state) && next.value == Held(p, next.state) && Knows(next.known, next.state)
      && SomeMoveBuilds(p, h.state, a.spend.tx)
      && next.state.deadline == h.state.deadline + DEADLINE_INTERVAL
      && next.holes == h.holes
  {
    hide RevealSlots, Admits, SomeMoveBuilds, Inv, Live, Held;
    var p, h := Contract(env, g).value, g.hand.value;
    var agreement, tx := g.setup.value.agreement.value, a.spend.tx;
    var valid := (slot: nat, share: bytes, proof: bytes) => env.share(agreement, slot, share, proof);
    var o := PolicyOf(g.config);
    WellFormedInv(p, h.state);
    AdmittedIsBuilt(p, o, h.state, h.known, tx, valid);
    SomeMoveKeepsInv(p, h.state, tx);
    AdmittedShares(p, o, h.state, h.value, h.known, tx, valid);
  }

  lemma WellFormedInv(p: Params, s: State)
    requires Inv(p, s)
    ensures WellFormed(s)
  {
  }

  lemma SomeMoveKeepsInv(p: Params, s: State, tx: LiveTx)
    requires ValidParams(p) && Inv(p, s) && SomeMoveBuilds(p, s, tx)
    ensures Inv(p, tx.after) && tx.value == Held(p, tx.after) && tx.after.deadline == s.deadline + DEADLINE_INTERVAL
  {
    hide Inv, Live, Held;
    WellFormedInv(p, s);
    var m :| Live(p, s, Held(p, s), m, tx.funding) == Some(Built(tx.after, tx.value, tx.funding, tx.proofs));
    MoveKeepsInv(p, s, Held(p, s), m, tx.funding);
  }

  lemma AdmittedShares(p: Params, o: OutputPolicy, s: State, held: int, known: seq<bool>, tx: LiveTx, valid: ShareCheck)
    requires WellFormed(s) && WellFormed(tx.after) && |known| == SLOTS && Knows(known, s)
    requires Admits(p, o, s, held, known, tx, valid)
    ensures Knows(KnownAfter(known, RevealSlots(s.phase)), tx.after)
  {
    hide RevealSlots, EdgesBalance, LayoutAdmitted, ContributionAdmitted;
    var slots := RevealSlots(s.phase);
    forall i: nat | i < SLOTS
      ensures (known[i] || i in slots) == IsPublished(tx.after, i)
    {
      if i in slots {
        var k :| 0 <= k < |slots| && slots[k] == i;
        assert ShareAdmitted(valid, slots[k], tx.after.shares[slots[k]], tx.proofs[|slots| - 1 - k]);
      } else {
        ExpectedKeepsShares(p, s, tx.after);
      }
    }
  }

  // ---------- Every admitted event ----------

  /** What the setup stages may change: the conversation and where it stands. */
  lemma SetupOnlyTalks(env: Env, g: Game, fact: Fact)
    requires g.setup.Some? && ReduceSetup(env, g, fact).Some?
    ensures var next := ReduceSetup(env, g, fact).value;
      && next == g.(stage := next.stage, setup := next.setup) && next.setup.Some?
      && next.setup.value.invitation == g.setup.value.invitation
      && (InSetup(next.stage) || next.stage.StageInitialDeposit? || next.stage.StageAwaitInitialDeposit?)
      && !next.stage.StageInit?
      && (next.setup.value.agreement == g.setup.value.agreement
          || (next.setup.value.agreement.Some?
              && next.setup.value.agreement.value.terms == g.setup.value.invitation.offer.terms))
  {
    hide PeerFits, ContextFits, FinalVerifies, ContextOf, SameMessage, DeadlineFits, AggregateOf;
  }

  lemma SetupKeepsInv(env: Env, g: Game, fact: Fact)
    requires GameInv(env, g) && g.setup.Some? && InSetup(g.stage) && ReduceSetup(env, g, fact).Some?
    ensures GameInv(env, ReduceSetup(env, g, fact).value)
  {
    hide ReduceSetup, Inv, RouteOf, TermsPayable, Contract, Knows, Held;
    SetupOnlyTalks(env, g, fact);
    if g.hand.Some? {
      RouteIsNotWork(g.setup.value.role, g.hand.value);
    }
  }

  lemma PreparedSessionFits(env: Env, g: Game, e: Event)
    requires GameInv(env, g) && g.stage.StageInit? && PrepareSession(env, g, e).Some?
    ensures GameInv(env, PrepareSession(env, g, e).value)
  {
    hide ContextFits, SameMessage, OwnershipContext, SessionOf, ServiceBytes;
  }

  lemma DepositKeepsInv(env: Env, g: Game, a: Accepted, at: nat)
    requires GameInv(env, g) && g.setup.Some? && ReduceHand(env, g, DepositObserved(a, at)).Some?
    ensures GameInv(env, ReduceHand(env, g, DepositObserved(a, at)).value)
  {
    var p := Contract(env, g).value;
    var h := HandState(a.id, a.spend.tx.after, a.spend.tx.value, at, NoShares(), false);
    InitialInv(p);
    RouteIsNotWork(g.setup.value.role, h);
  }

  lemma SpendKeepsInv(env: Env, g: Game, a: Accepted, at: nat)
    requires GameInv(env, g) && g.setup.Some? && ReduceHand(env, g, SpendObserved(a, at)).Some?
    ensures GameInv(env, ReduceHand(env, g, SpendObserved(a, at)).value)
  {
    hide Observe, Inv, Held, SomeMoveBuilds;
    WellFormedInv(Contract(env, g).value, g.hand.value.state);
    var r := Observe(env, g, g.hand.value, a, at).value;
    if r.Continues? {
      AdmittedHandIsReachable(env, g, a, at);
      RouteIsNotWork(g.setup.value.role, r.hand);
    }
  }

  lemma OpeningKeepsInv(env: Env, g: Game, a: Accepted, at: nat)
    requires GameInv(env, g) && g.setup.Some? && ReduceHand(env, g, OpeningObserved(a, at)).Some?
    ensures GameInv(env, ReduceHand(env, g, OpeningObserved(a, at)).value)
  {
    hide Observe, Inv, Held, SomeMoveBuilds;
    WellFormedInv(Contract(env, g).value, g.hand.value.state);
    var h := OpeningHand(env, g, a, at).value;
    if a.id != g.hand.value.id {
      AdmittedHandIsReachable(env, g, a, at);
    }
    RouteIsNotWork(g.setup.value.role, h.(holes := true));
  }

  lemma WorkKeepsInv(env: Env, g: Game, fact: Fact)
    requires GameInv(env, g) && g.setup.Some? && ReduceHand(env, g, fact).Some?
    requires !fact.DepositObserved? && !fact.SpendObserved? && !fact.OpeningObserved?
    ensures GameInv(env, ReduceHand(env, g, fact).value)
  {
    hide Observe, Inv, Held, ActorFits, BuildAction, SavedOf, FundingFits, DepositFits, RouteOf, Permitted;
    if fact.SpendPrepared? {
      PermittedIsNotWork(g.stage, fact.spend.action);
    }
    if fact.ShowdownEvaluated? {
      EvaluationIsRouted(g);
    }
  }

  lemma PermittedIsNotWork(stage: Stage, a: Action)
    requires Permitted(stage, a)
    ensures !Working(stage) && !stage.StageInit?
  {
  }

  /** The evaluation stage is only reached in the evaluation phase. */
  lemma EvaluationIsRouted(g: Game)
    requires StageFollows(g) && g.stage.StageEvaluateShowdown? && g.hand.Some?
    ensures g.hand.value.state.phase == Evaluation
  {
  }

  lemma ReduceKeepsInv(env: Env, g: Game, e: Event)
    requires GameInv(env, g) && Reduce(env, g, e).Some?
    ensures GameInv(env, Reduce(env, g, e).value)
  {
    hide ReduceSetup, ReduceHand, PrepareSession, Inv, Held, RouteOf, MessageBytes;
    if g.nextEvent == 0 || e.fact.Configured? || e.fact.SetupAborted? {
    } else if e.fact.PublicationPrepared? {
    } else if g.stage.StageInit? {
      PreparedSessionFits(env, g, e);
    } else if InSetup(g.stage) {
      SetupKeepsInv(env, g, e.fact);
    } else {
      match e.fact
      case DepositObserved(a, at) => DepositKeepsInv(env, g, a, at);
      case SpendObserved(a, at) => SpendKeepsInv(env, g, a, at);
      case OpeningObserved(a, at) => OpeningKeepsInv(env, g, a, at);
      case _ => WorkKeepsInv(env, g, e.fact);
    }
  }

  lemma StepKeepsGame(env: Env, g: Game, e: Event)
    requires GameInv(env, g) && Step(env, g, e).Some?
    ensures GameInv(env, Step(env, g, e).value)
  {
    hide Reduce, InOrder, Inv, Held, RouteOf;
    ReduceKeepsInv(env, g, e);
  }

  /** Whatever the log, a replayed game's hand is a reachable state of the covenant it agreed to. */
  lemma {:induction false} ReplayKeepsGame(env: Env, c: Config, events: seq<Event>)
    requires Replay(env, New(env, c), events).Some?
    ensures GameInv(env, Replay(env, New(env, c), events).value)
  {
    hide Step, GameInv;
    if events == [] {
      assert GameInv(env, New(env, c)) by { NewFits(env, c); }
    } else {
      var n := |events| - 1;
      ReplayKeepsGame(env, c, events[..n]);
      StepKeepsGame(env, Replay(env, New(env, c), events[..n]).value, events[n]);
    }
  }

  lemma NewFits(env: Env, c: Config)
    ensures GameInv(env, New(env, c))
  {
  }

  // ---------- Exact work ----------

  /** The same prepared work: only a missing signature may have been added. */
  predicate SameWork(a: Prepared, b: Prepared) {
    && SameSaved(a.saved, b.saved) && a.built == b.built && a.id == b.id
    && (a.saved.signed.Some? ==> b.saved == a.saved)
  }

  predicate Accepts(fact: Fact) { fact.DepositObserved? || fact.SpendObserved? }

  /** While work is prepared, nothing but an accepted transaction replaces it, and it cannot be aborted or redone. */
  lemma WorkIsExact(env: Env, g: Game, e: Event)
    requires GameInv(env, g) && g.prepared.Some? && Step(env, g, e).Some?
    ensures !e.fact.SetupAborted? && !e.fact.SpendPrepared?
    ensures var next := Step(env, g, e).value;
      if Accepts(e.fact) then next.prepared.None?
      else
        && next.prepared.Some? && SameWork(g.prepared.value, next.prepared.value)
        && next.hand == g.hand && next.setup == g.setup
        && (e.fact.SpendSigned? <==>
              g.prepared.value.saved.signed.None? && next.prepared.value.saved.signed.Some?)
  {
    hide InOrder, Reduce, ReduceHand, SetupExists, HandIsReachable, StageFollows, WalletFits, SameWork;
    WorkingReduces(env, g, e);
    if e.fact.Configured? {
      WorkIsItself(g.prepared.value);
    } else {
      HandKeepsWork(env, g, e.fact);
    }
  }

  lemma WorkIsItself(p: Prepared)
    ensures SameWork(p, p)
  {
  }

  /** While working only the hand's own facts are reduced. */
  lemma WorkingReduces(env: Env, g: Game, e: Event)
    requires GameInv(env, g) && g.prepared.Some? && Reduce(env, g, e).Some?
    ensures g.setup.Some? && !e.fact.SetupAborted?
    ensures if e.fact.Configured? then Reduce(env, g, e) == Some(g)
            else Reduce(env, g, e) == ReduceHand(env, g, e.fact)
  {
    hide ReduceHand, Reducer.ReduceSetup, PrepareSession, HandIsReachable, StageFollows, MessageBytes, AbortReason,
      ValidConfig, TermsPayable;
    WorkingStages(g.stage);
  }

  lemma HandKeepsWork(env: Env, g: Game, fact: Fact)
    requires WorkFits(g) && g.prepared.Some? && g.setup.Some? && ReduceHand(env, g, fact).Some?
    ensures !fact.SpendPrepared?
    ensures var next := ReduceHand(env, g, fact).value;
      if Accepts(fact) then next.prepared.None?
      else
        && next.prepared.Some? && SameWork(g.prepared.value, next.prepared.value)
        && next.hand == g.hand && next.setup == g.setup
        && (fact.SpendSigned? <==>
              g.prepared.value.saved.signed.None? && next.prepared.value.saved.signed.Some?)
  {
    hide Observe, RouteOf, Prepare, OpeningHand, DepositFits, Contract, Sized, RankWinner, NoShares;
    WorkingStages(g.stage);
    if fact.SpendPrepared? {
      NothingPrepared(env, g, fact.spend);
    }
  }

  lemma NothingPrepared(env: Env, g: Game, s: SavedSpend)
    requires Working(g.stage) && g.setup.Some? && (g.hand.Some? ==> Sized(g.hand.value))
    ensures Prepare(env, g, s).None?
  {
    hide Observe, BuildAction, ActorFits, FundingFits, DepositFits;
    WorkingStages(g.stage);
  }

  lemma WorkingStages(stage: Stage)
    requires Working(stage)
    ensures !InSetup(stage) && !MayAbort(stage)
    ensures forall a: Action :: !Permitted(stage, a)
  {
  }

  function Signings(events: seq<Event>): (n: nat)
    ensures n <= |events|
  {
    if events == [] then 0
      else Signings(events[..|events| - 1]) + (if events[|events| - 1].fact.SpendSigned? then 1 else 0)
  }

  /** Over any log between preparing and acceptance: the same action and bundle, at most one signing, and no abort. */
  lemma {:induction false} WorkIsExactThroughout(env: Env, g: Game, events: seq<Event>)
    requires GameInv(env, g) && g.prepared.Some? && Replay(env, g, events).Some?
    requires forall i | 0 <= i < |events| :: !Accepts(events[i].fact)
    ensures var next := Replay(env, g, events).value;
      && GameInv(env, next) && next.prepared.Some? && SameWork(g.prepared.value, next.prepared.value)
      && Signings(events)
      == (if g.prepared.value.saved.signed.None? && next.prepared.value.saved.signed.Some? then 1 else 0)
    ensures forall i | 0 <= i < |events| :: !events[i].fact.SetupAborted? && !events[i].fact.SpendPrepared?
  {
    hide Step, GameInv;
    if events != [] {
      var n := |events| - 1;
      WorkIsExactThroughout(env, g, events[..n]);
      var h := Replay(env, g, events[..n]).value;
      WorkIsExact(env, h, events[n]);
      StepKeepsGame(env, h, events[n]);
      assert forall i | 0 <= i < n :: events[..n][i] == events[i];
    }
  }

  // ---------- Choices ----------

  /** In every replayed game, what a local betting stage offers is exactly what the builder accepts. */
  lemma OffersInEveryGame(env: Env, c: Config, events: seq<Event>, action: BettingAction)
    requires Replay(env, New(env, c), events).Some?
    requires Replay(env, New(env, c), events).value.stage.StageBettingLocal?
    ensures var g := Replay(env, New(env, c), events).value;
      && g.hand.Some? && g.setup.Some? && Contract(env, g).Some?
      && var p, s, role := Contract(env, g).value, g.hand.value.state, g.setup.value.role;
         && |s.shares| == SLOTS && Choices.Offer(p, s, role).Some?
         && (Offers(Choices.Offer(p, s, role).value, action) <==> Apply(p, s, Bet(action)).Some?)
  {
    hide Replay, Inv, Held, Apply, Choices.Offer, Offers;
    ReplayKeepsGame(env, c, events);
    var g := Replay(env, New(env, c), events).value;
    var p, s := Contract(env, g).value, g.hand.value.state;
    WellFormedInv(p, s);
    OffersAreExact(p, s, action);
  }

  // ---------- Settlements ----------

  predicate PayoutsAllowed(c: Config, payouts: seq<Payout>) {
    forall i | 0 <= i < |payouts| :: PolicyOf(c).min <= payouts[i].value <= PolicyOf(c).max
  }

  /** The contract's terms are the invitation's, so what was checked of the invitation bounds every value held. */
  lemma HeldIsPayable(env: Env, g: Game)
    requires GameInv(env, g) && g.hand.Some?
    ensures var p := Contract(env, g).value;
      && Held(p, g.hand.value.state) == g.hand.value.value
      && g.config.services.min <= p.bond < g.hand.value.value <= g.config.services.max
      && (g.hand.value.state.phase != AwaitFunding ==> p.bond <= g.hand.value.value - p.bond)
  {
    hide RouteOf;
    HeldInRange(Contract(env, g).value, g.hand.value.state);
    WagersBounded(Contract(env, g).value, g.hand.value.state);
  }

  lemma WagersBounded(p: Params, s: State)
    requires ValidParams(p) && Inv(p, s)
    ensures s.phase != AwaitFunding ==> 2 * p.bond <= Held(p, s) <= 2 * (p.stake + p.bond + p.maxWager)
    ensures s.phase == AwaitFunding ==> Held(p, s) == p.stake + p.bond
  {
  }

  /** The policy checks made on the peers' payout scripts during setup suffice for every settlement of every hand. */
  lemma EverySettlementIsAllowed(env: Env, g: Game, payouts: seq<Payout>, c: Claim)
    requires GameInv(env, g) && g.hand.Some?
    requires var p, h := Contract(env, g).value, g.hand.value;
      || ConcessionPayouts(p, h.state.phase, h.value) == Some(payouts)
      || TimeoutPayouts(h.state.phase, h.value) == Some(payouts)
      || ShowdownPayouts(p, h.state, h.value, c.cards, c.rank1, c.rank2) == Some(payouts)
    ensures PayoutsAllowed(g.config, payouts)
  {
    hide GameInv;
    HeldIsPayable(env, g);
  }

  /** An admitted settlement pays out exactly the accepted covenant's value, leaves nobody who acted in time less than
      the bond, and names as winner the player it pays more. */
  lemma EverySettlementConserves(env: Env, g: Game, a: Accepted, at: nat)
    requires GameInv(env, g) && g.hand.Some? && Sized(g.hand.value)
    requires Observe(env, g, g.hand.value, a, at).Some? && Observe(env, g, g.hand.value, a, at).value.Ends?
    ensures var p, s, o := Contract(env, g).value, g.hand.value.state,
      Observe(env, g, g.hand.value, a, at).value.outcome;
      && o.Settlement? && Conserves(p, s, o.payouts, if o.how == ByTimeout then RequiredActor(s.phase) else None)
      && (o.winner.Some? ==> PaidTo(o.payouts, o.winner.value) >= PaidTo(o.payouts, Other(o.winner.value)))
      && (o.winner.None? ==> PaidTo(o.payouts, Player1) == PaidTo(o.payouts, Player2))
      && (o.kind == Won <==> o.winner == Some(g.setup.value.role))
      && (o.kind == Tied <==> o.winner.None?)
  {
    hide Admits, Inv, Held, RouteOf, Conserves;
    var p, h := Contract(env, g).value, g.hand.value;
    var payouts, claim := a.spend.payouts, a.spend.claim;
    SettlementCases(env, g, p, h, payouts, claim);
  }

  lemma SettlementCases(env: Env, g: Game, p: Params, h: HandState, payouts: seq<Payout>, claim: Option<Claim>)
    requires ValidParams(p) && Inv(p, h.state) && h.value == Held(p, h.state)
    requires SettlementOf(env, g, p, h, payouts, claim).Some?
    ensures var (how, winner) := SettlementOf(env, g, p, h, payouts, claim).value;
      && Conserves(p, h.state, payouts, if how == ByTimeout then RequiredActor(h.state.phase) else None)
      && (winner.Some? ==> PaidTo(payouts, winner.value) >= PaidTo(payouts, Other(winner.value)))
      && (winner.None? ==> PaidTo(payouts, Player1) == PaidTo(payouts, Player2))
  {
    hide Inv, ShowdownPayouts, ConcessionPayouts, TimeoutPayouts, Conserves;
    var s := h.state;
    WagersBounded(p, s);
    HeldInRange(p, s);
    if ConcessionPayouts(p, s.phase, h.value) == Some(payouts) {
      ConcessionPaysTheOther(p, s, payouts);
    } else if TimeoutPayouts(s.phase, h.value) == Some(payouts) {
      TimeoutPaysTheOther(p, s, payouts);
    } else {
      ShowdownPaysTheWinner(p, s, payouts, claim.value);
    }
  }

  lemma ConcessionPaysTheOther(p: Params, s: State, payouts: seq<Payout>)
    requires ValidParams(p) && Inv(p, s) && ConcessionPayouts(p, s.phase, Held(p, s)) == Some(payouts)
    ensures MayConcede(s.phase) && Conserves(p, s, payouts, None)
    ensures PaidTo(payouts, Other(s.phase.actor)) >= PaidTo(payouts, s.phase.actor)
  {
    hide Inv, Held;
    ConcessionConserves(p, s);
    WagersBounded(p, s);
  }

  lemma TimeoutPaysTheOther(p: Params, s: State, payouts: seq<Payout>)
    requires ValidParams(p) && Inv(p, s) && TimeoutPayouts(s.phase, Held(p, s)) == Some(payouts)
    ensures RequiredActor(s.phase).Some? && Conserves(p, s, payouts, RequiredActor(s.phase))
    ensures var actor := RequiredActor(s.phase).value; PaidTo(payouts, Other(actor)) >= PaidTo(payouts, actor)
  {
    TimeoutConserves(p, s);
    HeldInRange(p, s);
    assert payouts[1..] == [];
  }

  lemma ShowdownPaysTheWinner(p: Params, s: State, payouts: seq<Payout>, c: Claim)
    requires ValidParams(p) && Inv(p, s)
      && ShowdownPayouts(p, s, Held(p, s), c.cards, c.rank1, c.rank2) == Some(payouts)
    ensures Conserves(p, s, payouts, None)
    ensures RankWinner(c).Some? ==> PaidTo(payouts, RankWinner(c).value) >= PaidTo(payouts, Other(RankWinner(c).value))
    ensures RankWinner(c).None? ==> PaidTo(payouts, Player1) == PaidTo(payouts, Player2)
  {
    hide Inv, Held;
    WagersBounded(p, s);
    ShowdownConserves(p, s, c.cards, c.rank1, c.rank2);
  }

  /** A waiting player can always claim a matured timeout: the work is permitted, builds and passes its
      own admission. */
  lemma TimeoutCanAlwaysBeClaimed(env: Env, g: Game, at: nat)
    requires GameInv(env, g) && g.hand.Some? && !Working(g.stage)
    requires RequiredActor(g.hand.value.state.phase) == Some(Other(g.setup.value.role))
      && at >= g.hand.value.state.deadline
    ensures var p, h := Contract(env, g).value, g.hand.value;
      && TimeoutPayouts(h.state.phase, h.value).Some? && Sized(h)
      && Prepare(env, g,
                 SavedOf(env, g.hand, ActionTimeout(at),
                         Settles(TimeoutPayouts(h.state.phase, h.value).value, None))).Some?
  {
    hide Inv, Held, Admits, InSetup;
    var p, h := Contract(env, g).value, g.hand.value;
    WellFormedInv(p, h.state);
    TimeoutConserves(p, h.state);
    HeldInRange(p, h.state);
    var payouts := TimeoutPayouts(h.state.phase, h.value).value;
    EverySettlementIsAllowed(env, g, payouts, Claim([], 0, 0));
    WaitingMayTimeOut(g.setup.value.role, h, at);
  }

  lemma WaitingMayTimeOut(role: Player, h: HandState, at: nat)
    requires |h.known| == SLOTS && RequiredActor(h.state.phase) == Some(Other(role))
    ensures Permitted(RouteOf(role, h), ActionTimeout(at))
  {
  }
}
