/** Setup over whole logs: each side sends and receives exactly two messages, and both end with the same contract. */
module SetupRuns {
  import opened Hand
  import opened Messages
  import opened Events
  import opened SetupRules
  import opened Reducer
  import opened Options

  // ---------- One side ----------

  /** How many messages each stage of a role has sent and received. */
  predicate CountersFit(role: Player, stage: Stage, sent: nat, received: nat) {
    match stage
    case StageInit => false
    case StageSessionPrepared => sent == 0 && received == 0
    case StagePlayer2KeysPrepared => role == Player2 && sent == 0 && received == 0
    case StageAwaitOpponentKeys => sent == (if role == Player1 then 0 else 1) && received == 0
    case StagePlayer1KeysPrepared => role == Player1 && sent == 0 && received == 1
    case StageInitialShuffle => role == Player2 && sent == 1 && received == 1
    case StageInitialShufflePrepared => role == Player2 && sent == 1 && received == 1
    case StageAwaitInitialShuffle => role == Player1 && sent == 1 && received == 1
    case StageFinalShuffle => role == Player1 && sent == 1 && received == 2
    case StageFinalShufflePrepared => role == Player1 && sent == 1 && received == 2
    case StageAwaitFinalShuffle => role == Player2 && sent == 2 && received == 1
    case StageAborted => sent <= 2 && received <= 2
    case _ => sent == 2 && received == 2
  }

  /** A final shuffle is remembered with the verification and the contract it led to. */
  predicate FinalFits(env: Env, c: Config, s: Setup) {
    && (s.final.None? ==> s.agreement.None?)
    && (s.final.Some? ==>
          && FinalVerifies(env, s, s.final.value) && env.deal(s.final.value.content.deck).Some?
          && s.agreement == Some(AgreementOf(env, c, s, s.final.value, env.deal(s.final.value.content.deck).value))
          && (s.role == Player2 ==> s.final.value.identity == s.invitation.offer.creator))
  }

  /** What is waiting to be published, by stage. */
  predicate PendingFits(stage: Stage, s: Setup) {
    && s.local.content.Keys?
    && (s.local.kind == KeyOffer || s.local.kind == KeyReply)
    && (stage.StageInitialShufflePrepared? ==> s.pending.Some? && s.pending.value.kind == InitialShuffle)
    && (stage.StageFinalShufflePrepared? ==> s.pending.Some? && s.pending == s.final)
    && (s.final.Some? ==> stage.StageFinalShufflePrepared? || !InSetup(stage))
  }

  predicate SideInv(env: Env, g: Game) {
    && (g.setup.None? ==> g.stage.StageInit?)
    && (g.stage.StageAborted? || InSetup(g.stage) ==> g.hand.None? && g.prepared.None?)
    && (g.setup.Some? ==>
          var s := g.setup.value;
          && InvitationFits(env, g.config, s.invitation)
          && CountersFit(s.role, g.stage, s.nextSend, s.nextReceive)
          && FinalFits(env, g.config, s) && PendingFits(g.stage, s))
  }

  lemma PreparedSideFits(env: Env, g: Game, e: Event)
    requires SideInv(env, g) && g.stage.StageInit? && PrepareSession(env, g, e).Some?
    ensures SideInv(env, PrepareSession(env, g, e).value)
  {
    hide ContextFits, SameMessage, OwnershipContext, SessionOf, ServiceBytes, FinalVerifies;
  }

  lemma PublishedSideFits(env: Env, g: Game, fact: Fact)
    requires SideInv(env, g) && g.setup.Some? && Publish(env, g, fact).Some?
    requires AfterPublication(g.stage) != g.stage
    ensures SideInv(env, Publish(env, g, fact).value)
  {
    hide SameMessage, InvitationFits, FinalVerifies, AgreementOf;
    FinalIsStable(env, g.config, g.setup.value, Publish(env, g, fact).value.setup.value);
  }

  lemma ContextIsStable(env: Env, s: Setup, t: Setup)
    requires s.peer.Some? && t.invitation == s.invitation && t.role == s.role && t.local == s.local && t.peer == s.peer
    ensures OrderedKeys(s) == OrderedKeys(t) && ContextOf(env, s, true) == ContextOf(env, t, true)
  {
    hide ShuffleContext;
  }

  /** What a final shuffle was checked against does not include the parts that still change. */
  lemma FinalIsStable(env: Env, c: Config, s: Setup, t: Setup)
    requires FinalFits(env, c, s)
    requires t
      == s.(publication := t.publication, pending := t.pending, nextSend := t.nextSend, nextReceive := t.nextReceive)
    ensures FinalFits(env, c, t)
  {
    hide ContextOf, OrderedKeys;
    if s.peer.Some? {
      ContextIsStable(env, s, t);
    }
  }

  lemma InitialKeepsFinal(env: Env, c: Config, s: Setup, m: Message)
    requires WithInitial(env, s, m).Some? && FinalFits(env, c, s) && s.final.None?
    ensures var t := WithInitial(env, s, m).value;
      FinalFits(env, c, t) && t == s.(initial := Some(m)) && m.kind == InitialShuffle
  {
    hide ContextOf;
  }

  lemma FinalIsRemembered(env: Env, c: Config, s: Setup, m: Message)
    requires WithFinal(env, c, s, m).Some? && (s.role == Player2 ==> m.identity == s.invitation.offer.creator)
    ensures var t := WithFinal(env, c, s, m).value;
      FinalFits(env, c, t) && t == s.(final := Some(m), agreement := t.agreement)
  {
    hide ParamsOf, ContextOf, OrderedKeys;
    ContextIsStable(env, s, WithFinal(env, c, s, m).value);
  }

  lemma PreparedShuffleFits(env: Env, g: Game, fact: Fact, final: bool)
    requires SideInv(env, g) && g.setup.Some? && PrepareShuffle(env, g, fact, final).Some?
    requires if final then g.stage.StageFinalShuffle? else g.stage.StageInitialShuffle?
    ensures SideInv(env, PrepareShuffle(env, g, fact, final).value)
  {
    hide ContextFits, InvitationFits, WithInitial, WithFinal, FinalFits;
    var s, m := g.setup.value, fact.message;
    var t := WithShuffle(env, g.config, s, m, final).value;
    if final {
      FinalIsRemembered(env, g.config, s, m);
    } else {
      InitialKeepsFinal(env, g.config, s, m);
    }
    FinalIsStable(env, g.config, t, t.(pending := Some(m)));
  }

  lemma ReceivedShuffleFits(env: Env, g: Game, fact: Fact, final: bool)
    requires SideInv(env, g) && g.setup.Some? && ReceiveShuffle(env, g, fact, final).Some?
    requires if final then g.stage.StageAwaitFinalShuffle? else g.stage.StageAwaitInitialShuffle?
    ensures SideInv(env, ReceiveShuffle(env, g, fact, final).value)
  {
    hide InvitationFits, WithInitial, WithFinal, FinalFits, MessageBytes, DeadlineFits;
    var s, m := g.setup.value, fact.message;
    var t := WithShuffle(env, g.config, s, m, final).value;
    if final {
      FinalIsRemembered(env, g.config, s, m);
    } else {
      InitialKeepsFinal(env, g.config, s, m);
    }
    FinalIsStable(env, g.config, t, t.(nextReceive := t.nextReceive + 1));
  }

  lemma PeerSideFits(env: Env, g: Game, m: Message)
    requires SideInv(env, g) && g.setup.Some? && g.stage.StageAwaitOpponentKeys?
      && PeerFits(env, g.config, g.setup.value, m)
    ensures SideInv(env,
                    g.(stage := if g.setup.value.role == Player1 then StagePlayer1KeysPrepared else StageInitialShuffle,
                            setup := Some(WithPeer(env, g.setup.value, m))))
  {
    hide InvitationFits, KeysFit, FinalVerifies, AgreementOf;
  }

  lemma SetupKeepsSide(env: Env, g: Game, fact: Fact)
    requires SideInv(env, g) && g.setup.Some? && InSetup(g.stage) && ReduceSetup(env, g, fact).Some?
    ensures SideInv(env, ReduceSetup(env, g, fact).value)
  {
    hide SideInv, PeerFits, Publish, PrepareShuffle, ReceiveShuffle, WithPeer;
    match g.stage
    case StageSessionPrepared => OpenedSideFits(env, g);
    case StageAwaitOpponentKeys => PeerSideFits(env, g, fact.message);
    case StageInitialShuffle => PreparedShuffleFits(env, g, fact, false);
    case StageFinalShuffle => PreparedShuffleFits(env, g, fact, true);
    case StageAwaitInitialShuffle => ReceivedShuffleFits(env, g, fact, false);
    case StageAwaitFinalShuffle => ReceivedShuffleFits(env, g, fact, true);
    case _ => PublishedSideFits(env, g, fact);
  }

  lemma OpenedSideFits(env: Env, g: Game)
    requires SideInv(env, g) && g.setup.Some? && g.stage.StageSessionPrepared?
    ensures SideInv(env,
                    g.(stage := if g.setup.value.role == Player1 then StageAwaitOpponentKeys
                       else StagePlayer2KeysPrepared))
  {
    hide InvitationFits, FinalFits;
  }

  predicate Settled(stage: Stage) { !InSetup(stage) && !stage.StageAborted? }

  /** Play never touches the setup, and never returns to it. */
  lemma PlayKeepsSetup(env: Env, g: Game, fact: Fact)
    requires SideInv(env, g) && g.setup.Some? && !InSetup(g.stage) && ReduceHand(env, g, fact).Some?
    ensures var next := ReduceHand(env, g, fact).value;
      next.setup == g.setup && next.config == g.config && Settled(g.stage) && Settled(next.stage)
  {
    hide Observe, BuildAction, ActorFits, SavedOf, FundingFits, DepositFits, OpeningHand, InvitationFits, FinalFits,
      RouteOf, Permitted;
    forall role, h: HandState | |h.known| == SLOTS
      ensures Settled(RouteOf(role, h))
    {
      RouteIsSettled(role, h);
    }
    if fact.SpendPrepared? {
      PermittedIsSettled(g.stage, fact.spend.action);
    }
  }

  lemma RouteIsSettled(role: Player, h: HandState)
    requires |h.known| == SLOTS
    ensures Settled(RouteOf(role, h))
  {
  }

  lemma PermittedIsSettled(stage: Stage, a: Action)
    requires Permitted(stage, a)
    ensures Settled(stage)
  {
  }

  lemma PlayKeepsSide(env: Env, g: Game, fact: Fact)
    requires SideInv(env, g) && g.setup.Some? && !InSetup(g.stage) && ReduceHand(env, g, fact).Some?
    ensures SideInv(env, ReduceHand(env, g, fact).value)
  {
    hide ReduceHand, InvitationFits, FinalFits;
    PlayKeepsSetup(env, g, fact);
  }

  lemma ReduceKeepsSide(env: Env, g: Game, e: Event)
    requires SideInv(env, g) && Reduce(env, g, e).Some?
    ensures SideInv(env, Reduce(env, g, e).value)
  {
    hide ReduceSetup, ReduceHand, PrepareSession, InvitationFits, FinalFits, MessageBytes;
    if g.nextEvent == 0 || e.fact.Configured? {
    } else if e.fact.SetupAborted? {
      AbortKeepsSide(env, g, e);
    } else if e.fact.PublicationPrepared? {
      FinalIsStable(env, g.config, g.setup.value, g.setup.value.(publication := Some(e.fact.carrier)));
    } else if g.stage.StageInit? {
      PreparedSideFits(env, g, e);
    } else if InSetup(g.stage) {
      SetupKeepsSide(env, g, e.fact);
    } else {
      PlayKeepsSide(env, g, e.fact);
    }
  }

  lemma AbortKeepsSide(env: Env, g: Game, e: Event)
    requires SideInv(env, g) && e.fact.SetupAborted? && MayAbort(g.stage) && g.setup.Some?
    ensures SideInv(env, g.(stage := StageAborted, hand := None, prepared := None, evaluated := None,
                            outcome := Some(Abort(e.fact.reason))))
  {
    hide InvitationFits, FinalFits;
  }

  lemma StepKeepsSide(env: Env, g: Game, e: Event)
    requires SideInv(env, g) && Step(env, g, e).Some?
    ensures SideInv(env, Step(env, g, e).value) && Step(env, g, e).value.config == g.config
  {
    hide InOrder, InvitationFits, FinalFits;
    ReduceKeepsSide(env, g, e);
    ReduceKeepsConfig(env, g, e);
  }

  lemma ReduceKeepsConfig(env: Env, g: Game, e: Event)
    requires Reduce(env, g, e).Some?
    ensures Reduce(env, g, e).value.config == g.config
  {
    hide Observe, BuildAction, ActorFits, SavedOf, FundingFits, DepositFits, OpeningHand, InvitationFits, RouteOf,
      KeyMessage, KeysFit, SameMessage, PeerFits, WithShuffle, ContextFits, WithPeer;
  }

  // ---------- Whole logs ----------

  lemma NewSideFits(env: Env, c: Config)
    ensures SideInv(env, New(env, c))
  {
  }

  lemma {:induction false} ReplayKeepsSide(env: Env, c: Config, events: seq<Event>)
    requires Replay(env, New(env, c), events).Some?
    ensures var g := Replay(env, New(env, c), events).value; SideInv(env, g) && g.config == c
  {
    hide Step, SideInv;
    if events == [] {
      NewSideFits(env, c);
    } else {
      var n := |events| - 1;
      ReplayKeepsSide(env, c, events[..n]);
      StepKeepsSide(env, Replay(env, New(env, c), events[..n]).value, events[n]);
    }
  }

  /** The sequence numbers published, and those received, in order. */
  function Published(events: seq<Event>): (s: seq<nat>) {
    if events == [] then []
    else
      var last := events[|events| - 1].fact;
      Published(events[..|events| - 1]) + (if last.MessagePublished? then [last.message.sequence] else [])
  }

  function Received(events: seq<Event>): (s: seq<nat>) {
    if events == [] then []
    else
      var last := events[|events| - 1].fact;
      Received(events[..|events| - 1]) + (if last.MessageReceived? then [last.message.sequence] else [])
  }

  function Count(n: nat): (s: seq<nat>)
    ensures |s| == n && forall i | 0 <= i < n :: s[i] == i
  {
    seq(n, i => i)
  }

  function SentBy(g: Game): (n: nat) { if g.setup.Some? then g.setup.value.nextSend else 0 }

  function ReceivedBy(g: Game): (n: nat) { if g.setup.Some? then g.setup.value.nextReceive else 0 }

  /** A fact's messages carry exactly the next numbers. */
  predicate Counts(g: Game, fact: Fact, next: Game) {
    && SentBy(next) == SentBy(g) + (if fact.MessagePublished? then 1 else 0)
    && ReceivedBy(next) == ReceivedBy(g) + (if fact.MessageReceived? then 1 else 0)
    && (fact.MessagePublished? ==> fact.message.sequence == SentBy(g))
    && (fact.MessageReceived? ==> fact.message.sequence == ReceivedBy(g))
  }

  lemma StepCounts(env: Env, g: Game, e: Event)
    requires SideInv(env, g) && Step(env, g, e).Some?
    ensures Counts(g, e.fact, Step(env, g, e).value)
  {
    hide InOrder, Reduce, SideInv;
    ReduceCounts(env, g, e);
  }

  lemma ReduceCounts(env: Env, g: Game, e: Event)
    requires SideInv(env, g) && Reduce(env, g, e).Some?
    ensures Counts(g, e.fact, Reduce(env, g, e).value)
  {
    hide ReduceHand, ReduceSetup, PrepareSession, SideInv, Counts, SentBy, ReceivedBy, MessageBytes, AbortReason,
      WalletBinding;
    if g.nextEvent == 0 || e.fact.Configured? || e.fact.SetupAborted? || e.fact.PublicationPrepared? {
      SameCounts(g, e.fact, Reduce(env, g, e).value);
    } else if g.stage.StageInit? {
      PreparedCounts(env, g, e);
    } else if InSetup(g.stage) {
      SetupCounts(env, g, e.fact);
    } else {
      PlayKeepsSetup(env, g, e.fact);
      PlayHasNoMessages(env, g, e.fact);
      SameCounts(g, e.fact, Reduce(env, g, e).value);
    }
  }

  lemma SameCounts(g: Game, fact: Fact, next: Game)
    requires !fact.MessagePublished? && !fact.MessageReceived?
    requires next.setup == g.setup || (g.setup.Some? && next.setup.Some?
      && next.setup.value == g.setup.value.(publication := next.setup.value.publication))
    ensures Counts(g, fact, next)
  {
  }

  lemma PreparedCounts(env: Env, g: Game, e: Event)
    requires SideInv(env, g) && g.stage.StageInit? && PrepareSession(env, g, e).Some?
    ensures Counts(g, e.fact, PrepareSession(env, g, e).value)
  {
    hide InvitationFits, KeyMessage, SameMessage, KeysFit, FinalFits;
  }

  lemma PlayHasNoMessages(env: Env, g: Game, fact: Fact)
    requires g.setup.Some? && ReduceHand(env, g, fact).Some?
    ensures !fact.MessagePublished? && !fact.MessageReceived?
  {
  }

  lemma SetupCounts(env: Env, g: Game, fact: Fact)
    requires g.setup.Some? && ReduceSetup(env, g, fact).Some?
    ensures Counts(g, fact, ReduceSetup(env, g, fact).value)
  {
    hide InvitationFits, KeysFit, SameMessage, ContextFits, FinalVerifies, ContextOf, AgreementOf, AggregateOf,
      DeadlineFits;
  }

  lemma {:induction false} LogCounts(env: Env, c: Config, events: seq<Event>)
    requires Replay(env, New(env, c), events).Some?
    ensures var g := Replay(env, New(env, c), events).value;
      Published(events) == Count(SentBy(g)) && Received(events) == Count(ReceivedBy(g))
  {
    hide Step, SideInv;
    if events != [] {
      var n := |events| - 1;
      LogCounts(env, c, events[..n]);
      ReplayKeepsSide(env, c, events[..n]);
      StepCounts(env, Replay(env, New(env, c), events[..n]).value, events[n]);
    }
  }

  /** A side that has set up, and not aborted, has sent exactly messages 0 and 1 and received exactly messages 0
      and 1. */
  lemma TwoMessagesEachWay(env: Env, c: Config, events: seq<Event>)
    requires Replay(env, New(env, c), events).Some? && Settled(Replay(env, New(env, c), events).value.stage)
    ensures Published(events) == [0, 1] && Received(events) == [0, 1]
  {
    hide Step, Replay, Published, Received, InvitationFits, FinalFits, PendingFits;
    ReplayKeepsSide(env, c, events);
    LogCounts(env, c, events);
    assert Count(2) == [0, 1];
  }
}
