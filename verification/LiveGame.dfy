/** The reducer as the program runs it: objects updated in place, behind a copied candidate. */
module LiveGame {
  import opened Bytes
  import opened Hand
  import opened Messages
  import opened Events
  import opened SetupRules
  import opened Reducer
  import opened Options

  class SetupState {
    var invitation: Invitation
    var role: Player
    var local: Message
    var peer: Option<Message>
    var publication: Option<bytes>
    var pending: Option<Message>
    var nextSend: nat
    var nextReceive: nat
    var initial: Option<Message>
    var final: Option<Message>
    var key: Option<bytes>
    var agreement: Option<Agreement>

    function Value(): (s: Setup)
      reads this
    {
      Setup(invitation, role, local, peer, publication, pending, nextSend, nextReceive, initial, final, key, agreement)
    }

    constructor (s: Setup)
      ensures Value() == s
    {
      invitation, role, local, peer, publication, pending := s.invitation, s.role, s.local, s.peer, s.publication,
        s.pending;
      nextSend, nextReceive, initial, final, key, agreement := s.nextSend, s.nextReceive, s.initial, s.final, s.key,
        s.agreement;
    }

    /** On a refusal the state may already have changed; the caller works on a copy. */
    method AdmitPeer(env: Env, c: Config, m: Message) returns (ok: bool)
      modifies this
      ensures ok == PeerFits(env, c, old(Value()), m)
      ensures ok ==> Value() == WithPeer(env, old(Value()), m)
    {
      hide KeysFit;
      if !KeysFit(env, c, invitation, m, Other(role), None) {
        KeysAreKeys(env, c, invitation, m, Other(role), None);
        return false;
      }
      KeysAreKeys(env, c, invitation, m, Other(role), None);
      if m.sequence != nextReceive || !local.content.Keys? {
        return false;
      }
      var mine, theirs := local.content.participant, m.content.participant;
      if m.identity == local.identity || theirs.signing == mine.signing || theirs.encryption == mine.encryption {
        return false;
      }
      key := if role == Player1 then env.aggregate(mine.encryption, theirs.encryption)
             else env.aggregate(theirs.encryption, mine.encryption);
      if key.None? {
        return false;
      }
      peer := Some(m);
      nextReceive := nextReceive + 1;
      return true;
    }

    method AdmitShuffle(env: Env, c: Config, m: Message, last: bool) returns (ok: bool)
      modifies this
      ensures ok <==> WithShuffle(env, c, old(Value()), m, last).Some?
      ensures ok ==> Value() == WithShuffle(env, c, old(Value()), m, last).value
    {
      hide ContextOf, ParamsOf;
      var s := Value();
      if peer.None? || key.None? {
        return false;
      }
      var binding := ContextOf(env, s, last);
      if binding.None? {
        return false;
      }
      if !last {
        if m.kind != InitialShuffle || m.sender != Player2 || !m.content.Cards?
           || !env.firstShuffle(key.value, m.content.deck, m.content.proof, binding.value) {
          return false;
        }
        initial := Some(m);
        return true;
      }
      if !FinalVerifies(env, s, m) {
        return false;
      }
      var cards := env.deal(m.content.deck);
      if cards.None? {
        return false;
      }
      var a := AgreementOf(env, c, s, m, cards.value);
      if ParamsOf(env, a).None? {
        return false;
      }
      final := Some(m);
      agreement := Some(a);
      return true;
    }
  }

  class GameState {
    var config: Config
    var stage: Stage
    var setup: SetupState?
    var nextEvent: nat
    var previous: bytes
    var hand: Option<HandState>
    var prepared: Option<Prepared>
    var evaluated: Option<Evaluated>
    var outcome: Option<Outcome>

    function Value(): (g: Game)
      reads this, setup
    {
      Game(config, stage, if setup == null then None else Some(setup.Value()), nextEvent, previous, hand, prepared,
           evaluated, outcome)
    }

    /** The zero game of a configuration. */
    constructor New(env: Env, c: Config)
      ensures Value() == Reducer.New(env, c) && setup == null
    {
      config, stage, setup, nextEvent := c, StageInit, null, 0;
      previous := WalletBinding(env, c.wallet);
      hand, prepared, evaluated, outcome := None, None, None, None;
    }

    /** A shallow copy: the setup object is shared. */
    constructor Copy(g: GameState)
      ensures Value() == g.Value() && setup == g.setup
    {
      config, stage, setup, nextEvent, previous := g.config, g.stage, g.setup, g.nextEvent, g.previous;
      hand, prepared, evaluated, outcome := g.hand, g.prepared, g.evaluated, g.outcome;
    }

    /** Atomic: reduces a candidate with its own copy of the setup, and replaces this game only when all is admitted.
        Whoever shares the old setup object sees no change either way. */
    method Apply(env: Env, e: Event) returns (ok: bool)
      requires EventCodec(env)
      modifies this
      ensures ok <==> Step(env, old(Value()), e).Some?
      ensures ok ==> Value() == Step(env, old(Value()), e).value
      ensures ok ==> setup == null || fresh(setup)
      ensures !ok ==> Value() == old(Value()) && setup == old(setup)
    {
      hide Reduce, InOrder, Step;
      StepParts(env, Value(), e);
      var ordered := Ordered(env, e);
      if !ordered {
        return false;
      }
      var encoded := env.encode(e);
      if encoded.None? {
        return false;
      }
      var owned := env.decode(encoded.value);
      assert owned == Some(e);
      var candidate := Candidate();
      assert candidate.Value() == old(Value());
      ok := candidate.ReduceSetup(env, owned.value);
      if !ok {
        return false;
      }
      candidate.nextEvent := candidate.nextEvent + 1;
      candidate.previous := env.hash(encoded.value);
      Become(candidate);
    }

    /** A copy with its own setup object. */
    method Candidate() returns (candidate: GameState)
      ensures fresh(candidate) && candidate.Value() == Value()
      ensures if setup == null then candidate.setup == null else candidate.setup != null && fresh(candidate.setup)
    {
      candidate := new GameState.Copy(this);
      if setup != null {
        candidate.setup := new SetupState(setup.Value());
      }
    }

    method Become(g: GameState)
      modifies this
      ensures Value() == old(g.Value()) && setup == old(g.setup)
    {
      config, stage, setup, nextEvent, previous := g.config, g.stage, g.setup, g.nextEvent, g.previous;
      hand, prepared, evaluated, outcome := g.hand, g.prepared, g.evaluated, g.outcome;
    }

    /** The event's place in the chain. */
    method Ordered(env: Env, e: Event) returns (ok: bool)
      ensures ok == InOrder(env, Value(), e)
    {
      hide WalletFits, WalletBinding;
      var expected := previous;
      if nextEvent == 0 && e.fact.Configured? && e.fact.legacy.Some? {
        if !WalletFits(env, config, e) {
          return false;
        }
        expected := env.hash(e.fact.legacy.value.encoded);
      }
      if e.sequence != nextEvent || e.previous != expected || nextEvent >= MAX_U64 {
        return false;
      }
      return setup == null || e.session == setup.invitation.session;
    }

    /** Reduces in place; after a refusal this object is to be thrown away. */
    method ReduceSetup(env: Env, e: Event) returns (ok: bool)
      modifies this, setup
      ensures ok <==> Reduce(env, old(Value()), e).Some?
      ensures ok ==> Value() == Reduce(env, old(Value()), e).value
      ensures setup == old(setup) || fresh(setup)
    {
      hide Reducer.ReduceSetup, Reducer.ReduceHand, MessageBytes, WalletFits, WalletBinding, Reducer.PrepareSession,
        MayAbort, AbortReason, InSetup;
      if nextEvent == 0 {
        return WalletFits(env, config, e) && e.session == NO_SESSION;
      }
      match e.fact
      case Configured(_) => return false;
      case SetupAborted(reason) =>
        ok := AbortSetup(reason);
      case PublicationPrepared(payload, carrier) =>
        ok := PreparePublication(env, payload, carrier);
      case _ =>
        if stage.StageInit? {
          ok := PrepareSession(env, e);
        } else if setup == null {
          return false;
        } else if InSetup(stage) {
          ok := Converse(env, e.fact);
        } else {
          ok := ReduceHand(env, e.fact);
        }
    }

    method AbortSetup(reason: string) returns (ok: bool)
      modifies this
      ensures ok <==> AbortReason(reason) && MayAbort(old(stage))
      ensures ok ==> Value() == old(Value()).(
        stage := StageAborted, hand := None, prepared := None, evaluated := None, outcome := Some(Abort(reason)))
      ensures setup == old(setup)
    {
      hide AbortReason, MayAbort;
      if !AbortReason(reason) || !MayAbort(stage) {
        return false;
      }
      stage := StageAborted;
      hand, prepared, evaluated, outcome := None, None, None, Some(Abort(reason));
      return true;
    }

    method PreparePublication(env: Env, payload: bytes, carrier: bytes) returns (ok: bool)
      modifies this, setup
      ensures var g := old(Value());
        && (ok <==> PendingMessage(g).Some? && g.setup.value.publication.None?
                    && MessageBytes(env, PendingMessage(g).value) == Some(payload))
        && (ok ==> Value() == g.(setup := Some(g.setup.value.(publication := Some(carrier)))))
      ensures setup == old(setup)
    {
      hide MessageBytes;
      var m := PendingMessage(Value());
      if m.None? || setup.publication.Some? || MessageBytes(env, m.value) != Some(payload) {
        return false;
      }
      setup.publication := Some(carrier);
      return true;
    }

    method PrepareSession(env: Env, e: Event) returns (ok: bool)
      modifies this
      ensures ok <==> Reducer.PrepareSession(env, old(Value()), e).Some?
      ensures ok ==> Value() == Reducer.PrepareSession(env, old(Value()), e).value
      ensures setup == old(setup) || fresh(setup)
    {
      hide InvitationFits, KeyMessage, SameMessage, KeysFit;
      if !e.fact.SessionPrepared? || e.session != e.fact.invitation.session
        || !InvitationFits(env, config, e.fact.invitation) {
        return false;
      }
      var keys := KeyMessage(env, config, e.fact.invitation, e.fact.role, e.fact.secrets);
      if keys.None? || !e.fact.message.content.Keys? {
        return false;
      }
      assert keys.value.content.Keys? by {
        KeyMessageIsKeys(env, config, e.fact.invitation, e.fact.role, e.fact.secrets);
      }
      var content := keys.value.content.(walletOwnership := e.fact.message.content.walletOwnership);
      var mine := keys.value.(content := content);
      if !SameMessage(env, mine, e.fact.message)
         || !KeysFit(env, config, e.fact.invitation, mine, e.fact.role, Some(mine.identity)) {
        return false;
      }
      setup := new SetupState(
        Setup(e.fact.invitation, e.fact.role, mine, None, None, None, 0, 0, None, None, None, None));
      stage := StageSessionPrepared;
      return true;
    }

    method Publish(env: Env, m: Message) returns (ok: bool)
      requires setup != null
      modifies this, setup
      ensures ok <==> Reducer.Publish(env, old(Value()), MessagePublished(m)).Some?
      ensures ok ==> Value() == Reducer.Publish(env, old(Value()), MessagePublished(m)).value
      ensures setup == old(setup)
    {
      hide SameMessage;
      if setup.publication.None? {
        return false;
      }
      var expected := setup.local;
      if setup.pending.Some? {
        expected := setup.pending.value;
      }
      if !SameMessage(env, expected, m) || m.sequence != setup.nextSend || setup.nextSend == MAX_U64 {
        return false;
      }
      setup.nextSend := setup.nextSend + 1;
      setup.pending, setup.publication := None, None;
      stage := AfterPublication(stage);
      return true;
    }

    /** The setup stages: each admits one kind of fact. */
    method Converse(env: Env, fact: Fact) returns (ok: bool)
      requires setup != null
      modifies this, setup
      ensures ok <==> Reducer.ReduceSetup(env, old(Value()), fact).Some?
      ensures ok ==> Value() == Reducer.ReduceSetup(env, old(Value()), fact).value
      ensures setup == old(setup)
    {
      hide PeerFits, Reducer.Publish, Reducer.PrepareShuffle, Reducer.ReceiveShuffle;
      ok := false;
      OtherFacts(env, Value(), fact);
      match stage
      case StageSessionPrepared =>
        if fact.SessionOpened? {
          stage := if setup.role == Player1 then StageAwaitOpponentKeys else StagePlayer2KeysPrepared;
          return true;
        }
      case StagePlayer2KeysPrepared | StagePlayer1KeysPrepared
         | StageInitialShufflePrepared | StageFinalShufflePrepared =>
        if fact.MessagePublished? {
          ok := Publish(env, fact.message);
        }
      case StageAwaitOpponentKeys =>
        if fact.MessageReceived? {
          ok := setup.AdmitPeer(env, config, fact.message);
          if ok {
            stage := if setup.role == Player1 then StagePlayer1KeysPrepared else StageInitialShuffle;
          }
        }
      case StageInitialShuffle | StageFinalShuffle =>
        if fact.MessagePrepared? {
          ok := PrepareShuffle(env, fact.message, stage.StageFinalShuffle?);
        }
      case StageAwaitInitialShuffle | StageAwaitFinalShuffle =>
        if fact.MessageReceived? {
          ok := ReceiveShuffle(env, fact.message, fact.at, stage.StageAwaitFinalShuffle?);
        }
      case _ =>
    }

    method PrepareShuffle(env: Env, m: Message, last: bool) returns (ok: bool)
      requires setup != null
      modifies this, setup
      ensures ok <==> Reducer.PrepareShuffle(env, old(Value()), MessagePrepared(m), last).Some?
      ensures ok ==> Value() == Reducer.PrepareShuffle(env, old(Value()), MessagePrepared(m), last).value
      ensures setup == old(setup)
    {
      hide ContextFits, WithShuffle;
      if !ContextFits(env, setup.invitation, m, setup.role, Some(setup.local.identity))
        || m.sequence != setup.nextSend {
        return false;
      }
      ok := setup.AdmitShuffle(env, config, m, last);
      if ok {
        setup.pending := Some(m);
        stage := if last then StageFinalShufflePrepared else StageInitialShufflePrepared;
      }
    }

    method ReceiveShuffle(env: Env, m: Message, at: nat, last: bool) returns (ok: bool)
      requires setup != null
      modifies this, setup
      ensures ok <==> Reducer.ReceiveShuffle(env, old(Value()), MessageReceived(m, at), last).Some?
      ensures ok ==> Value() == Reducer.ReceiveShuffle(env, old(Value()), MessageReceived(m, at), last).value
      ensures setup == old(setup)
    {
      hide ContextFits, WithShuffle, DeadlineFits;
      if setup.peer.None? || !ContextFits(env, setup.invitation, m, Other(setup.role), Some(setup.peer.value.identity))
         || m.sequence != setup.nextReceive || setup.nextReceive == MAX_U64 {
        return false;
      }
      if last && !(m.content.Cards? && DeadlineFits(at, m.content.deadline)) {
        return false;
      }
      ok := setup.AdmitShuffle(env, config, m, last);
      if ok {
        setup.nextReceive := setup.nextReceive + 1;
        stage := if last then StageInitialDeposit else StageFinalShuffle;
      }
    }

    /** Saving, signing and submitting the player's own transaction. */
    method ReduceWork(env: Env, fact: Fact) returns (ok: bool)
      requires setup != null && Contract(env, Value()).Some? && (hand.Some? ==> Sized(hand.value))
      requires fact.SpendPrepared? || fact.SpendSigned? || fact.SubmissionAttempted? || fact.SubmissionFailed?
      modifies this
      ensures ok <==> Reducer.ReduceHand(env, old(Value()), fact).Some?
      ensures ok ==> Value() == Reducer.ReduceHand(env, old(Value()), fact).value
      ensures setup == old(setup)
    {
      hide Observe, DepositFits, OpeningHand, Reducer.Prepare, Sized, RouteOf, SameSaved, RankWinner, NoShares,
        Contract;
      var g := Value();
      match fact
      case SpendPrepared(s) =>
        var next := Reducer.Prepare(env, g, s);
        if next.None? {
          return false;
        }
        PrepareOnlyPrepares(env, g, s);
        prepared := next.value.prepared;
        stage := StageTransactionPrepared;
        return true;
      case SpendSigned(s) =>
        if !stage.StageTransactionPrepared? || prepared.None? || s.signed.None? || !SameSaved(prepared.value.saved, s)
           || !env.sameWork(prepared.value.saved.prepared, s.signed.value) {
          return false;
        }
        var next := prepared.value;
        next := next.(saved := s);
        prepared := Some(next);
        stage := StageTransactionSigned;
        return true;
      case SubmissionAttempted(recovery, id, at) =>
        if !Submitting(stage) || prepared.None? || (id.Some? && id.value != prepared.value.id) {
          return false;
        }
        if stage.StageAwaitTransactionAcceptance? && !recovery {
          if prepared.value.lastAttempt > MAX_U64 - RETRY_INTERVAL || at < prepared.value.lastAttempt + RETRY_INTERVAL {
            return false;
          }
        }
        var next := prepared.value;
        next := next.(lastAttempt := at);
        prepared := Some(next);
        stage := StageAwaitTransactionAcceptance;
        return true;
      case SubmissionFailed(_) =>
        if prepared.None? || !Submitting(stage) {
          return false;
        }
        stage := StageAwaitTransactionAcceptance;
        return true;
    }

    method ObserveSpend(env: Env, a: Accepted, at: nat) returns (ok: bool)
      requires setup != null && Contract(env, Value()).Some? && (hand.Some? ==> Sized(hand.value))
      modifies this
      ensures ok <==> Reducer.ReduceHand(env, old(Value()), SpendObserved(a, at)).Some?
      ensures ok ==> Value() == Reducer.ReduceHand(env, old(Value()), SpendObserved(a, at)).value
      ensures setup == old(setup)
    {
      hide Observe, Sized, RouteOf, Contract;
      var g := Value();
      if hand.None? {
        return false;
      }
      var r := Observe(env, g, hand.value, a, at);
      if r.None? {
        return false;
      }
      prepared, evaluated := None, None;
      match r.value {
        case Ends(o) =>
          outcome, hand, stage := Some(o), None, StageFinished;
        case Continues(h) =>
          assert |h.known| == SLOTS by { SizedKnows(h); }
          hand := Some(h);
          stage := RouteOf(setup.role, h);
      }
      return true;
    }

    method ObserveOpening(env: Env, a: Accepted, at: nat) returns (ok: bool)
      requires setup != null && Contract(env, Value()).Some? && (hand.Some? ==> Sized(hand.value))
      modifies this
      ensures ok <==> Reducer.ReduceHand(env, old(Value()), OpeningObserved(a, at)).Some?
      ensures ok ==> Value() == Reducer.ReduceHand(env, old(Value()), OpeningObserved(a, at)).value
      ensures setup == old(setup)
    {
      hide OpeningHand, Sized, RouteOf, Contract;
      var g := Value();
      if (!stage.StageAwaitPlayer1Funding? && !stage.StageAwaitPlayer2Opening?) || hand.None? {
        return false;
      }
      var h := OpeningHand(env, g, a, at);
      if h.None? {
        return false;
      }
      var next := h.value;
      next := next.(holes := true);
      assert setup.agreement.Some? by { AgreedContract(env, g); }
      if |next.known| != SLOTS || !env.decodes(setup.agreement.value, next.state.shares, next.known, true) {
        return false;
      }
      hand := Some(next);
      stage := RouteOf(setup.role, next);
      return true;
    }

    method ReduceHand(env: Env, fact: Fact) returns (ok: bool)
      requires setup != null
      modifies this
      ensures ok <==> Reducer.ReduceHand(env, old(Value()), fact).Some?
      ensures ok ==> Value() == Reducer.ReduceHand(env, old(Value()), fact).value
      ensures setup == old(setup)
    {
      hide Observe, DepositFits, OpeningHand, Reducer.Prepare, Sized, RouteOf, SameSaved, RankWinner, NoShares,
        Contract;
      var g := Value();
      if Contract(env, g).None? || (hand.Some? && !Sized(hand.value)) {
        return false;
      }
      var p := Contract(env, g).value;
      match fact
      case DepositObserved(a, at) =>
        if !stage.StageAwaitInitialDeposit?
           && !(prepared.Some? && prepared.value.saved.action.ActionDeposit? && a.id == prepared.value.id) {
          return false;
        }
        if !DepositFits(env, g, p, a) {
          return false;
        }
        assert a.spend.Moves? by { DepositMoves(env, g, p, a); }
        var h := HandState(a.id, a.spend.tx.after, a.spend.tx.value, at, NoShares(), false);
        hand, prepared := Some(h), None;
        stage := RouteOf(setup.role, h);
        return true;
      case SpendPrepared(_) | SpendSigned(_) | SubmissionAttempted(_, _, _) | SubmissionFailed(_) =>
        ok := ReduceWork(env, fact);
      case SpendObserved(a, at) =>
        ok := ObserveSpend(env, a, at);
      case OpeningObserved(a, at) =>
        ok := ObserveOpening(env, a, at);
      case ShowdownEvaluated(c, winner) =>
        assert setup.agreement.Some? by { AgreedContract(env, g); }
        if !stage.StageEvaluateShowdown? || hand.None? || !env.evaluates(setup.agreement.value, hand.value.state, c)
           || winner != RankWinner(c) {
          return false;
        }
        evaluated := Some(Evaluated(c, winner));
        stage := StageSettleShowdown;
        return true;
      case _ => return false;
    }
  }

  lemma StepParts(env: Env, g: Game, e: Event)
    ensures Step(env, g, e).Some? <==> InOrder(env, g, e) && env.encode(e).Some? && Reduce(env, g, e).Some?
    ensures Step(env, g, e).Some? ==>
      var h := Reduce(env, g, e).value;
      Step(env, g, e).value == h.(nextEvent := h.nextEvent + 1, previous := env.hash(env.encode(e).value))
  {
    hide Reduce, InOrder;
    if Reduce(env, g, e).Some? {
      ReduceKeepsCount(env, g, e);
    }
  }

  lemma ReduceKeepsCount(env: Env, g: Game, e: Event)
    requires Reduce(env, g, e).Some?
    ensures Reduce(env, g, e).value.nextEvent == g.nextEvent
  {
    hide Observe, BuildAction, ActorFits, SavedOf, FundingFits, DepositFits, OpeningHand, InvitationFits, RouteOf,
      KeyMessage, KeysFit, SameMessage, PeerFits, WithShuffle, ContextFits, WithPeer;
  }

  lemma AgreedContract(env: Env, g: Game)
    requires Contract(env, g).Some?
    ensures g.setup.Some? && g.setup.value.agreement.Some?
  {
  }

  lemma SizedKnows(h: HandState)
    requires Sized(h)
    ensures |h.known| == SLOTS
  {
  }

  lemma DepositMoves(env: Env, g: Game, p: Params, a: Accepted)
    requires DepositFits(env, g, p, a)
    ensures a.spend.Moves?
  {
  }

  lemma PrepareOnlyPrepares(env: Env, g: Game, s: SavedSpend)
    requires g.setup.Some? && (g.hand.Some? ==> Sized(g.hand.value)) && Prepare(env, g, s).Some?
    ensures Prepare(env, g, s).value
      == g.(prepared := Prepare(env, g, s).value.prepared, stage := StageTransactionPrepared)
  {
    hide Observe, ActorFits, BuildAction, FundingFits, DepositFits, Permitted;
  }

  /** Publishing and shuffling each take one kind of fact. */
  lemma OtherFacts(env: Env, g: Game, fact: Fact)
    requires g.setup.Some?
    ensures !fact.MessagePublished? ==> Reducer.Publish(env, g, fact).None?
    ensures forall last :: !fact.MessagePrepared? ==> PrepareShuffle(env, g, fact, last).None?
    ensures forall last :: !fact.MessageReceived? ==> ReceiveShuffle(env, g, fact, last).None?
  {
    hide ContextFits, WithShuffle, DeadlineFits;
  }

  lemma KeyMessageIsKeys(env: Env, c: Config, inv: Invitation, role: Player, secrets: Secrets)
    requires KeyMessage(env, c, inv, role, secrets).Some?
    ensures KeyMessage(env, c, inv, role, secrets).value.content.Keys?
  {
    hide InvitationFits, KeysFit;
  }

  lemma KeysAreKeys(env: Env, c: Config, inv: Invitation, m: Message, role: Player, identity: Option<bytes>)
    ensures KeysFit(env, c, inv, m, role, identity) ==> m.content.Keys?
  {
    hide OwnershipContext, ContextFits;
  }
}
