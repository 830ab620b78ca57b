/** A creator and a joiner together: any interleaving of their events over an authenticated network. */
module Agreements {
  import opened Bytes
  import opened Hand
  import opened Messages
  import opened Events
  import opened SetupRules
  import opened Reducer
  import opened SetupRuns
  import opened Options

  /** Two games, and what each side has handed to its transport. */
  datatype World = World(creator: Game, joiner: Game, fromCreator: seq<Message>, fromJoiner: seq<Message>)

  datatype Turn = Turn(creator: bool, event: Event)

  /** A message under a player's transport key reaches the other only if its holder published it; anyone may write
      under any other key. */
  predicate Authentic(e: Event, key: bytes, sent: seq<Message>) {
    e.fact.MessageReceived? && e.fact.message.identity == key ==> e.fact.message in sent
  }

  /** The session secrets are this side's own. */
  predicate HoldsKey(g: Game, key: bytes) { g.setup.Some? ==> g.setup.value.local.identity == key }

  /** Preparing a publication is what lets the message out. */
  function Sending(g: Game, e: Event): (m: seq<Message>) {
    if e.fact.PublicationPrepared? && PendingMessage(g).Some? then [PendingMessage(g).value] else []
  }

  function Play(env: Env, w: World, creatorKey: bytes, joinerKey: bytes, t: Turn): (next: Option<World>) {
    if t.creator then
      (match Step(env, w.creator, t.event)
       case None => None
       case Some(g) =>
         if !Authentic(t.event, joinerKey, w.fromJoiner) || !HoldsKey(g, creatorKey) then None
         else Some(w.(creator := g, fromCreator := w.fromCreator + Sending(w.creator, t.event))))
    else
      (match Step(env, w.joiner, t.event)
       case None => None
       case Some(g) =>
         if !Authentic(t.event, creatorKey, w.fromCreator) || !HoldsKey(g, joinerKey) then None
         else Some(w.(joiner := g, fromJoiner := w.fromJoiner + Sending(w.joiner, t.event))))
  }

  function Start(env: Env, c: Config, j: Config): (w: World) { World(New(env, c), New(env, j), [], []) }

  function PlayAll(env: Env, w: World, creatorKey: bytes, joinerKey: bytes, turns: seq<Turn>): (r: Option<World>) {
    if turns == [] then Some(w)
    else match PlayAll(env, w, creatorKey, joinerKey, turns[..|turns| - 1])
      case None => None
      case Some(v) => Play(env, v, creatorKey, joinerKey, turns[|turns| - 1])
  }

  // ---------- What both sides keep ----------

  /** A final shuffle the creator let out is the one its contract comes from. */
  predicate FinalsAreRemembered(g: Game, sent: seq<Message>) {
    forall i | 0 <= i < |sent| && sent[i].kind == FinalShuffle :: g.setup.Some? && g.setup.value.final == Some(sent[i])
  }

  /** A final shuffle the joiner admitted under the creator's key was let out by the creator. */
  predicate FinalWasSent(g: Game, key: bytes, sent: seq<Message>) {
    (g.setup.Some? && g.setup.value.role == Player2 && g.setup.value.final.Some?
     && g.setup.value.final.value.identity == key)
    ==> g.setup.value.final.value in sent
  }

  predicate WorldInv(env: Env, w: World, creatorKey: bytes) {
    && SideInv(env, w.creator) && SideInv(env, w.joiner)
    && FinalsAreRemembered(w.creator, w.fromCreator)
    && FinalWasSent(w.joiner, creatorKey, w.fromCreator)
  }

  /** A final shuffle stays as admitted. */
  lemma FinalStays(env: Env, g: Game, e: Event)
    requires SideInv(env, g) && Step(env, g, e).Some? && g.setup.Some? && g.setup.value.final.Some?
    ensures var next := Step(env, g, e).value;
      next.setup.Some? && next.setup.value.final == g.setup.value.final && next.setup.value.role == g.setup.value.role
  {
    hide InOrder, Reduce, SideInv;
    ReducedFinalStays(env, g, e);
  }

  lemma ReducedFinalStays(env: Env, g: Game, e: Event)
    requires SideInv(env, g) && Reduce(env, g, e).Some? && g.setup.Some? && g.setup.value.final.Some?
    ensures var next := Reduce(env, g, e).value;
      next.setup.Some? && next.setup.value.final == g.setup.value.final && next.setup.value.role == g.setup.value.role
  {
    hide ReduceHand, PrepareSession, InvitationFits, FinalFits, MessageBytes, AbortReason, WalletFits, SameMessage,
      PeerFits, WithShuffle, ContextFits, DeadlineFits;
    if !InSetup(g.stage) && !e.fact.SetupAborted? && !e.fact.PublicationPrepared? && g.nextEvent != 0
      && !e.fact.Configured? {
      PlayKeepsSetup(env, g, e.fact);
    }
  }

  /** A joiner's final shuffle arrives as a received message. */
  lemma FinalArrives(env: Env, g: Game, e: Event)
    requires SideInv(env, g) && Step(env, g, e).Some? && (g.setup.None? || g.setup.value.final.None?)
    requires var next := Step(env, g, e).value;
      next.setup.Some? && next.setup.value.role == Player2 && next.setup.value.final.Some?
    ensures e.fact.MessageReceived? && Step(env, g, e).value.setup.value.final == Some(e.fact.message)
  {
    hide InOrder, Reduce, SideInv;
    ReducedFinalArrives(env, g, e);
  }

  lemma ReducedFinalArrives(env: Env, g: Game, e: Event)
    requires SideInv(env, g) && Reduce(env, g, e).Some? && (g.setup.None? || g.setup.value.final.None?)
    requires var next := Reduce(env, g, e).value;
      next.setup.Some? && next.setup.value.role == Player2 && next.setup.value.final.Some?
    ensures e.fact.MessageReceived? && Reduce(env, g, e).value.setup.value.final == Some(e.fact.message)
  {
    hide ReduceHand, KeyMessage, KeysFit, InvitationFits, FinalFits, MessageBytes, AbortReason, WalletFits, SameMessage,
      PeerFits, ContextFits, DeadlineFits, FinalVerifies, ContextOf, AgreementOf, ParamsOf, AggregateOf;
    if !InSetup(g.stage) && !e.fact.SetupAborted? && !e.fact.PublicationPrepared? && g.nextEvent != 0
      && !e.fact.Configured? {
      PlayKeepsSetup(env, g, e.fact);
    }
  }

  lemma SendingIsRemembered(env: Env, g: Game, e: Event)
    requires SideInv(env, g) && Step(env, g, e).Some?
    requires Sending(g, e) != [] && Sending(g, e)[0].kind == FinalShuffle
    ensures g.setup.Some? && g.setup.value.final == Some(Sending(g, e)[0])
  {
    hide Step, InvitationFits, FinalFits;
  }

  lemma CreatorKeepsWorld(env: Env, w: World, creatorKey: bytes, e: Event)
    requires WorldInv(env, w, creatorKey) && Step(env, w.creator, e).Some?
    ensures WorldInv(env,
                     w.(creator := Step(env, w.creator, e).value,
                        fromCreator := w.fromCreator + Sending(w.creator, e)), creatorKey)
  {
    hide Step, SideInv, Sending;
    var g, next := w.creator, Step(env, w.creator, e).value;
    StepKeepsSide(env, g, e);
    SendsOne(g, e);
    var sent := w.fromCreator + Sending(g, e);
    forall i | 0 <= i < |sent| && sent[i].kind == FinalShuffle
      ensures next.setup.Some? && next.setup.value.final == Some(sent[i])
    {
      if i >= |w.fromCreator| {
        SendingIsRemembered(env, g, e);
      }
      FinalStays(env, g, e);
    }
  }

  lemma SendsOne(g: Game, e: Event)
    ensures |Sending(g, e)| <= 1
  {
  }

  lemma JoinerKeepsWorld(env: Env, w: World, creatorKey: bytes, e: Event, out: seq<Message>)
    requires WorldInv(env, w, creatorKey) && Step(env, w.joiner, e).Some? && Authentic(e, creatorKey, w.fromCreator)
    ensures WorldInv(env, w.(joiner := Step(env, w.joiner, e).value, fromJoiner := out), creatorKey)
  {
    hide Step, SideInv;
    var g, next := w.joiner, Step(env, w.joiner, e).value;
    StepKeepsSide(env, g, e);
    if next.setup.Some? && next.setup.value.role == Player2 && next.setup.value.final.Some? {
      if g.setup.Some? && g.setup.value.final.Some? {
        FinalStays(env, g, e);
      } else {
        FinalArrives(env, g, e);
      }
    }
  }

  lemma {:induction false} WorldKeepsInv(
    env: Env, c: Config, j: Config, creatorKey: bytes, joinerKey: bytes, turns: seq<Turn>)
    requires PlayAll(env, Start(env, c, j), creatorKey, joinerKey, turns).Some?
    ensures var w := PlayAll(env, Start(env, c, j), creatorKey, joinerKey, turns).value;
      WorldInv(env, w, creatorKey) && w.creator.config == c && w.joiner.config == j
  {
    hide Step, WorldInv, Sending, HoldsKey;
    if turns == [] {
      StartFits(env, c, j, creatorKey);
    } else {
      var n := |turns| - 1;
      WorldKeepsInv(env, c, j, creatorKey, joinerKey, turns[..n]);
      var w := PlayAll(env, Start(env, c, j), creatorKey, joinerKey, turns[..n]).value;
      PlayKeepsInv(env, w, creatorKey, joinerKey, turns[n]);
    }
  }

  lemma StartFits(env: Env, c: Config, j: Config, creatorKey: bytes)
    ensures WorldInv(env, Start(env, c, j), creatorKey)
  {
    NewSideFits(env, c);
    NewSideFits(env, j);
  }

  lemma PlayKeepsInv(env: Env, w: World, creatorKey: bytes, joinerKey: bytes, t: Turn)
    requires WorldInv(env, w, creatorKey) && Play(env, w, creatorKey, joinerKey, t).Some?
    ensures var v := Play(env, w, creatorKey, joinerKey, t).value;
      WorldInv(env, v, creatorKey) && v.creator.config == w.creator.config && v.joiner.config == w.joiner.config
  {
    hide Step, SideInv, Sending, HoldsKey, FinalsAreRemembered, FinalWasSent;
    if t.creator {
      CreatorKeepsWorld(env, w, creatorKey, t.event);
      StepKeepsSide(env, w.creator, t.event);
    } else {
      JoinerKeepsWorld(env, w, creatorKey, t.event, w.fromJoiner + Sending(w.joiner, t.event));
      StepKeepsSide(env, w.joiner, t.event);
    }
  }

  // ---------- Agreement ----------

  /** A shuffle proof verifies in no context but its own. */
  ghost predicate ProofsBindContext(env: Env) {
    forall key1, deck1, key2, deck2, deck, proof, context1, context2
      {:trigger env.nextShuffle(key1, deck1, deck, proof, context1),
       env.nextShuffle(key2, deck2, deck, proof, context2)} ::
      (env.nextShuffle(key1, deck1, deck, proof, context1) && env.nextShuffle(key2, deck2, deck, proof, context2))
      ==> context1 == context2
  }

  /** The hash does not confuse these two sides' transcripts or service policies. */
  predicate HashTellsApart(env: Env, c: Config, s: Setup, d: Config, t: Setup) {
    && (s.peer.Some? && t.peer.Some? ==>
          match (Transcript(env.formats, env.hash, env.proofSize, s.invitation.offer, OrderedKeys(s).0,
                            OrderedKeys(s).1),
                 Transcript(env.formats, env.hash, env.proofSize, t.invitation.offer, OrderedKeys(t).0,
                            OrderedKeys(t).1))
          case (Some(x), Some(y)) => Distinguishes(env.hash, x, y)
          case _ => true)
    && (match (ServiceBytes(env.formats, c.services), ServiceBytes(env.formats, d.services))
        case (Some(x), Some(y)) => Distinguishes(env.hash, x, y)
        case _ => true)
  }

  /** Two setups that admitted the same final shuffle hold the same contract, whoever else wrote to either. */
  lemma SameFinalSameContract(env: Env, c: Config, s: Setup, d: Config, t: Setup)
    requires ProofsBindContext(env) && HashTellsApart(env, c, s, d, t)
    requires InvitationFits(env, c, s.invitation) && InvitationFits(env, d, t.invitation)
    requires FinalFits(env, c, s) && FinalFits(env, d, t)
    requires s.final.Some? && s.final == t.final
    ensures s.agreement.Some? && s.agreement == t.agreement
    ensures OrderedKeys(s) == OrderedKeys(t) && s.invitation.offer == t.invitation.offer
  {
    hide ServiceBytes, SessionOf, ShuffleContext, Transcript, OrderedKeys;
    var m := s.final.value;
    SameContexts(env, s, t, m);
    var (a1, a2) := OrderedKeys(s);
    var (b1, b2) := OrderedKeys(t);
    TranscriptsExist(env, s);
    TranscriptsExist(env, t);
    ContextBinds(env.formats, env.hash, env.proofSize, s.invitation.offer, a1, a2, true, t.invitation.offer, b1, b2,
                 true);
    ServicesBind(env.formats, env.hash, c.services, d.services);
  }

  lemma SameContexts(env: Env, s: Setup, t: Setup, m: Message)
    requires ProofsBindContext(env) && FinalVerifies(env, s, m) && FinalVerifies(env, t, m)
    ensures ContextOf(env, s, true) == ContextOf(env, t, true)
  {
    hide ContextOf, OrderedKeys;
  }

  lemma TranscriptsExist(env: Env, s: Setup)
    requires s.peer.Some? && ContextOf(env, s, true).Some?
    ensures Transcript(env.formats, env.hash, env.proofSize, s.invitation.offer, OrderedKeys(s).0,
                       OrderedKeys(s).1).Some?
  {
    hide Transcript, OrderedKeys;
  }

  /** If a joiner of the creator's invitation admits the final shuffle, both sides hold the same contract. */
  lemma SetupAgreement(env: Env, c: Config, j: Config, creatorKey: bytes, joinerKey: bytes, turns: seq<Turn>)
    requires PlayAll(env, Start(env, c, j), creatorKey, joinerKey, turns).Some?
    requires var w := PlayAll(env, Start(env, c, j), creatorKey, joinerKey, turns).value;
      && w.joiner.setup.Some? && w.joiner.setup.value.role == Player2 && w.joiner.setup.value.final.Some?
      && w.joiner.setup.value.invitation.offer.creator == creatorKey
      && (w.creator.setup.Some? ==> HashTellsApart(env, c, w.creator.setup.value, j, w.joiner.setup.value))
    requires ProofsBindContext(env)
    ensures var w := PlayAll(env, Start(env, c, j), creatorKey, joinerKey, turns).value;
      && w.creator.setup.Some? && w.creator.setup.value.agreement.Some?
      && w.creator.setup.value.agreement == w.joiner.setup.value.agreement
      && Contract(env, w.creator) == Contract(env, w.joiner)
  {
    hide PlayAll, InvitationFits, HashTellsApart, CountersFit, PendingFits;
    WorldKeepsInv(env, c, j, creatorKey, joinerKey, turns);
    var w := PlayAll(env, Start(env, c, j), creatorKey, joinerKey, turns).value;
    var t := w.joiner.setup.value;
    FinalHasKind(env, j, t);
    SameFinalSameContract(env, c, w.creator.setup.value, j, t);
  }

  lemma FinalHasKind(env: Env, c: Config, s: Setup)
    requires FinalFits(env, c, s) && s.final.Some?
    ensures s.final.value.kind == FinalShuffle
  {
    hide ContextOf, OrderedKeys;
  }
}
