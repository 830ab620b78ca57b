/** Recovering after a restart: accepted evidence first, and at most one resubmission of exactly the saved bytes. */
module Recovery {
  import opened Bytes
  import opened Hand
  import opened Events
  import opened SetupRules
  import opened Reducer
  import opened GameRuns
  import opened LiveGame
  import opened Options

  /** What the indexer says about the prepared work's sources. */
  datatype Answer = Spent(a: Accepted, at: nat) | Unspent | Unknown | Failed

  datatype Submitted = Sent(id: bytes) | NotSent

  /** The outside of one pass through the loop. `durable` says whether appends reach the disk. */
  datatype Round = Round(cancelled: bool, watched: bool, answer: Answer, at: Option<nat>, result: Submitted,
                         durable: bool)

  /** A resubmission, with the game it was made from. */
  datatype Call = Call(game: Game, route: Route, bundle: bytes, round: nat)

  predicate OpeningReady(g: Game) {
    && g.hand.Some? && !g.hand.value.holes && g.setup.Some?
    && var start := if g.setup.value.role == Player2 then 2 else 0;
       |g.hand.value.known| == SLOTS && g.hand.value.known[start] && g.hand.value.known[start + 1]
  }

  /** Deposits and Player1's funding need their margin; a timeout must have matured. */
  predicate TimeFits(g: Game, at: nat)
    requires g.prepared.Some?
  {
    match g.prepared.value.saved.action
    case ActionDeposit(_) =>
      g.setup.Some? && g.setup.value.agreement.Some? && DeadlineFits(at, g.setup.value.agreement.value.deadline)
    case ActionFund(_, _) =>
      g.setup.Some? && g.setup.value.agreement.Some? && DeadlineFits(at, g.setup.value.agreement.value.deadline)
    case ActionTimeout(_) => g.hand.Some? && at >= g.hand.value.state.deadline
    case _ => true
  }

  function NextEvent(g: Game, fact: Fact): (e: Event) {
    Event(if g.setup.Some? then g.setup.value.invitation.session else NO_SESSION, g.nextEvent, g.previous, fact)
  }

  /** Work that is left is the work there was. */
  predicate NoNewWork(g: Game, next: Game) {
    next.prepared.Some? ==> g.prepared.Some? && SameWork(g.prepared.value, next.prepared.value)
  }

  lemma OnlyPreparingMakesWork(env: Env, g: Game, e: Event)
    requires GameInv(env, g) && Step(env, g, e).Some? && !e.fact.SpendPrepared?
    ensures NoNewWork(g, Step(env, g, e).value)
  {
    hide GameInv, Step;
    if g.prepared.Some? {
      WorkIsExact(env, g, e);
    } else {
      NothingPrepared(env, g, e);
    }
  }

  lemma NothingPrepared(env: Env, g: Game, e: Event)
    requires GameInv(env, g) && Step(env, g, e).Some? && !e.fact.SpendPrepared? && g.prepared.None?
    ensures Step(env, g, e).value.prepared.None?
  {
    hide Reduce, InOrder, GameInv;
    NothingReduced(env, g, e);
  }

  lemma NothingReduced(env: Env, g: Game, e: Event)
    requires Reduce(env, g, e).Some? && !e.fact.SpendPrepared? && g.prepared.None?
    ensures Reduce(env, g, e).value.prepared.None?
  {
    hide Reducer.Observe, OpeningHand, DepositFits, RouteOf, KeyMessage, KeysFit, InvitationFits, SameMessage, PeerFits,
      WithShuffle, ContextFits, WithPeer, MessageBytes, DeadlineFits, Sized;
  }

  lemma SameWorkChains(g: Game, h: Game, k: Game)
    requires NoNewWork(g, h) && NoNewWork(h, k)
    ensures NoNewWork(g, k)
  {
  }

  class Driver {
    const env: Env
    const game: GameState
    var recovering: bool
    var retried: bool
    ghost var calls: seq<Call>

    constructor (env: Env, game: GameState)
      ensures this.env == env && this.game == game && recovering && !retried && calls == []
    {
      this.env, this.game, recovering, retried, calls := env, game, true, false, [];
    }

    /** Records a fact, if the journal can. */
    method Commit(fact: Fact, durable: bool) returns (ok: bool)
      requires EventCodec(env) && GameInv(env, game.Value()) && !fact.SpendPrepared?
      modifies game
      ensures GameInv(env, game.Value()) && NoNewWork(old(game.Value()), game.Value())
      ensures ok ==> Step(env, old(game.Value()), NextEvent(old(game.Value()), fact)) == Some(game.Value())
      ensures !ok ==> game.Value() == old(game.Value())
    {
      hide Step, GameInv;
      if !durable {
        return false;
      }
      ghost var g := game.Value();
      var e := NextEvent(game.Value(), fact);
      ok := game.Apply(env, e);
      if ok {
        StepKeepsGame(env, g, e);
        OnlyPreparingMakesWork(env, g, e);
      }
    }

    /** The one retry: exactly the saved bytes, by the saved route. The flag is set before the call is made. */
    method Resubmit(rounds: seq<Round>, i: nat) returns (ok: bool)
      requires EventCodec(env) && GameInv(env, game.Value()) && i < |rounds| && rounds[i].answer == Unspent && !retried
      requires game.prepared.Some? && game.prepared.value.saved.signed.Some?
      modifies this`retried, this`calls, game
      ensures GameInv(env, game.Value()) && NoNewWork(old(game.Value()), game.Value())
      ensures OneRetry(old(calls), calls, false, retried, rounds, old(game.Value()))
    {
      hide GameInv, Step, TimeFits, NoNewWork;
      var round := rounds[i];
      NoNewWorkHere(game.Value());
      if round.at.None? || !TimeFits(game.Value(), round.at.value) {
        return false;
      }
      var saved := game.prepared.value.saved;
      retried := true;
      calls := calls + [Call(game.Value(), saved.route, saved.signed.value, i)];
      match round.result
      case NotSent =>
        var _ := Commit(SubmissionFailed("retry_failed"), round.durable);
        return false;
      case Sent(id) =>
        if id != game.prepared.value.id {
          return false;
        }
        ok := Commit(SubmissionAttempted(true, Some(id), round.at.value), round.durable);
    }

    /** Settles what the log left open, as far as the evidence goes. */
    method Recover(rounds: seq<Round>) returns (ok: bool)
      requires EventCodec(env) && GameInv(env, game.Value())
      modifies this, game
      ensures GameInv(env, game.Value()) && NoNewWork(old(game.Value()), game.Value())
      ensures OneRetry(old(calls), calls, old(retried), retried, rounds, old(game.Value()))
    {
      hide GameInv, Step, NoNewWork, OneRetry, OpeningReady;
      ghost var start, before, was := game.Value(), calls, retried;
      NoNewWorkHere(start);
      NoRetryYet(calls, retried, rounds, start);
      var i := 0;
      while recovering && i < |rounds|
        invariant 0 <= i <= |rounds|
        invariant GameInv(env, game.Value()) && NoNewWork(start, game.Value())
        invariant OneRetry(before, calls, was, retried, rounds, start)
        decreases |rounds| - i
      {
        var round := rounds[i];
        i := i + 1;
        ghost var now := game.Value();
        if round.cancelled {
          return false;
        }
        if game.hand.None? && game.prepared.None? {
          recovering := false;
          return true;
        }
        if !round.watched {
          return false;
        }
        if OpeningReady(game.Value()) {
          var saved := Reopen(round.durable);
          SameWorkChains(start, now, game.Value());
          if !saved {
            return false;
          }
          continue;
        }
        match round.answer {
          case Failed =>
            return false;
          case Spent(a, at) =>
            var saved := Observe(a, at, round.durable);
            SameWorkChains(start, now, game.Value());
            if !saved {
              return false;
            }
          case Unknown =>
            return true;
          case Unspent =>
            if game.prepared.None? || game.prepared.value.saved.signed.None? {
              recovering := false;
              return true;
            }
            if retried {
              return true;
            }
            ghost var mid := calls;
            var sent := Resubmit(rounds, i - 1);
            SameWorkChains(start, now, game.Value());
            FirstRetry(before, mid, calls, was, retried, rounds, start, now);
            if !sent {
              return false;
            }
        }
      }
      return true;
    }

    /** Accepted evidence: a deposit while there is no hand, a spend of it otherwise. */
    method Observe(a: Accepted, at: nat, durable: bool) returns (ok: bool)
      requires EventCodec(env) && GameInv(env, game.Value())
      modifies game
      ensures GameInv(env, game.Value()) && NoNewWork(old(game.Value()), game.Value())
    {
      hide GameInv, NoNewWork, Step;
      var fact := if game.hand.None? then DepositObserved(a, at) else SpendObserved(a, at);
      ok := Commit(fact, durable);
    }

    /** The private holes are recorded against the accepted opening before anything later is looked for. */
    method Reopen(durable: bool) returns (ok: bool)
      requires EventCodec(env) && GameInv(env, game.Value()) && OpeningReady(game.Value())
      modifies game
      ensures GameInv(env, game.Value()) && NoNewWork(old(game.Value()), game.Value())
    {
      hide GameInv, NoNewWork;
      var opening := Accepted(game.hand.value.id, None, Settles([], None));
      ok := Commit(OpeningObserved(opening, game.hand.value.observedAt), durable);
    }
  }

  lemma NoNewWorkHere(g: Game)
    ensures NoNewWork(g, g)
  {
  }

  lemma NoRetryYet(calls: seq<Call>, retried: bool, rounds: seq<Round>, start: Game)
    ensures OneRetry(calls, calls, retried, retried, rounds, start)
  {
  }

  lemma FirstRetry(before: seq<Call>, mid: seq<Call>, after: seq<Call>, was: bool, now: bool, rounds: seq<Round>,
                   start: Game, middle: Game)
    requires NoNewWork(start, middle)
    requires OneRetry(before, mid, was, false, rounds, start) && OneRetry(mid, after, false, now, rounds, middle)
    ensures OneRetry(before, after, was, now, rounds, start)
  {
    if after != before {
      SameWorkChains(start, middle, after[|before|].game);
    }
  }

  /** At most one call is made, never after an earlier retry, only on explicit unspent evidence, and only of the exact
      signed work that was saved at the start. */
  ghost predicate OneRetry(before: seq<Call>, after: seq<Call>, was: bool, now: bool, rounds: seq<Round>, start: Game) {
    && before <= after && |after| <= |before| + 1
    && (was ==> now && after == before)
    && (after != before ==>
          && now && |after| == |before| + 1
          && var c := after[|before|];
             && c.round < |rounds| && rounds[c.round].answer == Unspent
             && c.game.prepared.Some? && c.game.prepared.value.saved.signed == Some(c.bundle)
             && c.route == c.game.prepared.value.saved.route
             && NoNewWork(start, c.game))
  }
}
