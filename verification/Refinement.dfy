/** On every reachable state the opponent's check and the action builders agree on every successor. */
module Refinement {
  import opened Bytes
  import opened Hand
  import opened Rules
  import opened Runs
  import opened Admission
  import opened Options

  // ---------- Money ----------

  lemma {:induction false} TotalPrepend(head: int, tail: seq<int>)
    requires 0 <= head <= MAX_MONEY
    ensures Total([head] + tail) == match Total(tail) case None => None case Some(t) => AddAmount(head, t)
    ensures Total(tail).Some? ==> 0 <= Total(tail).value <= MAX_MONEY
  {
    var all := [head] + tail;
    if tail == [] {
      assert all[..0] == [] && Total([]) == Some(0);
    } else {
      var n := |tail| - 1;
      assert all[..|all| - 1] == [head] + tail[..n];
      TotalPrepend(head, tail[..n]);
    }
  }

  /** Balanced, policy-conforming edges are exactly a funding that covers the contribution. */
  lemma FundingAgrees(o: OutputPolicy, held: int, contribution: int, tx: LiveTx)
    requires ValidPolicy(o) && LayoutAdmitted(o, tx)
    requires 0 < held && 0 <= contribution && held + contribution <= MAX_MONEY
    ensures EdgesBalance(held, tx) && ContributionAdmitted(held, contribution, tx)
      <==>
      (tx.value == held + contribution
       && FundingCovers(tx.funding, contribution)
       && AddAmount(held, FundedTotal(tx.funding)).Some?)
  {
    TotalPrepend(held, tx.funding.inputs);
  }

  // ---------- Betting ----------

  lemma BetIsExpected(p: Params, s: State, action: BettingAction)
    requires ValidParams(p) && Inv(p, s) && s.phase.Betting? && LegalBet(p, s, action)
    requires s.deadline <= MAX_U64 - DEADLINE_INTERVAL
    ensures var t := AfterBet(p, s, Target(s, action)).(deadline := s.deadline + DEADLINE_INTERVAL);
      Expected(p, s, t) == Some(Expectation(t, Held(p, t) - Held(p, s)))
  {
  }

  lemma ExpectedIsBet(p: Params, s: State, after: State)
    requires ValidParams(p) && Inv(p, s) && s.phase.Betting?
    requires Expected(p, s, after).Some? && after == Expected(p, s, after).value.state
    ensures LegalBet(p, s, ActionOf(s, after))
    ensures after == AfterBet(p, s, Target(s, ActionOf(s, after))).(deadline := s.deadline + DEADLINE_INTERVAL)
    ensures Expected(p, s, after).value.contribution == Held(p, after) - Held(p, s)
  {
  }

  // ---------- Publishing ----------

  lemma WriteIsCopy(shares: seq<bytes>, from: seq<bytes>, slots: seq<nat>, cards: seq<CardReveal>)
    requires |shares| == |from| && |slots| == |cards|
    requires forall i | 0 <= i < |slots| :: slots[i] < |shares| && cards[i].Share? && cards[i].share == from[slots[i]]
    requires forall i, j | 0 <= i < j < |slots| :: slots[i] != slots[j]
    ensures Write(shares, slots, cards) == Copied(shares, from, slots)
  {
    WriteAt(|slots|, shares, slots, cards);
    assert slots[..|slots|] == slots;
    var w := Write(shares, slots, cards);
    forall k | 0 <= k < |shares| ensures w[k] == Copied(shares, from, slots)[k] {
      if k in slots {
        var i :| 0 <= i < |slots| && slots[i] == k;
      }
    }
  }

  /** The move a publishing phase makes of its witness. */
  function PublishingMove(s: State, after: State, r: Reveals): (m: Move) {
    match s.phase
    case AwaitFunding => Fund(r)
    case AwaitOpening => Open(after.wager2, r)
    case BoardReveal(_, _, _) => RevealBoard(r)
    case ShowdownReveal(_, _) => RevealHoles(r)
    case AllIn(_, _) => CallAllIn(r)
    case _ => RevealAllIn(r)
  }

  /** A publishing phase's successor, leaving shares and deadline alone. */
  function NextHeader(p: Params, s: State, bet: nat): (t: State)
    requires ValidParams(p) && Inv(p, s)
  {
    match s.phase
    case AwaitFunding => s.(phase := AwaitOpening)
    case AwaitOpening =>
      s.(wager2 := bet, last := if bet == 0 then Checked else Raised,
         phase := if bet == p.maxWager then AllIn(PreFlop, Player1) else Betting(PreFlop, Player1))
    case BoardReveal(street, pass, a) =>
      s.(phase := if pass == FirstPass then BoardReveal(street, SecondPass, Other(a)) else Betting(street, Other(a)))
    case ShowdownReveal(pass, a) =>
      s.(phase := if pass == FirstPass then ShowdownReveal(SecondPass, Other(a)) else Evaluation)
    case AllIn(street, a) =>
      s.(wager1 := p.maxWager, wager2 := p.maxWager, last := Start,
         phase := if street == River then ShowdownReveal(SecondPass, Other(a))
           else AllInReveal(NextStreet(street), Other(a)))
    case _ => s.(phase := Evaluation)
  }

  lemma PublishingHeader(p: Params, s: State, m: Move)
    requires ValidParams(p) && Inv(p, s) && !m.Bet? && Apply(p, s, m).Some?
    ensures var bet := if m.Open? then m.bet else 0;
      && !s.phase.Betting? && !s.phase.Evaluation?
      && 0 <= bet <= p.maxWager && (bet == 0 || bet >= p.minBet)
      && Apply(p, s, m).value.state.(shares := s.shares) == NextHeader(p, s, bet)
  {
  }

  lemma HeaderIsExpected(p: Params, s: State, bet: nat, t: State)
    requires ValidParams(p) && Inv(p, s) && !s.phase.Betting? && !s.phase.Evaluation?
    requires s.deadline <= MAX_U64 - DEADLINE_INTERVAL
    requires bet <= p.maxWager && (bet == 0 || bet >= p.minBet)
    requires t.(shares := s.shares, deadline := s.deadline) == NextHeader(p, s, bet)
    requires t.deadline == s.deadline + DEADLINE_INTERVAL
    ensures Expected(p, s, t) == Some(Expectation(t.(shares := s.shares), Held(p, t) - Held(p, s)))
  {
  }

  /** A publishing move leads to the expected successor, with the witness's shares written into it. */
  lemma PublishingIsExpected(p: Params, s: State, m: Move, t: State)
    requires ValidParams(p) && Inv(p, s) && !m.Bet? && Apply(p, s, m).Some?
    requires s.deadline <= MAX_U64 - DEADLINE_INTERVAL
    requires t == Apply(p, s, m).value.state.(deadline := s.deadline + DEADLINE_INTERVAL)
    ensures Expected(p, s, t) == Some(Expectation(t.(shares := s.shares), Held(p, t) - Held(p, s)))
  {
    PublishingHeader(p, s, m);
    HeaderIsExpected(p, s, if m.Open? then m.bet else 0, t);
  }

  /** An expected successor is what the phase's move makes of any publishable witness. */
  lemma ExpectedIsPublishing(p: Params, s: State, after: State, r: Reveals)
    requires ValidParams(p) && Inv(p, s) && !s.phase.Betting? && Expected(p, s, after).Some?
    requires after.(shares := s.shares) == Expected(p, s, after).value.state
    requires PhaseKind(s.phase).Some? && Publishable(r, PhaseKind(s.phase).value)
    ensures var a := Apply(p, s, PublishingMove(s, after, r));
      a == Some(Applied(
        after.(deadline := s.deadline,
               shares := Write(s.shares, KindSlots(PhaseKind(s.phase).value, RequiredActor(s.phase).value),
                               KindCards(r))),
        Proofs(KindCards(r))))
    ensures Expected(p, s, after).value.contribution == Held(p, after) - Held(p, s)
  {
    hide WellFormed, SlotsFit, Write, KindSlots, KindCards, Publishable;
    match s.phase
    case AwaitFunding =>
    case AwaitOpening =>
    case BoardReveal(_, _, _) =>
    case ShowdownReveal(_, _) =>
    case AllIn(_, _) =>
    case AllInReveal(_, _) =>
  }

  /** A publishing move writes its witness's cards into the slots the checker looks at. */
  lemma PublishingShares(p: Params, s: State, m: Move)
    requires ValidParams(p) && Inv(p, s) && !m.Bet? && Apply(p, s, m).Some?
    ensures PhaseKind(s.phase).Some? && MoveKind(s, m) == PhaseKind(s.phase) && RequiredActor(s.phase).Some?
    ensures Publishable(RevealsOf(m), PhaseKind(s.phase).value)
    ensures Apply(p, s, m).value.proofs == Proofs(KindCards(RevealsOf(m)))
    ensures Apply(p, s, m).value.state.shares
      == Write(s.shares, KindSlots(PhaseKind(s.phase).value, RequiredActor(s.phase).value), KindCards(RevealsOf(m)))
  {
    hide Write, KindSlots, KindCards, Proofs, Publishable, WellFormed, SlotsFit, WagersFit, RevealsOf, PublishAs;
    InvIsWide(p, s);
    MoveWrites(p, s, m);
    PhaseKindIsMoveKind(p, s, m);
  }

  lemma PhaseKindIsMoveKind(p: Params, s: State, m: Move)
    requires |s.shares| == SLOTS && !m.Bet? && Apply(p, s, m).Some?
    ensures MoveKind(s, m).Some? ==> MoveKind(s, m) == PhaseKind(s.phase)
  {
    hide PublishAs;
  }

  predicate Knows(known: seq<bool>, s: State)
    requires |s.shares| == SLOTS
  {
    |known| == SLOTS && forall i: nat | i < SLOTS :: known[i] == IsPublished(s, i)
  }

  lemma InvEncodes(p: Params, s: State)
    requires Inv(p, s)
    ensures EncodePhase(s.phase).Some?
  {
  }

  /** Shares written from encodable cards are read back with their proofs, the lowest slot's on top. */
  lemma WrittenSharesAdmitted(slots: seq<nat>, shares: seq<bytes>, cards: seq<CardReveal>, tx: LiveTx,
                              valid: ShareCheck)
    requires |slots| == |cards| && |shares| == |tx.after.shares| == SLOTS
    requires forall i | 0 <= i < |slots| :: slots[i] < |shares| && cards[i].Share?
    requires forall i | 0 <= i < |cards| :: Encodable(cards[i])
    requires forall i, j | 0 <= i < j < |slots| :: slots[i] != slots[j]
    requires tx.after.shares == Write(shares, slots, cards) && tx.proofs == Proofs(cards)
    requires forall i | 0 <= i < |slots| :: valid(slots[i], tx.after.shares[slots[i]], tx.proofs[|slots| - 1 - i])
    ensures forall i | 0 <= i < |slots| ::
      ShareAdmitted(valid, slots[i], tx.after.shares[slots[i]], tx.proofs[|slots| - 1 - i])
    ensures tx.after.shares == Copied(shares, tx.after.shares, slots)
  {
    hide WriteFirst, Copied;
    WriteAt(|slots|, shares, slots, cards);
    forall i | 0 <= i < |slots|
      ensures ShareAdmitted(valid, slots[i], tx.after.shares[slots[i]], tx.proofs[|slots| - 1 - i])
    {
      assert tx.after.shares[slots[i]] == cards[i].share;
      assert cards[i] == Share(cards[i].share, cards[i].proof);
    }
    WriteIsCopy(shares, tx.after.shares, slots, cards);
  }

  lemma PublishableEncodes(r: Reveals, kind: RevealKind, actor: Player)
    requires Publishable(r, kind)
    ensures |KindCards(r)| == |KindSlots(kind, actor)|
    ensures forall i | 0 <= i < |KindSlots(kind, actor)| :: KindSlots(kind, actor)[i] < SLOTS && KindCards(r)[i].Share?
    ensures forall i | 0 <= i < |KindCards(r)| :: Encodable(KindCards(r)[i])
  {
  }

  /** Shares a publishing move writes are new, in order, and carried by the proof stack. */
  lemma PublishedSharesAdmitted(p: Params, s: State, m: Move, tx: LiveTx, valid: ShareCheck)
    requires ValidParams(p) && Inv(p, s) && !m.Bet? && Apply(p, s, m).Some?
    requires tx.after.shares == Apply(p, s, m).value.state.shares && tx.proofs == Apply(p, s, m).value.proofs
    requires |tx.after.shares| == SLOTS && SharesVerify(s, tx, valid)
    ensures var slots := RevealSlots(s.phase);
      && (forall i | 0 <= i < |slots| ::
            ShareAdmitted(valid, slots[i], tx.after.shares[slots[i]], tx.proofs[|slots| - 1 - i]))
      && tx.after.shares == Copied(s.shares, tx.after.shares, slots)
  {
    hide Apply, Inv, KindSlots, RevealSlots, PhaseKind, Write, KindCards, RevealsOf, Proofs, Encodable, ShareAdmitted,
      Copied, Publishable;
    InvIsWide(p, s);
    InvEncodes(p, s);
    PublishingShares(p, s, m);
    SlotTablesAgree(s.phase);
    PublishableEncodes(RevealsOf(m), PhaseKind(s.phase).value, RequiredActor(s.phase).value);
    WrittenSharesAdmitted(RevealSlots(s.phase), s.shares, KindCards(RevealsOf(m)), tx, valid);
  }

  /** The parts a live spend is made of: the applied move, the extended deadline, the new value and its funding. */
  predicate Makes(p: Params, s: State, m: Move, tx: LiveTx)
    requires |s.shares| == SLOTS
  {
    && Apply(p, s, m).Some?
    && s.deadline <= MAX_U64 - DEADLINE_INTERVAL
    && tx.after == Apply(p, s, m).value.state.(deadline := s.deadline + DEADLINE_INTERVAL)
    && tx.proofs == Apply(p, s, m).value.proofs
    && tx.value == Held(p, tx.after) && Held(p, s) <= tx.value
    && FundingCovers(tx.funding, tx.value - Held(p, s))
    && AddAmount(Held(p, s), FundedTotal(tx.funding)).Some?
  }

  lemma FinishMakes(p: Params, held: int, a: Applied, tx: LiveTx)
    requires 0 <= held && a.state.phase != AwaitFunding
    requires a.state.wager1 <= p.maxWager && a.state.wager2 <= p.maxWager
    ensures Finish(p, held, a, tx.funding) == Some(Built(tx.after, tx.value, tx.funding, tx.proofs)) <==>
      && a.state.deadline <= MAX_U64 - DEADLINE_INTERVAL
      && tx.after == a.state.(deadline := a.state.deadline + DEADLINE_INTERVAL)
      && tx.proofs == a.proofs
      && tx.value == Held(p, tx.after) && held <= tx.value
      && FundingCovers(tx.funding, tx.value - held)
      && AddAmount(held, FundedTotal(tx.funding)).Some?
  {
  }

  /** On a reachable state the predecessor's own checks never refuse. */
  lemma LiveIsFinish(p: Params, s: State, m: Move, f: Funding)
    requires ValidParams(p) && Inv(p, s)
    ensures Live(p, s, Held(p, s), m, f)
      == match Apply(p, s, m) case None => None case Some(a) => Finish(p, Held(p, s), a, f)
  {
    hide Finish, SlotsFit, PublishAs, EncodePhase;
  }

  lemma LiveMakes(p: Params, s: State, m: Move, tx: LiveTx)
    requires ValidParams(p) && Inv(p, s)
    ensures Live(p, s, Held(p, s), m, tx.funding) == Some(Built(tx.after, tx.value, tx.funding, tx.proofs))
      <==> Makes(p, s, m, tx)
  {
    hide Apply, Inv, Held, Live, Finish, FundingCovers, WagersFit;
    InvIsWide(p, s);
    HeldInRange(p, s);
    LiveIsFinish(p, s, m, tx.funding);
    if Apply(p, s, m).Some? {
      WagersAdvance(p, s, m);
      FinishMakes(p, Held(p, s), Apply(p, s, m).value, tx);
    }
  }

  lemma SlotsAreNew(p: Params, s: State, m: Move, known: seq<bool>)
    requires ValidParams(p) && Inv(p, s) && Knows(known, s) && !m.Bet? && Apply(p, s, m).Some?
    ensures forall i | 0 <= i < |RevealSlots(s.phase)| :: !known[RevealSlots(s.phase)[i]]
  {
    PublishingShares(p, s, m);
    SlotTablesAgree(s.phase);
    forall i | 0 <= i < |RevealSlots(s.phase)|
      ensures !known[RevealSlots(s.phase)[i]]
    {
      SlotsAdvance(p, s, m, RevealSlots(s.phase)[i]);
    }
  }

  /** A built spend has the expected header, and its new shares are admissible. */
  predicate AsExpected(p: Params, s: State, known: seq<bool>, tx: LiveTx, valid: ShareCheck)
    requires |s.shares| == |tx.after.shares| == |known| == SLOTS
  {
    var slots := RevealSlots(s.phase);
    && Expected(p, s, tx.after) == Some(Expectation(tx.after.(shares := s.shares), Held(p, tx.after) - Held(p, s)))
    && |tx.proofs| == |slots|
    && (forall i | 0 <= i < |slots| ::
          !known[slots[i]] && ShareAdmitted(valid, slots[i], tx.after.shares[slots[i]], tx.proofs[|slots| - 1 - i]))
    && tx.after.shares == Copied(s.shares, tx.after.shares, slots)
  }

  lemma BuiltBetIsExpected(p: Params, s: State, m: Move, known: seq<bool>, tx: LiveTx, valid: ShareCheck)
    requires ValidParams(p) && Inv(p, s) && Knows(known, s) && WellFormed(tx.after)
    requires Makes(p, s, m, tx) && SharesVerify(s, tx, valid) && m.Bet?
    ensures AsExpected(p, s, known, tx, valid)
  {
    hide Encodable, SlotsFit, Held, FundingCovers;
    BetIsExpected(p, s, m.action);
    assert Copied(s.shares, tx.after.shares, []) == s.shares;
  }

  lemma BuiltSharesAreExpected(p: Params, s: State, m: Move, known: seq<bool>, tx: LiveTx, valid: ShareCheck)
    requires ValidParams(p) && Inv(p, s) && Knows(known, s) && WellFormed(tx.after)
    requires Makes(p, s, m, tx) && SharesVerify(s, tx, valid) && !m.Bet?
    ensures AsExpected(p, s, known, tx, valid)
  {
    hide Apply, Inv, Expected, Encodable, Held, FundingCovers, RevealSlots, Copied, WellFormed, Knows, ShareAdmitted;
    InvIsWide(p, s);
    PublishingIsExpected(p, s, m, tx.after);
    SlotsAreNew(p, s, m, known);
    WellFormedIsWide(tx.after);
    PublishedSharesAdmitted(p, s, m, tx, valid);
    KnowsAll(known, s);
  }

  lemma DeadlineKeepsHeld(p: Params, s: State, deadline: nat)
    ensures Held(p, s.(deadline := deadline)) == Held(p, s)
  {
  }

  lemma InvIsWide(p: Params, s: State)
    requires Inv(p, s)
    ensures |s.shares| == SLOTS && WellFormed(s)
  {
  }

  lemma WellFormedIsWide(s: State)
    requires WellFormed(s)
    ensures |s.shares| == SLOTS
  {
  }

  lemma KnowsAll(known: seq<bool>, s: State)
    requires |s.shares| == SLOTS && Knows(known, s)
    ensures |known| == SLOTS
  {
  }

  lemma BuiltIsAdmitted(p: Params, o: OutputPolicy, s: State, m: Move, known: seq<bool>, tx: LiveTx, valid: ShareCheck)
    requires ValidParams(p) && ValidPolicy(o) && Inv(p, s) && Knows(known, s) && WellFormed(tx.after)
    requires Makes(p, s, m, tx)
    requires SharesVerify(s, tx, valid) && LayoutAdmitted(o, tx)
    ensures Admits(p, o, s, Held(p, s), known, tx, valid)
  {
    hide Apply, Inv, Expected, Encodable, Held, FundingCovers, RevealSlots, Copied, ShareAdmitted, EdgesBalance,
      ContributionAdmitted, LayoutAdmitted, SharesVerify;
    HeldInRange(p, s);
    HeldAfterInRange(p, s, m);
    InvIsWide(p, s);
    DeadlineKeepsHeld(p, Apply(p, s, m).value.state, tx.after.deadline);
    if m.Bet? {
      BuiltBetIsExpected(p, s, m, known, tx, valid);
    } else {
      BuiltSharesAreExpected(p, s, m, known, tx, valid);
    }
    FundingAgrees(o, Held(p, s), Held(p, tx.after) - Held(p, s), tx);
  }

  // ---------- From admission to a move ----------

  function AdmittedCards(slots: seq<nat>, tx: LiveTx): (cards: seq<CardReveal>)
    requires |tx.proofs| == |slots| && |tx.after.shares| == SLOTS
    requires forall i | 0 <= i < |slots| :: slots[i] < SLOTS
  {
    seq(|slots|, i requires 0 <= i < |slots| => Share(tx.after.shares[slots[i]], tx.proofs[|slots| - 1 - i]))
  }

  lemma AdmittedIsBuilt(p: Params, o: OutputPolicy, s: State, known: seq<bool>, tx: LiveTx, valid: ShareCheck)
    requires ValidParams(p) && ValidPolicy(o) && Inv(p, s) && |known| == SLOTS && WellFormed(tx.after)
    requires Admits(p, o, s, Held(p, s), known, tx, valid)
    ensures SomeMoveBuilds(p, s, tx) && SharesVerify(s, tx, valid) && LayoutAdmitted(o, tx)
  {
    hide Apply, Inv, Expected, Encodable, Held, RevealSlots, Copied, EdgesBalance, ContributionAdmitted, LayoutAdmitted,
      SomeMoveBuilds, WellFormed, ValidPolicy, FundingCovers;
    InvIsWide(p, s);
    WellFormedIsWide(tx.after);
    AdmittedFunding(p, o, s, tx);
    if s.phase.Betting? {
      AdmittedBet(p, s, tx);
    } else {
      AdmittedPublishing(p, o, s, tx);
    }
  }

  /** The contribution the checker computes is the builders', and its funding theirs. */
  lemma AdmittedFunding(p: Params, o: OutputPolicy, s: State, tx: LiveTx)
    requires ValidParams(p) && ValidPolicy(o) && Inv(p, s) && WellFormed(tx.after) && Expected(p, s, tx.after).Some?
    requires EdgesBalance(Held(p, s), tx) && LayoutAdmitted(o, tx)
    requires ContributionAdmitted(Held(p, s), Expected(p, s, tx.after).value.contribution, tx)
    ensures tx.value == Held(p, s) + Expected(p, s, tx.after).value.contribution && tx.value >= Held(p, s)
    ensures FundingCovers(tx.funding, tx.value - Held(p, s)) && AddAmount(Held(p, s), FundedTotal(tx.funding)).Some?
  {
    hide Expected, EdgesBalance, LayoutAdmitted, Inv, Held, FundingCovers;
    var contribution := Expected(p, s, tx.after).value.contribution;
    HeldInRange(p, s);
    ContributionFits(p, s, tx.after);
    FundingAgrees(o, Held(p, s), contribution, tx);
  }

  lemma ContributionFits(p: Params, s: State, after: State)
    requires ValidParams(p) && Inv(p, s) && Expected(p, s, after).Some?
    ensures 0 <= Expected(p, s, after).value.contribution
  {
  }

  lemma BetApplies(p: Params, s: State, action: BettingAction, after: State)
    requires ValidParams(p) && Inv(p, s) && s.phase.Betting? && LegalBet(p, s, action)
    requires after == AfterBet(p, s, Target(s, action)).(deadline := s.deadline + DEADLINE_INTERVAL)
    ensures Apply(p, s, Bet(action)) == Some(Applied(after.(deadline := s.deadline), []))
  {
  }

  lemma AdmittedBet(p: Params, s: State, tx: LiveTx)
    requires ValidParams(p) && Inv(p, s) && WellFormed(tx.after) && s.phase.Betting?
    requires |tx.proofs| == |RevealSlots(s.phase)|
    requires Expected(p, s, tx.after).Some? && |s.shares| == |tx.after.shares|
    requires tx.after
      == Expected(p, s, tx.after).value.state.(shares := Copied(s.shares, tx.after.shares, RevealSlots(s.phase)))
    requires tx.value == Held(p, s) + Expected(p, s, tx.after).value.contribution && tx.value >= Held(p, s)
    requires FundingCovers(tx.funding, tx.value - Held(p, s)) && AddAmount(Held(p, s), FundedTotal(tx.funding)).Some?
    ensures SomeMoveBuilds(p, s, tx)
  {
    hide Inv, Expected, Held, FundingCovers, WellFormed, LegalBet, AfterBet, SomeMoveBuilds, Live;
    InvIsWide(p, s);
    assert Copied(s.shares, tx.after.shares, []) == s.shares;
    ExpectedKeepsShares(p, s, tx.after);
    ExpectedIsBet(p, s, tx.after);
    var m := Bet(ActionOf(s, tx.after));
    BetApplies(p, s, ActionOf(s, tx.after), tx.after);
    MoveBuilds(p, s, m, tx);
  }

  lemma HeldAfterInRange(p: Params, s: State, m: Move)
    requires ValidParams(p) && Inv(p, s) && Apply(p, s, m).Some?
    ensures Held(p, s) <= Held(p, Apply(p, s, m).value.state) <= MAX_MONEY
  {
    WagersAdvance(p, s, m);
    MoveProgresses(p, s, m);
  }

  lemma AdmittedPublishing(p: Params, o: OutputPolicy, s: State, tx: LiveTx)
    requires ValidParams(p) && ValidPolicy(o) && Inv(p, s) && WellFormed(tx.after) && !s.phase.Betting?
    requires Expected(p, s, tx.after).Some? && |tx.proofs| == |RevealSlots(s.phase)|
    requires var slots := RevealSlots(s.phase);
      && (forall i | 0 <= i < |slots| :: Encodable(Share(tx.after.shares[slots[i]], tx.proofs[|slots| - 1 - i])))
      && tx.after == Expected(p, s, tx.after).value.state.(shares := Copied(s.shares, tx.after.shares, slots))
    requires tx.value == Held(p, s) + Expected(p, s, tx.after).value.contribution && tx.value >= Held(p, s)
    requires FundingCovers(tx.funding, tx.value - Held(p, s)) && AddAmount(Held(p, s), FundedTotal(tx.funding)).Some?
    ensures SomeMoveBuilds(p, s, tx)
  {
    hide Apply, Inv, Expected, Encodable, Held, RevealSlots, Copied, FundingCovers, SomeMoveBuilds, WellFormed;
    ExpectedKeepsShares(p, s, tx.after);
    var m := AdmittedMove(p, s, tx);
    MoveBuilds(p, s, m, tx);
  }

  lemma MoveBuilds(p: Params, s: State, m: Move, tx: LiveTx)
    requires ValidParams(p) && Inv(p, s)
    requires Apply(p, s, m) == Some(Applied(tx.after.(deadline := s.deadline), tx.proofs))
    requires s.deadline <= MAX_U64 - DEADLINE_INTERVAL && tx.after.deadline == s.deadline + DEADLINE_INTERVAL
    requires tx.value == Held(p, tx.after) && Held(p, s) <= tx.value
    requires FundingCovers(tx.funding, tx.value - Held(p, s)) && AddAmount(Held(p, s), FundedTotal(tx.funding)).Some?
    ensures SomeMoveBuilds(p, s, tx)
  {
    hide Apply, Inv, Held, FundingCovers, Live;
    InvIsWide(p, s);
    DeadlineKeepsHeld(p, tx.after, s.deadline);
    LiveMakes(p, s, m, tx);
  }

  /** The move behind an admitted publication, its witness read off the transaction. */
  lemma AdmittedMove(p: Params, s: State, tx: LiveTx) returns (m: Move)
    requires ValidParams(p) && Inv(p, s) && WellFormed(tx.after) && !s.phase.Betting?
    requires Expected(p, s, tx.after).Some? && |tx.proofs| == |RevealSlots(s.phase)|
    requires var slots := RevealSlots(s.phase);
      && (forall i | 0 <= i < |slots| :: Encodable(Share(tx.after.shares[slots[i]], tx.proofs[|slots| - 1 - i])))
      && tx.after == Expected(p, s, tx.after).value.state.(shares := Copied(s.shares, tx.after.shares, slots))
    ensures Apply(p, s, m) == Some(Applied(tx.after.(deadline := s.deadline), tx.proofs))
    ensures Expected(p, s, tx.after).value.contribution == Held(p, tx.after) - Held(p, s)
  {
    hide Apply, Inv, Expected, Encodable, Held, RevealSlots, Copied, KindSlots, Fill, KindCards, Write, PhaseKind,
      Publishable, WellFormed, PublishingMove, Proofs;
    InvIsWide(p, s);
    WellFormedIsWide(tx.after);
    ExpectedIsLive(p, s, tx.after);
    PublishingPhases(p, s);
    var kind, slots := PhaseKind(s.phase).value, RevealSlots(s.phase);
    SlotTablesAgree(s.phase);
    var cards := AdmittedCards(slots, tx);
    KindWidth(kind, RequiredActor(s.phase).value);
    FilledIsPublishable(kind, cards);
    var r := Fill(kind, cards);
    WriteIsCopy(s.shares, tx.after.shares, slots, cards);
    ProofsAreStack(slots, tx);
    ExpectedKeepsShares(p, s, tx.after);
    ExpectedIsPublishing(p, s, tx.after, r);
    m := PublishingMove(s, tx.after, r);
  }

  lemma FilledIsPublishable(kind: RevealKind, cards: seq<CardReveal>)
    requires |cards| == |KindSlots(kind, Player1)| && forall i | 0 <= i < |cards| :: Encodable(cards[i])
    ensures Publishable(Fill(kind, cards), kind)
  {
    hide Encodable, KindSlots;
  }

  lemma ProofsAreStack(slots: seq<nat>, tx: LiveTx)
    requires |tx.proofs| == |slots| && |tx.after.shares| == SLOTS && forall i | 0 <= i < |slots| :: slots[i] < SLOTS
    ensures Proofs(AdmittedCards(slots, tx)) == tx.proofs
  {
  }

  lemma ExpectedIsLive(p: Params, s: State, after: State)
    requires Expected(p, s, after).Some?
    ensures !s.phase.Evaluation?
  {
  }

  lemma PublishingPhases(p: Params, s: State)
    requires Inv(p, s) && !s.phase.Betting? && !s.phase.Evaluation?
    ensures PhaseKind(s.phase).Some? && EncodePhase(s.phase).Some? && RequiredActor(s.phase).Some?
  {
  }

  lemma ExpectedKeepsShares(p: Params, s: State, after: State)
    requires Expected(p, s, after).Some?
    ensures Expected(p, s, after).value.state.shares == s.shares
    ensures Expected(p, s, after).value.state.deadline == s.deadline + DEADLINE_INTERVAL
    ensures s.deadline <= MAX_U64 - DEADLINE_INTERVAL
  {
  }

  /** On a reachable state the opponent admits a live spend exactly when some move of the builders
      produces it with verifying shares and an admissible layout. */
  lemma AdmissionRefinesBuilders(
    p: Params, o: OutputPolicy, s: State, known: seq<bool>, tx: LiveTx, valid: ShareCheck)
    requires ValidParams(p) && ValidPolicy(o) && Inv(p, s) && Knows(known, s) && WellFormed(tx.after)
    ensures Admits(p, o, s, Held(p, s), known, tx, valid)
      <==> SomeMoveBuilds(p, s, tx) && SharesVerify(s, tx, valid) && LayoutAdmitted(o, tx)
  {
    if Admits(p, o, s, Held(p, s), known, tx, valid) {
      AdmittedIsBuilt(p, o, s, known, tx, valid);
    }
    if SomeMoveBuilds(p, s, tx) && SharesVerify(s, tx, valid) && LayoutAdmitted(o, tx) {
      var m :| Live(p, s, Held(p, s), m, tx.funding) == Some(Built(tx.after, tx.value, tx.funding, tx.proofs));
      LiveMakes(p, s, m, tx);
      BuiltIsAdmitted(p, o, s, m, known, tx, valid);
    }
  }
}
