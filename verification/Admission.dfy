/** The opponent's independent check of an accepted live spend, and why it accepts exactly what the builders build. */
module Admission {
  import opened Bytes
  import opened Hand
  import opened Rules
  import opened Runs
  import opened Options

  /** A live spend as observed: successor packets, covenant output, wallet coins, change and proof stack. */
  datatype LiveTx = LiveTx(after: State, value: int, funding: Funding, proofs: seq<bytes>)

  /** Verifies a slot's share and proof against the slot's card and its assigned publisher's key. */
  type ShareCheck = (nat, bytes, bytes) -> bool

  /** Decoding a share and a proof from their affine bytes, then checking the proof. */
  predicate ShareAdmitted(valid: ShareCheck, slot: nat, share: bytes, proof: bytes) {
    Encodable(Share(share, proof)) && valid(slot, share, proof)
  }

  const MAX_INPUTS := 256

  /** The services' bounds on every output; a valid configuration has a positive minimum. */
  datatype OutputPolicy = OutputPolicy(min: int, max: int)

  predicate ValidPolicy(o: OutputPolicy) { 0 < o.min <= o.max <= MAX_MONEY }

  /** Transaction layout: the input bound, and both spendable outputs within policy. */
  predicate LayoutAdmitted(o: OutputPolicy, tx: LiveTx) {
    && |tx.funding.inputs| < MAX_INPUTS
    && o.min <= tx.value <= o.max
    && (tx.funding.change.Some? ==> o.min <= tx.funding.change.value <= o.max)
  }

  // ---------- What the checker expects ----------

  function RemainingSlots(p: Player, street: Street): (slots: seq<nat>)
    ensures forall i | 0 <= i < |slots| :: slots[i] < SLOTS
    decreases 3 - StreetIndex(street)
  {
    if street == River then BoardSlots(p, River) + OwnSlots(p)
    else BoardSlots(p, street) + RemainingSlots(p, NextStreet(street))
  }

  /** The slots the obligated player publishes, by phase. */
  function RevealSlots(phase: Phase): (slots: seq<nat>)
    ensures forall i | 0 <= i < |slots| :: slots[i] < SLOTS
  {
    match phase
    case AwaitFunding => [2, 3]
    case AwaitOpening => [0, 1]
    case BoardReveal(street, _, actor) => BoardSlots(actor, street)
    case ShowdownReveal(_, actor) => OwnSlots(actor)
    case AllIn(street, actor) => if street == River then OwnSlots(actor) else RemainingSlots(actor, NextStreet(street))
    case AllInReveal(street, actor) => RemainingSlots(actor, street)
    case Betting(_, _) => []
    case Evaluation => []
  }

  datatype Expectation = Expectation(state: State, contribution: int)

  /** The successor the checker computes from the predecessor and the actor's new wager, shares aside. */
  function Expected(p: Params, before: State, after: State): (e: Option<Expectation>) {
    if before.phase == Evaluation || before.deadline > MAX_U64 - DEADLINE_INTERVAL then None
    else
      var actor := RequiredActor(before.phase).value;
      var opponent := Other(actor);
      var mine, theirs, target := Wager(before, actor), Wager(before, opponent), Wager(after, actor);
      var base := before.(deadline := before.deadline + DEADLINE_INTERVAL);
      match before.phase
      case AwaitFunding => Some(Expectation(base.(phase := AwaitOpening), p.stake + p.bond))
      case AwaitOpening =>
        if target > p.maxWager || (target != 0 && target < p.minBet) then None
        else Some(Expectation(
          base.(wager2 := target, last := if target != 0 then Raised else Checked,
                phase := if target == p.maxWager then AllIn(PreFlop, opponent)
                  else Betting(PreFlop, opponent)), target))
      case Betting(street, _) =>
        if target < mine || target > p.maxWager then None
        else if target == theirs then
          Some(Expectation(
            WithWager(if before.last == Start then base.(phase := Betting(street, opponent), last := Checked)
                      else base.(phase := AfterStreet(street, opponent), last := Start), actor, target), target - mine))
        else if before.last == Raised && theirs < mine then None
        else
          var minimum := if before.last == Raised then theirs - mine else p.minBet;
          if target <= theirs || target <= mine || (target != p.maxWager && target - theirs < minimum) then None
          else Some(Expectation(
            WithWager(base.(phase := if target == p.maxWager then AllIn(street, opponent)
                            else Betting(street, opponent),
                            last := Raised), actor, target), target - mine))
      case BoardReveal(street, pass, _) =>
        Some(Expectation(
          base.(phase := if pass == FirstPass then BoardReveal(street, SecondPass, opponent)
                else Betting(street, opponent)), 0))
      case ShowdownReveal(pass, _) =>
        Some(Expectation(
          base.(phase := if pass == FirstPass then ShowdownReveal(SecondPass, opponent) else Evaluation), 0))
      case AllIn(street, _) =>
        if mine > p.maxWager || p.maxWager < 0 then None
        else Some(Expectation(
          base.(wager1 := p.maxWager, wager2 := p.maxWager, last := Start,
                phase := if street == River then ShowdownReveal(SecondPass, opponent)
                         else AllInReveal(NextStreet(street), opponent)), p.maxWager - mine))
      case AllInReveal(_, _) => Some(Expectation(base.(phase := Evaluation), 0))
      case Evaluation => None
  }

  /** `shares` with the listed slots taken from `from`. */
  function Copied(shares: seq<bytes>, from: seq<bytes>, slots: seq<nat>): (c: seq<bytes>)
    requires |shares| == |from|
  {
    seq(|shares|, i requires 0 <= i < |shares| => if i in slots then from[i] else shares[i])
  }

  /** Input values are money, they balance the outputs, and checkpoints bound their number. */
  predicate EdgesBalance(held: int, tx: LiveTx) {
    && Total([held] + tx.funding.inputs).Some?
    && AddAmount(0, tx.value).Some?
    && (match tx.funding.change
        case None => Total([held] + tx.funding.inputs).value == tx.value
        case Some(c) => AddAmount(tx.value, c) == Total([held] + tx.funding.inputs))
  }

  /** The covenant grows by the contribution, which alone justifies wallet coins and change. */
  predicate ContributionAdmitted(held: int, contribution: int, tx: LiveTx) {
    && AddAmount(held, contribution) == Some(tx.value)
    && (contribution == 0 ==> tx.funding.inputs == [] && tx.funding.change.None?)
    && (contribution > 0 ==> tx.funding.inputs != [])
  }

  /** The whole admission of a live spend. `known` are the slots whose shares were admitted before. */
  predicate Admits(p: Params, o: OutputPolicy, before: State, held: int, known: seq<bool>, tx: LiveTx,
                   valid: ShareCheck)
    requires WellFormed(before) && WellFormed(tx.after) && |known| == SLOTS
  {
    var slots := RevealSlots(before.phase);
    var e := Expected(p, before, tx.after);
    && EdgesBalance(held, tx)
    && LayoutAdmitted(o, tx)
    && e.Some?
    && |tx.proofs| == |slots|
    && (forall i | 0 <= i < |slots| ::
          !known[slots[i]] && ShareAdmitted(valid, slots[i], tx.after.shares[slots[i]], tx.proofs[|slots| - 1 - i]))
    && tx.after == e.value.state.(shares := Copied(before.shares, tx.after.shares, slots))
    && ContributionAdmitted(held, e.value.contribution, tx)
  }

  /** Admits each new share in turn, copying it into the expected successor. */
  method AdmitShares(before: State, known: seq<bool>, slots: seq<nat>, tx: LiveTx, valid: ShareCheck)
    returns (ok: bool, shares: seq<bytes>, next: seq<bool>)
    requires |before.shares| == |tx.after.shares| == |known| == SLOTS && |tx.proofs| == |slots|
    requires forall i | 0 <= i < |slots| :: slots[i] < SLOTS
    ensures ok <==> forall i | 0 <= i < |slots| ::
      !known[slots[i]] && ShareAdmitted(valid, slots[i], tx.after.shares[slots[i]], tx.proofs[|slots| - 1 - i])
    ensures ok ==> shares == Copied(before.shares, tx.after.shares, slots)
    ensures ok ==> |next| == SLOTS && forall k: nat | k < SLOTS :: next[k] == (known[k] || k in slots)
  {
    shares, next := before.shares, known;
    var i := 0;
    while i < |slots|
      invariant 0 <= i <= |slots|
      invariant forall j | 0 <= j < i ::
        !known[slots[j]] && ShareAdmitted(valid, slots[j], tx.after.shares[slots[j]], tx.proofs[|slots| - 1 - j])
      invariant shares == Copied(before.shares, tx.after.shares, slots[..i])
      invariant |next| == SLOTS && forall k: nat | k < SLOTS :: next[k] == (known[k] || k in slots[..i])
    {
      var slot := slots[i];
      if known[slot] || !ShareAdmitted(valid, slot, tx.after.shares[slot], tx.proofs[|slots| - 1 - i]) {
        return false, shares, next;
      }
      assert slots[..i + 1] == slots[..i] + [slot];
      shares := shares[slot := tx.after.shares[slot]];
      next := next[slot := true];
      i := i + 1;
    }
    assert slots[..i] == slots;
    return true, shares, next;
  }

  /** The check as the program performs it: an expected successor filled in slot by slot. */
  method AdmitSpend(p: Params, o: OutputPolicy, before: State, held: int, known: seq<bool>, tx: LiveTx,
                    valid: ShareCheck)
    returns (ok: bool, next: seq<bool>)
    requires WellFormed(before) && WellFormed(tx.after) && |known| == SLOTS
    ensures ok <==> Admits(p, o, before, held, known, tx, valid)
    ensures ok ==>
      |next| == SLOTS && forall i: nat | i < SLOTS :: next[i] == (known[i] || i in RevealSlots(before.phase))
  {
    hide EdgesBalance, LayoutAdmitted, Expected, RevealSlots, ShareAdmitted, ContributionAdmitted, Copied;
    next := known;
    if !EdgesBalance(held, tx) || !LayoutAdmitted(o, tx) {
      return false, next;
    }
    var e := Expected(p, before, tx.after);
    if e.None? {
      return false, next;
    }
    var expected, contribution := e.value.state, e.value.contribution;
    var slots := RevealSlots(before.phase);
    if |tx.proofs| != |slots| {
      return false, next;
    }
    var admitted, shares, known' := AdmitShares(before, known, slots, tx, valid);
    if !admitted {
      return false, next;
    }
    next := known';
    expected := expected.(shares := shares);
    if tx.after != expected {
      return false, next;
    }
    ok := AdmitContribution(held, contribution, tx);
  }

  method AdmitContribution(held: int, contribution: int, tx: LiveTx) returns (ok: bool)
    ensures ok <==> ContributionAdmitted(held, contribution, tx)
  {
    if AddAmount(held, contribution) != Some(tx.value) {
      return false;
    }
    if contribution == 0 && (|tx.funding.inputs| != 0 || tx.funding.change.Some?) {
      return false;
    }
    if contribution > 0 && |tx.funding.inputs| == 0 {
      return false;
    }
    ok := true;
  }

  // ---------- Refinement on reachable states ----------

  /** Every newly published share verifies. */
  predicate SharesVerify(s: State, tx: LiveTx, valid: ShareCheck)
    requires |tx.after.shares| == SLOTS
  {
    var slots := RevealSlots(s.phase);
    |tx.proofs| == |slots|
    && forall i | 0 <= i < |slots| :: valid(slots[i], tx.after.shares[slots[i]], tx.proofs[|slots| - 1 - i])
  }

  /** Some move of the builders produces this spend. */
  ghost predicate SomeMoveBuilds(p: Params, s: State, tx: LiveTx)
    requires |s.shares| == SLOTS
  {
    exists m :: Live(p, s, Held(p, s), m, tx.funding) == Some(Built(tx.after, tx.value, tx.funding, tx.proofs))
  }

  /** The witness kind a phase asks for. */
  function PhaseKind(phase: Phase): (k: Option<RevealKind>) {
    match phase
    case AwaitFunding => Some(OpponentHoles)
    case AwaitOpening => Some(OpponentHoles)
    case BoardReveal(street, _, _) => if street == PreFlop then None else Some(BoardKind(street))
    case ShowdownReveal(_, _) => Some(OwnHoles)
    case AllIn(street, _) => Some(RemainingKind(street))
    case AllInReveal(street, _) => if street == PreFlop then None else Some(RemainingKind(PreviousStreet(street)))
    case Betting(_, _) => None
    case Evaluation => None
  }

  /** The checker's slot tables and the builders' agree, in order. */
  lemma SlotTablesAgree(phase: Phase)
    requires EncodePhase(phase).Some? && PhaseKind(phase).Some?
    ensures RevealSlots(phase) == KindSlots(PhaseKind(phase).value, RequiredActor(phase).value)
  {
    match phase
    case AllIn(street, actor) => RemainingAgrees(street, actor);
    case AllInReveal(street, actor) => RemainingAgrees(PreviousStreet(street), actor);
    case _ =>
  }

  lemma RemainingAgrees(street: Street, actor: Player)
    ensures street != River ==> RemainingSlots(actor, NextStreet(street)) == KindSlots(RemainingKind(street), actor)
  {
    match street
    case PreFlop =>
      assert RemainingSlots(actor, Flop) == BoardSlots(actor, Flop) + RemainingSlots(actor, Turn);
      assert RemainingSlots(actor, Turn) == BoardSlots(actor, Turn) + RemainingSlots(actor, River);
    case Flop =>
      assert RemainingSlots(actor, Turn) == BoardSlots(actor, Turn) + RemainingSlots(actor, River);
    case _ =>
  }

  /** A witness of a kind from its cards in publication order. */
  function Fill(kind: RevealKind, c: seq<CardReveal>): (r: Reveals)
    requires |c| == |KindSlots(kind, Player1)|
    ensures r.kind == kind && KindCards(r) == c && UnusedAbsent(r)
  {
    match kind
    case OpponentHoles => Reveals(kind, c[0], c[1], Absent, Absent, Absent, Absent, Absent)
    case OwnHoles => Reveals(kind, c[0], c[1], Absent, Absent, Absent, Absent, Absent)
    case FlopCards => Reveals(kind, Absent, Absent, c[0], c[1], c[2], Absent, Absent)
    case TurnCard => Reveals(kind, Absent, Absent, Absent, Absent, Absent, c[0], Absent)
    case RiverCard => Reveals(kind, Absent, Absent, Absent, Absent, Absent, Absent, c[0])
    case FromFlop => Reveals(kind, c[5], c[6], c[0], c[1], c[2], c[3], c[4])
    case FromTurn => Reveals(kind, c[2], c[3], Absent, Absent, Absent, c[0], c[1])
    case FromRiver => Reveals(kind, c[1], c[2], Absent, Absent, Absent, Absent, c[0])
  }
}
