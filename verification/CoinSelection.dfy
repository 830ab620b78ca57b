/** Choosing wallet coins for a contribution: an exact coin first, otherwise the largest until the change
    is admissible. */
module CoinSelection {
  import Algebra
  import opened Hand
  import opened Rules
  import opened Options

  /** An indexed output. `point` is the number its transaction id and index spell in comparison order. */
  datatype Coin = Coin(point: nat, amount: int, own: bool, expiresAt: int, gone: bool, assets: bool, genuine: bool)

  /** What the indexer must never report. */
  predicate Improper(c: Coin, now: int) {
    !c.own || c.expiresAt <= 0 || (Live(c, now) && (c.amount < 0 || c.amount > MAX_MONEY || (Plain(c) && !c.genuine)))
  }

  /** Neither expired nor spent, swept, unrolled, locked or settled. */
  predicate Live(c: Coin, now: int) { c.expiresAt > now && !c.gone }

  predicate Plain(c: Coin) { c.amount != 0 && !c.assets }

  predicate Usable(c: Coin, now: int) { Live(c, now) && Plain(c) }

  function Candidates(coins: seq<Coin>, now: int): (s: seq<Coin>)
    ensures |s| <= |coins|
  {
    if coins == [] then []
    else Candidates(coins[..|coins| - 1], now) + (if Usable(coins[|coins| - 1], now) then [coins[|coins| - 1]] else [])
  }

  function Sum(coins: seq<Coin>): (t: int) {
    if coins == [] then 0 else Sum(coins[..|coins| - 1]) + coins[|coins| - 1].amount
  }

  function Values(coins: seq<Coin>): (v: seq<int>)
    ensures |v| == |coins|
  {
    seq(|coins|, i requires 0 <= i < |coins| => coins[i].amount)
  }

  /** Before in selection order: exact first, then larger, then by outpoint. */
  predicate Preferred(a: Coin, b: Coin, amount: int) {
    if (a.amount == amount) != (b.amount == amount) then a.amount == amount
    else if a.amount != b.amount then a.amount > b.amount
    else a.point < b.point
  }

  predicate Ordered(s: seq<Coin>, amount: int) { forall i, j | 0 <= i < j < |s| :: !Preferred(s[j], s[i], amount) }

  datatype Selection =
    | Funded(inputs: seq<Coin>, change: Option<int>)
    | Insufficient(required: int, available: int)
    | Misreported
    | TooMany
    | NoChange

  const MAX_RECORDS: nat := 10000
  const MAX_COINS: nat := 255

  // ---------- Sums ----------

  lemma {:induction false} SumAppends(a: seq<Coin>, b: seq<Coin>)
    ensures Sum(a + b) == Sum(a) + Sum(b)
  {
    if b == [] {
      assert a + b == a;
    } else {
      var n := |b| - 1;
      SumAppends(a, b[..n]);
      assert (a + b)[..|a + b| - 1] == a + b[..n] && (a + b)[|a + b| - 1] == b[n];
    }
  }

  lemma SumInserts(s: seq<Coin>, i: nat, c: Coin)
    requires i <= |s|
    ensures Sum(s[..i] + [c] + s[i..]) == Sum(s) + c.amount
  {
    assert [c][..0] == [];
    assert Sum([c]) == c.amount;
    SumAppends(s[..i] + [c], s[i..]);
    SumAppends(s[..i], [c]);
    SumAppends(s[..i], s[i..]);
    assert s[..i] + s[i..] == s;
  }

  lemma {:induction false} SumIsPositive(s: seq<Coin>)
    requires forall i | 0 <= i < |s| :: s[i].amount > 0
    ensures Sum(s) >= |s|
  {
    if s != [] {
      SumIsPositive(s[..|s| - 1]);
    }
  }

  // ---------- Collecting ----------

  /** No impossible and no repeated record, and not more money than there is. */
  predicate WellReported(coins: seq<Coin>, now: int) {
    && (forall i | 0 <= i < |coins| :: !Improper(coins[i], now))
    && (forall i, j | 0 <= i < j < |coins| :: coins[i].point != coins[j].point)
    && Sum(Candidates(coins, now)) <= MAX_MONEY
  }

  /** Checks every record and keeps the usable ones; a repeated or impossible record condemns the answer. */
  method Collect(coins: seq<Coin>, now: int) returns (ok: bool, candidates: seq<Coin>, available: int)
    ensures ok <==> WellReported(coins, now)
    ensures ok ==> candidates == Candidates(coins, now) && available == Sum(candidates) <= MAX_MONEY
    ensures ok ==> forall i | 0 <= i < |candidates| :: candidates[i] in coins && 0 < candidates[i].amount <= MAX_MONEY
    ensures ok ==> forall i, j | 0 <= i < j < |candidates| :: candidates[i].point != candidates[j].point
  {
    hide Sum, Candidates;
    EmptyCandidates(now);
    var seen: set<nat> := {};
    assert coins[..0] == [];
    candidates, available := [], 0;
    var i := 0;
    while i < |coins|
      invariant 0 <= i <= |coins|
      invariant forall k | 0 <= k < i :: !Improper(coins[k], now)
      invariant forall p :: p in seen <==> exists k :: 0 <= k < i && coins[k].point == p
      invariant forall k, l | 0 <= k < l < i :: coins[k].point != coins[l].point
      invariant candidates == Candidates(coins[..i], now) && available == Sum(candidates) <= MAX_MONEY
      invariant forall k | 0 <= k < |candidates| :: candidates[k] in coins[..i] && 0 < candidates[k].amount <= MAX_MONEY
      invariant forall k, l | 0 <= k < l < |candidates| :: candidates[k].point != candidates[l].point
    {
      var c := coins[i];
      if Improper(c, now) || c.point in seen {
        return false, [], 0;
      }
      CandidatesNext(coins, now, i);
      if Usable(c, now) {
        if c.amount > MAX_MONEY - available {
          if forall k | 0 <= k < |coins| :: !Improper(coins[k], now) {
            SumGrows(coins, now, i + 1);
          }
          return false, [], 0;
        }
        NewPoint(candidates, coins, i, seen);
        available := available + c.amount;
        candidates := candidates + [c];
      }
      seen := seen + {c.point};
      i := i + 1;
    }
    assert coins[..i] == coins;
    ok := true;
  }

  lemma EmptyCandidates(now: int)
    ensures Candidates([], now) == [] && Sum([]) == 0
  {
  }

  lemma NewPoint(candidates: seq<Coin>, coins: seq<Coin>, i: nat, seen: set<nat>)
    requires i < |coins| && coins[i].point !in seen
    requires forall p :: p in seen <==> exists k :: 0 <= k < i && coins[k].point == p
    requires forall k | 0 <= k < |candidates| :: candidates[k] in coins[..i]
    ensures forall k | 0 <= k < |candidates| :: candidates[k].point != coins[i].point
  {
    forall k | 0 <= k < |candidates|
      ensures candidates[k].point != coins[i].point
    {
      assert candidates[k] in coins[..i];
      var l :| 0 <= l < |coins[..i]| && coins[..i][l] == candidates[k];
      assert coins[l] == candidates[k];
    }
  }

  /** Proper amounts only add. */
  lemma {:induction false} SumGrows(coins: seq<Coin>, now: int, n: nat)
    requires n <= |coins| && forall i | 0 <= i < |coins| :: !Improper(coins[i], now)
    ensures Sum(Candidates(coins[..n], now)) <= Sum(Candidates(coins, now))
    decreases |coins|
  {
    if n == |coins| {
      assert coins[..n] == coins;
    } else {
      var m := |coins| - 1;
      assert coins[..m][..n] == coins[..n];
      assert forall i | 0 <= i < m :: coins[..m][i] == coins[i];
      SumGrows(coins[..m], now, n);
      CandidatesNext(coins, now, m);
      assert coins[..m + 1] == coins;
    }
  }

  lemma CandidatesNext(coins: seq<Coin>, now: int, i: nat)
    requires i < |coins|
    ensures var before, after := Candidates(coins[..i], now), Candidates(coins[..i + 1], now);
      && after == before + (if Usable(coins[i], now) then [coins[i]] else [])
      && Sum(after) == Sum(before) + (if Usable(coins[i], now) then coins[i].amount else 0)
  {
    assert coins[..i + 1][..i] == coins[..i];
    var before := Candidates(coins[..i], now);
    SumAppends(before, [coins[i]]);
    assert [coins[i]][..0] == [] && Sum([coins[i]]) == coins[i].amount;
    assert before + [] == before;
  }

  // ---------- Ordering ----------

  method Sort(coins: seq<Coin>, amount: int) returns (s: seq<Coin>)
    ensures Ordered(s, amount) && multiset(s) == multiset(coins) && Sum(s) == Sum(coins)
  {
    hide Sum, Ordered;
    s := [];
    EmptySort(amount);
    var i := 0;
    while i < |coins|
      invariant 0 <= i <= |coins|
      invariant Ordered(s, amount) && multiset(s) == multiset(coins[..i]) && Sum(s) == Sum(coins[..i])
    {
      var c, k := coins[i], 0;
      while k < |s| && !Preferred(c, s[k], amount)
        invariant 0 <= k <= |s| && forall j | 0 <= j < k :: !Preferred(c, s[j], amount)
      {
        k := k + 1;
      }
      Inserted(s, k, c, amount);
      SumInserts(s, k, c);
      SumNext(coins, i);
      s := s[..k] + [c] + s[k..];
      i := i + 1;
    }
    assert coins[..i] == coins;
  }

  lemma EmptySort(amount: int)
    ensures Ordered([], amount) && Sum([]) == 0
  {
  }

  lemma SumNext(s: seq<Coin>, i: nat)
    requires i < |s|
    ensures Sum(s[..i + 1]) == Sum(s[..i]) + s[i].amount && multiset(s[..i + 1]) == multiset(s[..i]) + multiset{s[i]}
  {
    assert s[..i + 1] == s[..i] + [s[i]];
    assert s[..i + 1][..i] == s[..i];
  }

  lemma Inserted(s: seq<Coin>, k: nat, c: Coin, amount: int)
    requires Ordered(s, amount) && k <= |s| && (forall j | 0 <= j < k :: !Preferred(c, s[j], amount))
    requires k < |s| ==> Preferred(c, s[k], amount)
    ensures Ordered(s[..k] + [c] + s[k..], amount) && multiset(s[..k] + [c] + s[k..]) == multiset(s) + multiset{c}
  {
    assert s == s[..k] + s[k..];
    var t := s[..k] + [c] + s[k..];
    forall i, j | 0 <= i < j < |t|
      ensures !Preferred(t[j], t[i], amount)
    {
      if i == k {
        assert t[j] == s[j - 1];
      }
    }
  }

  // ---------- Choosing ----------

  /** Change the services would accept. */
  predicate Admissible(change: int, min: int, max: int) { change == 0 || min <= change <= max }

  /** What is kept of the first `i` coins when any that would overshoot is passed over. */
  function Taken(s: seq<Coin>, i: nat, amount: int, max: int): (t: seq<Coin>)
    requires i <= |s|
    ensures |t| <= i
  {
    if i == 0 then []
    else
      var t := Taken(s, i - 1, amount, max);
      if Sum(t) + s[i - 1].amount - amount > max then t else t + [s[i - 1]]
  }

  predicate Enough(t: seq<Coin>, amount: int, min: int, max: int) {
    |t| <= MAX_COINS && Sum(t) >= amount && Admissible(Sum(t) - amount, min, max)
  }

  /** Some point of the pass suffices. */
  ghost predicate GreedyFinds(s: seq<Coin>, amount: int, min: int, max: int) {
    exists i: nat :: i <= |s| && Enough(Taken(s, i, amount, max), amount, min, max)
  }

  /** When nothing overshoots nothing is passed over, so the points of the pass are the prefixes. */
  lemma {:induction false} NothingPassedOver(s: seq<Coin>, i: nat, amount: int, max: int)
    requires i <= |s| && Sum(s) - amount <= max && forall k | 0 <= k < |s| :: s[k].amount > 0
    ensures Taken(s, i, amount, max) == s[..i]
  {
    hide Sum;
    if i > 0 {
      NothingPassedOver(s, i - 1, amount, max);
      SumNext(s, i - 1);
      SumOfPrefix(s, i);
      assert s[..i] == s[..i - 1] + [s[i - 1]];
    }
  }

  lemma {:induction false} TakenGrows(s: seq<Coin>, i: nat, j: nat, amount: int, max: int)
    requires i <= j <= |s|
    ensures |Taken(s, i, amount, max)| <= |Taken(s, j, amount, max)|
    decreases j
  {
    if i < j {
      TakenGrows(s, i, j - 1, amount, max);
    }
  }

  /** Without overshooting, selection succeeds exactly when some prefix of the ordered coins leaves
      admissible change. */
  lemma GreedyIsPrefixes(s: seq<Coin>, amount: int, min: int, max: int)
    requires Sum(s) - amount <= max && forall k | 0 <= k < |s| :: s[k].amount > 0
    ensures GreedyFinds(s, amount, min, max)
      <==> exists n: nat ::
           n <= |s| && n <= MAX_COINS && Sum(s[..n]) >= amount && Admissible(Sum(s[..n]) - amount, min, max)
  {
    hide Taken, Sum;
    forall i: nat | i <= |s|
      ensures Taken(s, i, amount, max) == s[..i]
    {
      NothingPassedOver(s, i, amount, max);
    }
  }

  /** Some coin pays exactly. */
  ghost predicate HasExact(s: seq<Coin>, amount: int) { exists k :: 0 <= k < |s| && s[k].amount == amount }

  /** Greedy over ordered candidates, skipping any coin that would overshoot what change may be. */
  method Choose(s: seq<Coin>, amount: int, min: int, max: int) returns (r: Selection)
    requires 0 < amount <= MAX_MONEY && 0 < min <= max && Ordered(s, amount)
    requires forall i | 0 <= i < |s| :: 0 < s[i].amount <= MAX_MONEY
    requires Sum(s) <= MAX_MONEY
    ensures r.Funded? || r.TooMany? || r.NoChange?
    ensures r.Funded? ==>
      && FundingCovers(Funding(Values(r.inputs), r.change), amount) && |r.inputs| <= MAX_COINS
      && (r.change.Some? ==> min <= r.change.value <= max)
      && multiset(r.inputs) <= multiset(s)
      && !(Sum(r.inputs[..|r.inputs| - 1]) >= amount && Admissible(Sum(r.inputs[..|r.inputs| - 1]) - amount, min, max))
    ensures r.TooMany? ==> |s| > MAX_COINS
    ensures r.Funded? <==> GreedyFinds(s, amount, min, max)
    ensures HasExact(s, amount) ==>
      r.Funded? && r.change == None && |r.inputs| == 1 && r.inputs[0].amount == amount
    ensures Sum(s) >= amount && Admissible(Sum(s) - amount, min, max) && |s| <= MAX_COINS ==> r.Funded?
  {
    hide Sum, Total, FundingCovers, Ordered, HasExact, GreedyFinds, Pass;
    var inputs: seq<Coin> := [];
    var selected := 0;
    var i := 0;
    ghost var skipped := false;
    PassStarts(s, amount, min, max);
    while i < |s|
      invariant 0 <= i <= |s| && Pass(s, i, inputs, selected, skipped, amount, min, max)
    {
      var c := s[i];
      var total := selected + c.amount;
      if total - amount > max {
        PassSkips(s, i, inputs, selected, skipped, amount, min, max);
        skipped := true;
        i := i + 1;
        continue;
      }
      PassTakes(s, i, inputs, selected, skipped, amount, min, max);
      selected := total;
      inputs := inputs + [c];
      if |inputs| > MAX_COINS {
        return TooMany;
      }
      i := i + 1;
      if selected < amount {
        continue;
      }
      var change := selected - amount;
      if change == 0 {
        return Funded(inputs, None);
      }
      if change >= min {
        return Funded(inputs, Some(change));
      }
    }
    PassEnds(s, inputs, selected, skipped, amount, min, max);
    return NoChange;
  }

  /** What the pass knows after the first `i` coins: it kept exactly those of them that do not overshoot, and nothing so
      far suffices. */
  ghost predicate Pass(s: seq<Coin>, i: nat, inputs: seq<Coin>, selected: int, skipped: bool, amount: int, min: int,
                       max: int)
    requires i <= |s|
  {
    && Chosen(inputs, s, i, selected, amount, min, max)
    && (HasExact(s, amount) ==> i == 0 && inputs == [])
    && (if skipped then Sum(s) - amount > max else selected == Sum(s[..i]) && |inputs| == i)
    && inputs == Taken(s, i, amount, max) && selected == Sum(inputs)
    && forall j: nat | j <= i :: !Enough(Taken(s, j, amount, max), amount, min, max)
  }

  lemma PassStarts(s: seq<Coin>, amount: int, min: int, max: int)
    requires 0 < amount && 0 < min <= max
    ensures Pass(s, 0, [], 0, false, amount, min, max)
  {
    hide Chosen, HasExact;
    NothingChosen(s, amount, min, max);
  }

  /** A coin that would overshoot is passed over. */
  lemma PassSkips(s: seq<Coin>, i: nat, inputs: seq<Coin>, selected: int, skipped: bool, amount: int, min: int,
                  max: int)
    requires i < |s| && 0 < amount && 0 < min <= max && Ordered(s, amount)
    requires forall k | 0 <= k < |s| :: 0 < s[k].amount <= MAX_MONEY
    requires Pass(s, i, inputs, selected, skipped, amount, min, max) && selected + s[i].amount - amount > max
    ensures Pass(s, i + 1, inputs, selected, true, amount, min, max)
  {
    hide Sum, Ordered, Chosen, Picked, HasExact, Taken, Enough;
    if HasExact(s, amount) {
      ExactIsFirst(s, amount);
      assert selected == 0 by { assert s[..0] == []; NothingAdds(); }
    }
    TakenNext(s, i, amount, min, max);
    ChosenSkips(inputs, s, i, selected, amount, min, max);
    SumNext(s, i);
    SumOfPrefix(s, i + 1);
    ChosenIsBelow(inputs, s, i, selected, amount, min, max);
  }

  lemma NothingAdds()
    ensures Sum([]) == 0
  {
  }

  lemma ChosenIsBelow(inputs: seq<Coin>, s: seq<Coin>, i: nat, selected: int, amount: int, min: int, max: int)
    requires i <= |s| && Chosen(inputs, s, i, selected, amount, min, max)
    ensures selected <= Sum(s[..i]) && |inputs| <= i && |inputs| <= MAX_COINS && Picked(inputs, s, i, selected)
    ensures selected - amount <= max && !(selected >= amount && Admissible(selected - amount, min, max))
  {
    hide Sum, Total;
  }

  /** Any other is kept, and then there are too many, enough, or not yet enough. */
  lemma PassTakes(s: seq<Coin>, i: nat, inputs: seq<Coin>, selected: int, skipped: bool, amount: int, min: int,
                  max: int)
    requires i < |s| && 0 < amount <= MAX_MONEY && 0 < min <= max && Ordered(s, amount) && Sum(s) <= MAX_MONEY
    requires forall k | 0 <= k < |s| :: 0 < s[k].amount <= MAX_MONEY
    requires Pass(s, i, inputs, selected, skipped, amount, min, max) && selected + s[i].amount - amount <= max
    ensures var more, total := inputs + [s[i]], selected + s[i].amount;
      if |more| > MAX_COINS then |s| > MAX_COINS && !GreedyFinds(s, amount, min, max) && !HasExact(s, amount)
      else if total >= amount && Admissible(total - amount, min, max) then
        && FundingCovers(Funding(Values(more), if total == amount then None else Some(total - amount)), amount)
        && multiset(more) <= multiset(s) && GreedyFinds(s, amount, min, max)
        && !(Sum(more[..|more| - 1]) >= amount && Admissible(Sum(more[..|more| - 1]) - amount, min, max))
        && (HasExact(s, amount) ==> |more| == 1 && more[0].amount == amount && total == amount)
      else Pass(s, i + 1, more, total, skipped, amount, min, max)
  {
    hide *;
    var more, total := inputs + [s[i]], selected + s[i].amount;
    if |more| > MAX_COINS {
      TakesTooMany(s, i, inputs, selected, skipped, amount, min, max);
    } else if total >= amount && Admissible(total - amount, min, max) {
      TakesEnough(s, i, inputs, selected, skipped, amount, min, max);
    } else {
      TakesMore(s, i, inputs, selected, skipped, amount, min, max);
    }
  }

  lemma TakesTooMany(s: seq<Coin>, i: nat, inputs: seq<Coin>, selected: int, skipped: bool, amount: int, min: int,
                     max: int)
    requires i < |s| && 0 < amount <= MAX_MONEY && 0 < min <= max && Ordered(s, amount) && Sum(s) <= MAX_MONEY
    requires forall k | 0 <= k < |s| :: 0 < s[k].amount <= MAX_MONEY
    requires Pass(s, i, inputs, selected, skipped, amount, min, max) && selected + s[i].amount - amount <= max
    requires |inputs| + 1 > MAX_COINS
    ensures |s| > MAX_COINS && !GreedyFinds(s, amount, min, max) && !HasExact(s, amount)
  {
    hide Sum, Ordered, Picked, HasExact, Taken, Enough, GreedyFinds, Admissible;
    TakesOne(s, i, inputs, selected, skipped, amount, min, max);
    TooManyForAll(s, i + 1, amount, min, max);
  }

  lemma TakesEnough(s: seq<Coin>, i: nat, inputs: seq<Coin>, selected: int, skipped: bool, amount: int, min: int,
                    max: int)
    requires i < |s| && 0 < amount <= MAX_MONEY && 0 < min <= max && Ordered(s, amount) && Sum(s) <= MAX_MONEY
    requires forall k | 0 <= k < |s| :: 0 < s[k].amount <= MAX_MONEY
    requires Pass(s, i, inputs, selected, skipped, amount, min, max) && selected + s[i].amount - amount <= max
    requires |inputs| + 1 <= MAX_COINS
    requires selected + s[i].amount >= amount && Admissible(selected + s[i].amount - amount, min, max)
    ensures var more, total := inputs + [s[i]], selected + s[i].amount;
      && FundingCovers(Funding(Values(more), if total == amount then None else Some(total - amount)), amount)
      && multiset(more) <= multiset(s) && GreedyFinds(s, amount, min, max)
      && !(Sum(more[..|more| - 1]) >= amount && Admissible(Sum(more[..|more| - 1]) - amount, min, max))
      && (HasExact(s, amount) ==> |more| == 1 && more[0].amount == amount && total == amount)
  {
    hide Sum, Total, Ordered, Picked, HasExact, Taken, Enough, GreedyFinds, FundingCovers, Admissible;
    TakesOne(s, i, inputs, selected, skipped, amount, min, max);
    ExactStarts(s, inputs, amount);
    FundedCovers(inputs + [s[i]], selected + s[i].amount, amount);
    FoundAt(s, i + 1, amount, min, max);
  }

  lemma TakesMore(s: seq<Coin>, i: nat, inputs: seq<Coin>, selected: int, skipped: bool, amount: int, min: int,
                  max: int)
    requires i < |s| && 0 < amount <= MAX_MONEY && 0 < min <= max && Ordered(s, amount) && Sum(s) <= MAX_MONEY
    requires forall k | 0 <= k < |s| :: 0 < s[k].amount <= MAX_MONEY
    requires Pass(s, i, inputs, selected, skipped, amount, min, max) && selected + s[i].amount - amount <= max
    requires |inputs| + 1 <= MAX_COINS
    requires !(selected + s[i].amount >= amount && Admissible(selected + s[i].amount - amount, min, max))
    ensures Pass(s, i + 1, inputs + [s[i]], selected + s[i].amount, skipped, amount, min, max)
  {
    hide *;
    var more, total := inputs + [s[i]], selected + s[i].amount;
    TakesOne(s, i, inputs, selected, skipped, amount, min, max);
    ChosenIs(more, s, i + 1, total, amount, min, max);
    NotExact(s, i, inputs, selected, skipped, amount, min, max);
    PrefixTakes(s, i, inputs, selected, skipped, amount, min, max);
    NoneEnough(s, i, inputs, selected, skipped, amount, min, max);
    PassIs(s, i + 1, more, total, skipped, amount, min, max);
  }

  /** An exact coin would have come first and sufficed. */
  lemma NotExact(s: seq<Coin>, i: nat, inputs: seq<Coin>, selected: int, skipped: bool, amount: int, min: int, max: int)
    requires i < |s| && 0 < amount <= MAX_MONEY && 0 < min <= max && Ordered(s, amount) && Sum(s) <= MAX_MONEY
    requires forall k | 0 <= k < |s| :: 0 < s[k].amount <= MAX_MONEY
    requires Pass(s, i, inputs, selected, skipped, amount, min, max) && selected + s[i].amount - amount <= max
    requires |inputs| + 1 <= MAX_COINS
    requires !(selected + s[i].amount >= amount && Admissible(selected + s[i].amount - amount, min, max))
    ensures !HasExact(s, amount)
  {
    hide Sum, Ordered, Chosen, HasExact, Taken, Enough, Admissible;
    ExactStarts(s, inputs, amount);
    ExactSuffices(amount, min, max);
  }

  lemma PrefixTakes(s: seq<Coin>, i: nat, inputs: seq<Coin>, selected: int, skipped: bool, amount: int, min: int,
                    max: int)
    requires i < |s| && 0 < amount <= MAX_MONEY && 0 < min <= max && Ordered(s, amount) && Sum(s) <= MAX_MONEY
    requires forall k | 0 <= k < |s| :: 0 < s[k].amount <= MAX_MONEY
    requires Pass(s, i, inputs, selected, skipped, amount, min, max) && selected + s[i].amount - amount <= max
    ensures if skipped then Sum(s) - amount > max
      else selected + s[i].amount == Sum(s[..i + 1]) && |inputs + [s[i]]| == i + 1
  {
    hide Sum, Ordered, Chosen, HasExact, Taken, Enough;
    SumNext(s, i);
  }

  lemma NoneEnough(s: seq<Coin>, i: nat, inputs: seq<Coin>, selected: int, skipped: bool, amount: int, min: int,
                   max: int)
    requires i < |s| && 0 < amount <= MAX_MONEY && 0 < min <= max && Ordered(s, amount) && Sum(s) <= MAX_MONEY
    requires forall k | 0 <= k < |s| :: 0 < s[k].amount <= MAX_MONEY
    requires Pass(s, i, inputs, selected, skipped, amount, min, max) && selected + s[i].amount - amount <= max
    requires var t := Taken(s, i + 1, amount, max); !(Sum(t) >= amount && Admissible(Sum(t) - amount, min, max))
    ensures forall j: nat | j <= i + 1 :: !Enough(Taken(s, j, amount, max), amount, min, max)
  {
    hide Sum, Ordered, Chosen, HasExact, Taken, Enough, Admissible;
    TakenNext(s, i, amount, min, max);
  }

  lemma PassIs(s: seq<Coin>, i: nat, inputs: seq<Coin>, selected: int, skipped: bool, amount: int, min: int, max: int)
    requires i <= |s| && Chosen(inputs, s, i, selected, amount, min, max) && !HasExact(s, amount)
    requires if skipped then Sum(s) - amount > max else selected == Sum(s[..i]) && |inputs| == i
    requires inputs == Taken(s, i, amount, max) && selected == Sum(inputs)
    requires forall j: nat | j <= i :: !Enough(Taken(s, j, amount, max), amount, min, max)
    ensures Pass(s, i, inputs, selected, skipped, amount, min, max)
  {
    hide Sum, Chosen, HasExact, Taken, Enough;
  }

  /** Keeping one more coin: what is then kept, what it adds up to, and that what was kept before did not suffice. */
  lemma TakesOne(s: seq<Coin>, i: nat, inputs: seq<Coin>, selected: int, skipped: bool, amount: int, min: int, max: int)
    requires i < |s| && 0 < amount <= MAX_MONEY && 0 < min <= max && Ordered(s, amount) && Sum(s) <= MAX_MONEY
    requires forall k | 0 <= k < |s| :: 0 < s[k].amount <= MAX_MONEY
    requires Pass(s, i, inputs, selected, skipped, amount, min, max) && selected + s[i].amount - amount <= max
    ensures var more, total := inputs + [s[i]], selected + s[i].amount;
      && Taken(s, i + 1, amount, max) == more && Sum(more) == total && Picked(more, s, i + 1, total)
      && Total(Values(more)) == Some(total) && more[..|more| - 1] == inputs && Sum(inputs) == selected
      && multiset(more) <= multiset(s) && |inputs| <= i
    ensures !(selected >= amount && Admissible(selected - amount, min, max)) && |inputs| <= MAX_COINS
    ensures selected == 0 || inputs != []
  {
    hide Sum, Total, Ordered, Picked, HasExact, Taken, Enough, Admissible;
    TakenNext(s, i, amount, min, max);
    SumOfPrefix(s, i + 1);
    ChosenTakes(inputs, s, i, selected, amount);
    if inputs == [] {
      NothingAdds();
    }
  }

  lemma ExactSuffices(amount: int, min: int, max: int)
    ensures Admissible(amount - amount, min, max)
  {
  }

  lemma ChosenIs(inputs: seq<Coin>, s: seq<Coin>, i: nat, selected: int, amount: int, min: int, max: int)
    requires i <= |s| && Picked(inputs, s, i, selected) && selected - amount <= max && |inputs| <= MAX_COINS
    requires !(selected >= amount && Admissible(selected - amount, min, max))
    ensures Chosen(inputs, s, i, selected, amount, min, max)
  {
  }

  /** An exact coin comes first and is taken alone. */
  lemma ExactStarts(s: seq<Coin>, inputs: seq<Coin>, amount: int)
    requires Ordered(s, amount)
    ensures HasExact(s, amount) ==> |s| > 0 && s[0].amount == amount
    ensures inputs == [] ==> Sum(inputs) == 0
  {
    hide Ordered;
    if HasExact(s, amount) {
      ExactIsFirst(s, amount);
    }
  }

  lemma PassEnds(s: seq<Coin>, inputs: seq<Coin>, selected: int, skipped: bool, amount: int, min: int, max: int)
    requires 0 < amount && 0 < min <= max
    requires Pass(s, |s|, inputs, selected, skipped, amount, min, max)
    ensures !GreedyFinds(s, amount, min, max) && !HasExact(s, amount)
    ensures !(Sum(s) >= amount && Admissible(Sum(s) - amount, min, max))
  {
    hide Sum, Chosen, Taken, Enough;
    assert s[..|s|] == s;
    ChosenIsBelow(inputs, s, |s|, selected, amount, min, max);
    NeverFound(s, amount, min, max);
  }

  lemma TakenNext(s: seq<Coin>, i: nat, amount: int, min: int, max: int)
    requires i < |s|
    ensures var t := Taken(s, i, amount, max);
      Taken(s, i + 1, amount, max) == if Sum(t) + s[i].amount - amount > max then t else t + [s[i]]
    ensures Taken(s, 0, amount, max) == []
    ensures var t := Taken(s, i + 1, amount, max);
      Enough(t, amount, min, max) <==>
        |t| <= MAX_COINS && Sum(t) >= amount && Admissible(Sum(t) - amount, min, max)
  {
    hide Sum;
  }

  lemma FoundAt(s: seq<Coin>, i: nat, amount: int, min: int, max: int)
    requires i <= |s| && |Taken(s, i, amount, max)| <= MAX_COINS
    requires Sum(Taken(s, i, amount, max)) >= amount && Admissible(Sum(Taken(s, i, amount, max)) - amount, min, max)
    ensures GreedyFinds(s, amount, min, max)
  {
    hide Sum, Taken;
    assert Enough(Taken(s, i, amount, max), amount, min, max);
  }

  lemma NeverFound(s: seq<Coin>, amount: int, min: int, max: int)
    requires forall j: nat | j <= |s| :: !Enough(Taken(s, j, amount, max), amount, min, max)
    ensures !GreedyFinds(s, amount, min, max)
  {
    hide Taken, Enough;
  }

  lemma TooManyForAll(s: seq<Coin>, i: nat, amount: int, min: int, max: int)
    requires 0 < i <= |s| && |Taken(s, i, amount, max)| > MAX_COINS
    requires forall j: nat | j < i :: !Enough(Taken(s, j, amount, max), amount, min, max)
    ensures !GreedyFinds(s, amount, min, max)
  {
    hide Sum, Taken;
    forall j: nat | i <= j <= |s|
      ensures !Enough(Taken(s, j, amount, max), amount, min, max)
    {
      TakenGrows(s, i, j, amount, max);
    }
  }

  /** Part way: what is chosen adds up, comes from the coins seen, and does not yet suffice. */
  predicate Chosen(inputs: seq<Coin>, s: seq<Coin>, i: nat, selected: int, amount: int, min: int, max: int)
    requires i <= |s|
  {
    && Picked(inputs, s, i, selected)
    && selected - amount <= max && !(selected >= amount && Admissible(selected - amount, min, max))
    && |inputs| <= MAX_COINS
  }

  predicate Picked(inputs: seq<Coin>, s: seq<Coin>, i: nat, selected: int)
    requires i <= |s|
  {
    && 0 <= selected == Sum(inputs) <= Sum(s[..i]) && multiset(inputs) <= multiset(s[..i]) && |inputs| <= i
    && Total(Values(inputs)) == Some(selected)
  }

  lemma NothingChosen(s: seq<Coin>, amount: int, min: int, max: int)
    requires 0 < amount && 0 < min <= max
    ensures Chosen([], s, 0, 0, amount, min, max) && Sum(s[..0]) == 0 && Sum([]) == 0
    ensures Taken(s, 0, amount, max) == [] && !Enough([], amount, min, max)
  {
    assert s[..0] == [] && Values([]) == [];
  }

  lemma ChosenSkips(inputs: seq<Coin>, s: seq<Coin>, i: nat, selected: int, amount: int, min: int, max: int)
    requires i < |s| && s[i].amount > 0 && Chosen(inputs, s, i, selected, amount, min, max)
    ensures Chosen(inputs, s, i + 1, selected, amount, min, max)
  {
    hide Sum, Total;
    SumNext(s, i);
  }

  lemma ChosenTakes(inputs: seq<Coin>, s: seq<Coin>, i: nat, selected: int, amount: int)
    requires i < |s| && s[i].amount > 0 && Picked(inputs, s, i, selected) && Sum(s[..i + 1]) <= MAX_MONEY
    ensures Picked(inputs + [s[i]], s, i + 1, selected + s[i].amount)
    ensures (inputs + [s[i]])[..|inputs + [s[i]]| - 1] == inputs
    ensures multiset(inputs + [s[i]]) <= multiset(s) && Sum(inputs) == selected && |inputs| <= i
    ensures Total(Values(inputs + [s[i]])) == Some(selected + s[i].amount)
      && Sum(inputs + [s[i]]) == selected + s[i].amount
  {
    hide Total;
    SumNext(s, i);
    TotalAppends(inputs, s[i]);
    assert (inputs + [s[i]])[..|inputs|] == inputs;
    assert s == s[..i + 1] + s[i + 1..];
  }

  lemma FundedCovers(inputs: seq<Coin>, selected: int, amount: int)
    requires 0 < amount <= selected && amount <= MAX_MONEY && inputs != [] && Total(Values(inputs)) == Some(selected)
    ensures FundingCovers(Funding(Values(inputs), if selected == amount then None else Some(selected - amount)), amount)
  {
  }

  lemma ExactIsFirst(s: seq<Coin>, amount: int)
    requires Ordered(s, amount) && HasExact(s, amount)
    ensures |s| > 0 && s[0].amount == amount
  {
    var k :| 0 <= k < |s| && s[k].amount == amount;
  }

  lemma SumOfPrefix(s: seq<Coin>, n: nat)
    requires n <= |s| && forall i | 0 <= i < |s| :: s[i].amount > 0
    ensures 0 <= Sum(s[..n]) <= Sum(s)
  {
    assert s == s[..n] + s[n..];
    SumAppends(s[..n], s[n..]);
    SumIsPositive(s[..n]);
    SumIsPositive(s[n..]);
  }

  lemma TotalAppends(inputs: seq<Coin>, c: Coin)
    requires Total(Values(inputs)) == Some(Sum(inputs)) && Sum(inputs) >= 0 && c.amount > 0
      && Sum(inputs) + c.amount <= MAX_MONEY
    ensures Total(Values(inputs + [c])) == Some(Sum(inputs) + c.amount)
  {
    var v := Values(inputs + [c]);
    assert v[..|v| - 1] == Values(inputs);
  }

  /** The whole selection. */
  method SelectFunding(coins: seq<Coin>, amount: int, now: int, min: int, max: int) returns (r: Selection)
    requires 0 < min <= max <= MAX_MONEY
    ensures amount == 0 ==> r == Funded([], None)
    ensures r.Funded? && amount > 0 ==>
      && FundingCovers(Funding(Values(r.inputs), r.change), amount)
      && (r.change.Some? ==> min <= r.change.value <= max)
      && (forall i | 0 <= i < |r.inputs| :: r.inputs[i] in coins && Usable(r.inputs[i], now))
      && (forall i, j | 0 <= i < j < |r.inputs| :: r.inputs[i].point != r.inputs[j].point)
      && ((exists i :: 0 <= i < |coins| && Usable(coins[i], now) && coins[i].amount == amount) ==>
            |r.inputs| == 1 && r.change == None)
    ensures r.Misreported? <==>
      amount < 0 || amount > MAX_MONEY
        || (amount > 0 && (now < 0 || |coins| > MAX_RECORDS || !WellReported(coins, now)))
    ensures r.TooMany? ==> |Candidates(coins, now)| > MAX_COINS
    ensures amount > 0 && !r.Misreported? ==>
      forall s {:trigger Ordered(s, amount)} ::
        Ordered(s, amount) && multiset(s) == multiset(Candidates(coins, now)) ==>
        (r.Funded? <==> GreedyFinds(s, amount, min, max))
    ensures r.Insufficient? ==> r.required == amount && r.available == Sum(Candidates(coins, now)) < amount
    ensures r.NoChange? ==>
      var spare := Sum(Candidates(coins, now)) - amount;
      spare >= 0 && (!Admissible(spare, min, max) || |Candidates(coins, now)| > MAX_COINS)
  {
    hide Sum, Candidates, Ordered, HasExact, FundingCovers, Usable, WellReported, GreedyFinds;
    if amount < 0 || amount > MAX_MONEY {
      return Misreported;
    }
    if amount == 0 {
      return Funded([], None);
    }
    if now < 0 || |coins| > MAX_RECORDS {
      return Misreported;
    }
    var ok, candidates, available := Collect(coins, now);
    if !ok {
      return Misreported;
    }
    var s := Sort(candidates, amount);
    OnlyOrder(s, coins, now, amount);
    if available < amount {
      PositiveAmounts(s, candidates);
      TooLittle(s, amount, min, max);
      return Insufficient(amount, available);
    }
    SameCoins(s, candidates);
    r := Choose(s, amount, min, max);
    if r.Funded? {
      ChosenFromCandidates(r.inputs, s, candidates, coins, now);
      ExactIsSorted(s, coins, now, amount);
    }
  }

  lemma ExactIsSorted(s: seq<Coin>, coins: seq<Coin>, now: int, amount: int)
    requires multiset(s) == multiset(Candidates(coins, now))
    ensures (exists i :: 0 <= i < |coins| && Usable(coins[i], now) && coins[i].amount == amount) ==> HasExact(s, amount)
  {
    hide Candidates;
    forall i | 0 <= i < |coins| && Usable(coins[i], now) && coins[i].amount == amount
      ensures HasExact(s, amount)
    {
      UsableIsCandidate(coins, now, i);
      assert coins[i] in multiset(s);
    }
  }

  lemma SameCoins(s: seq<Coin>, t: seq<Coin>)
    requires multiset(s) == multiset(t)
    ensures |s| == |t| && forall i | 0 <= i < |s| :: s[i] in t
  {
    assert |multiset(s)| == |s| && |multiset(t)| == |t|;
    forall i | 0 <= i < |s|
      ensures s[i] in t
    {
      assert s[i] in multiset(t);
    }
  }

  lemma {:induction false} UsableIsCandidate(coins: seq<Coin>, now: int, i: nat)
    requires i < |coins| && Usable(coins[i], now)
    ensures coins[i] in Candidates(coins, now)
    decreases |coins|
  {
    var n := |coins| - 1;
    if i < n {
      UsableIsCandidate(coins[..n], now, i);
    }
  }

  lemma {:induction false} CandidatesAreUsable(coins: seq<Coin>, now: int, k: nat)
    requires k < |Candidates(coins, now)|
    ensures Usable(Candidates(coins, now)[k], now)
    decreases |coins|
  {
    var n := |coins| - 1;
    if k < |Candidates(coins[..n], now)| {
      CandidatesAreUsable(coins[..n], now, k);
    }
  }

  /** What is chosen is chosen once each. */
  lemma ChosenFromCandidates(inputs: seq<Coin>, s: seq<Coin>, candidates: seq<Coin>, coins: seq<Coin>, now: int)
    requires multiset(inputs) <= multiset(s) == multiset(candidates) && candidates == Candidates(coins, now)
    requires forall i | 0 <= i < |candidates| :: candidates[i] in coins
    requires forall i, j | 0 <= i < j < |candidates| :: candidates[i].point != candidates[j].point
    ensures forall i | 0 <= i < |inputs| :: inputs[i] in coins && Usable(inputs[i], now)
    ensures forall i, j | 0 <= i < j < |inputs| :: inputs[i].point != inputs[j].point
  {
    forall i | 0 <= i < |inputs|
      ensures inputs[i] in coins && Usable(inputs[i], now)
    {
      assert inputs[i] in multiset(inputs) && inputs[i] in multiset(candidates);
      var k :| 0 <= k < |candidates| && candidates[k] == inputs[i];
      CandidatesAreUsable(coins, now, k);
    }
    forall i, j | 0 <= i < j < |inputs|
      ensures inputs[i].point != inputs[j].point
    {
      var a, b := inputs[i], inputs[j];
      assert a in multiset(candidates) && b in multiset(candidates);
      var k :| 0 <= k < |candidates| && candidates[k] == a;
      var l :| 0 <= l < |candidates| && candidates[l] == b;
      if a == b {
        Algebra.TwiceIn(inputs, i, j);
        OnceInside(candidates, k);
      }
    }
  }

  lemma OnceInside(s: seq<Coin>, k: nat)
    requires k < |s| && forall i, j | 0 <= i < j < |s| :: s[i].point != s[j].point
    ensures multiset(s)[s[k]] == 1
  {
    assert s == s[..k] + [s[k]] + s[k + 1..];
    assert s[k] !in s[..k] && s[k] !in s[k + 1..];
  }

  // ---------- The order is fixed, and so is what greedy misses ----------

  lemma {:induction false} OrderedOnce(s: seq<Coin>, t: seq<Coin>, amount: int)
    requires Ordered(s, amount) && Ordered(t, amount) && multiset(s) == multiset(t)
    requires forall i, j | 0 <= i < j < |s| :: s[i].point != s[j].point
    ensures s == t
  {
    hide Ordered;
    SameCoins(s, t);
    SameCoins(t, s);
    if s != [] {
      FirstIsFixed(s, t, amount);
      RestOf(s, amount);
      RestOf(t, amount);
      OrderedOnce(s[1..], t[1..], amount);
      assert s == [s[0]] + s[1..] && t == [t[0]] + t[1..];
    }
  }

  lemma RestOf(s: seq<Coin>, amount: int)
    requires s != [] && Ordered(s, amount)
    ensures Ordered(s[1..], amount) && multiset(s[1..]) == multiset(s) - multiset{s[0]}
  {
    assert s == [s[0]] + s[1..];
  }

  lemma FirstIsFixed(s: seq<Coin>, t: seq<Coin>, amount: int)
    requires Ordered(s, amount) && Ordered(t, amount) && |s| == |t| > 0 && s[0] in t && t[0] in s
    requires forall i, j | 0 <= i < j < |s| :: s[i].point != s[j].point
    ensures s[0] == t[0]
  {
    var k :| 0 <= k < |t| && t[k] == s[0];
    var m :| 0 <= m < |s| && s[m] == t[0];
    assert k > 0 ==> !Preferred(t[k], t[0], amount);
    assert m > 0 ==> !Preferred(s[m], s[0], amount);
  }

  lemma OnlyOrder(s: seq<Coin>, coins: seq<Coin>, now: int, amount: int)
    requires Ordered(s, amount) && multiset(s) == multiset(Candidates(coins, now))
    requires forall i, j | 0 <= i < j < |Candidates(coins, now)| ::
      Candidates(coins, now)[i].point != Candidates(coins, now)[j].point
    ensures forall t {:trigger Ordered(t, amount)} ::
      Ordered(t, amount) && multiset(t) == multiset(Candidates(coins, now)) ==> t == s
  {
    hide Ordered, Candidates;
    DistinctPoints(s, Candidates(coins, now));
    forall t | Ordered(t, amount) && multiset(t) == multiset(Candidates(coins, now))
      ensures t == s
    {
      OrderedOnce(s, t, amount);
    }
  }

  lemma DistinctPoints(s: seq<Coin>, t: seq<Coin>)
    requires multiset(s) == multiset(t) && forall i, j | 0 <= i < j < |t| :: t[i].point != t[j].point
    ensures forall i, j | 0 <= i < j < |s| :: s[i].point != s[j].point
  {
    forall i, j | 0 <= i < j < |s|
      ensures s[i].point != s[j].point
    {
      assert s[i] in multiset(t) && s[j] in multiset(t);
      var k :| 0 <= k < |t| && t[k] == s[i];
      var l :| 0 <= l < |t| && t[l] == s[j];
      if s[i] == s[j] {
        Algebra.TwiceIn(s, i, j);
        OnceInside(t, k);
      }
    }
  }

  lemma PositiveAmounts(s: seq<Coin>, t: seq<Coin>)
    requires multiset(s) == multiset(t) && forall i | 0 <= i < |t| :: t[i].amount > 0
    ensures forall i | 0 <= i < |s| :: s[i].amount > 0
  {
    SameCoins(s, t);
  }

  lemma TooLittle(s: seq<Coin>, amount: int, min: int, max: int)
    requires Sum(s) < amount && 0 < min <= max && forall i | 0 <= i < |s| :: s[i].amount > 0
    ensures !GreedyFinds(s, amount, min, max)
  {
    hide Sum;
    forall i: nat | i <= |s|
      ensures Taken(s, i, amount, max) == s[..i] && Sum(s[..i]) <= Sum(s)
    {
      NothingPassedOver(s, i, amount, max);
      SumOfPrefix(s, i);
    }
  }

  /** Three coins, two of which pay exactly. */
  const SEVEN := Coin(1, 7, true, 9, false, false, true)
  const SIX := Coin(2, 6, true, 9, false, false, true)
  const FOUR := Coin(3, 4, true, 9, false, false, true)

  lemma ThreeSums()
    ensures var coins := [SEVEN, SIX, FOUR];
      Sum(coins[..0]) == 0 && Sum(coins[..1]) == 7 && Sum(coins[..2]) == 13 && Sum(coins[..3]) == 17 == Sum(coins)
  {
    var coins := [SEVEN, SIX, FOUR];
    assert coins[..0] == [];
    SumNext(coins, 0);
    SumNext(coins, 1);
    SumNext(coins, 2);
    assert coins[..3] == coins;
  }

  lemma ThreeCandidates()
    ensures var coins := [SEVEN, SIX, FOUR]; Candidates(coins, 0) == coins
  {
    var coins := [SEVEN, SIX, FOUR];
    assert coins[..2] == [SEVEN, SIX] && coins[..1] == [SEVEN] && coins[..0] == [];
    assert [SEVEN, SIX][..1] == [SEVEN] && [SEVEN][..0] == [];
    assert Candidates([SEVEN], 0) == [SEVEN] && Candidates([SEVEN, SIX], 0) == [SEVEN, SIX];
  }

  lemma ThreeReported()
    ensures var coins := [SEVEN, SIX, FOUR]; WellReported(coins, 0) && Ordered(coins, 10)
  {
    hide Sum, Candidates;
    ThreeSums();
    ThreeCandidates();
  }

  lemma ThreeCoins()
    ensures var coins := [SEVEN, SIX, FOUR];
      && WellReported(coins, 0) && Candidates(coins, 0) == coins && Sum(coins) == 17 && Ordered(coins, 10)
      && !GreedyFinds(coins, 10, 8, 100)
  {
    hide Sum, Candidates, WellReported, Ordered, GreedyFinds;
    var coins := [SEVEN, SIX, FOUR];
    ThreeSums();
    ThreeCandidates();
    ThreeReported();
    GreedyIsPrefixes(coins, 10, 8, 100);
    forall n: nat | n <= 3
      ensures !(Sum(coins[..n]) >= 10 && Admissible(Sum(coins[..n]) - 10, 8, 100))
    {
      assert n == 0 || n == 1 || n == 2 || n == 3;
    }
  }

  /** Greedy selection is not complete: it refuses a payment of ten that a six and a four would make exactly. */
  method GreedyCanMiss() returns (r: Selection)
    ensures r == NoChange && FundingCovers(Funding(Values([SIX, FOUR]), None), 10)
  {
    hide Ordered, GreedyFinds, Sum, Candidates, WellReported;
    ThreeCoins();
    r := SelectFunding([SEVEN, SIX, FOUR], 10, 0, 8, 100);
    assert Total([6, 4]) == Some(10) by {
      assert [6, 4][..1] == [6] && [6][..0] == [];
      assert Total([6]) == Some(6);
    }
    assert Values([SIX, FOUR]) == [6, 4];
  }
}
