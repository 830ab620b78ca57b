/** The journal: a live game, its log, and what reloading the log gives back after any crash. */
module Journal {
  import opened Bytes
  import opened Events
  import Messages
  import opened Reducer
  import opened LiveGame
  import opened Storage
  import opened FileLogs
  import opened Options

  /** Reading records back as events. */
  function Decoded(env: Env, records: seq<bytes>): (events: Option<seq<Event>>)
    ensures events.Some? ==> |events.value| == |records|
  {
    if records == [] then Some([])
    else
      var n := |records| - 1;
      match (Decoded(env, records[..n]), env.decode(records[n]))
      case (Some(events), Some(e)) => Some(events + [e])
      case _ => None
  }

  /** The game a log of records stands for. */
  function Restored(env: Env, c: Config, records: seq<bytes>): (g: Option<Game>) {
    match Decoded(env, records) case None => None case Some(events) => Replay(env, Reducer.New(env, c), events)
  }

  lemma RestoredNext(env: Env, c: Config, records: seq<bytes>, record: bytes)
    ensures Restored(env, c, records + [record])
      == if Restored(env, c, records).None? || env.decode(record).None? then None
         else Step(env, Restored(env, c, records).value, env.decode(record).value)
  {
    hide Step, Reducer.New;
    var longer := records + [record];
    assert longer[..|longer| - 1] == records && longer[|longer| - 1] == record;
    if Decoded(env, records).Some? && env.decode(record).Some? {
      var events, e := Decoded(env, records).value, env.decode(record).value;
      assert (events + [e])[..|events + [e]| - 1] == events;
    }
  }

  lemma {:induction false} RestoredCounts(env: Env, c: Config, records: seq<bytes>)
    requires Restored(env, c, records).Some?
    ensures Restored(env, c, records).value.nextEvent == |records|
  {
    hide Step;
    if records != [] {
      var n := |records| - 1;
      assert records == records[..n] + [records[n]];
      RestoredNext(env, c, records[..n], records[n]);
      RestoredCounts(env, c, records[..n]);
      StepCountsEvents(env, Restored(env, c, records[..n]).value, env.decode(records[n]).value);
    }
  }

  lemma StepCountsEvents(env: Env, g: Game, e: Event)
    requires Step(env, g, e).Some?
    ensures Step(env, g, e).value.nextEvent == g.nextEvent + 1 && g.nextEvent < MAX_U64
  {
    hide Reduce, WalletFits;
  }

  /** Opening this directory's log restores this game. */
  ghost predicate Opens(env: Env, c: Config, h: Sum, wallet: bytes, found: Dir, g: Game) {
    exists records :: Keeps(h, wallet, found, records) && Restored(env, c, records) == Some(g)
  }

  /** From this point of the trail on, a crash leaves a log that opens as the game before or after. */
  ghost predicate CrashesOpen(env: Env, c: Config, h: Sum, wallet: bytes, trail: seq<Versions>, from: nat, before: Game,
                              after: Option<Game>) {
    forall k, found {:trigger MayReturn(trail[k], found)} :: from <= k < |trail| && MayReturn(trail[k], found) ==>
      Opens(env, c, h, wallet, found, before) || (after.Some? && Opens(env, c, h, wallet, found, after.value))
  }

  datatype Appended = Recorded | Rejected | Unsure

  class Journal {
    var game: GameState
    const log: FileLog
    var failed: bool

    /** The directory shows the records whose replay is the live game. */
    ghost predicate Valid(env: Env, c: Config, records: seq<bytes>)
      reads this, game, game.setup, log, log.disk
    {
      && Wide32(log.h) && |log.wallet| == 32
      && (failed || !log.failed)
      && (!failed ==>
            && log.count == |records| && Keeps(log.h, log.wallet, Visible(log.disk.versions), records)
            && Restored(env, c, records) == Some(game.Value()))
    }

    constructor (game: GameState, log: FileLog)
      ensures this.game == game && this.log == log && !failed
    {
      this.game, this.log, failed := game, log, false;
    }

    /** Admits a candidate, writes the event, and only then makes the candidate the live game. A crash at any point
        leaves a log that opens as the game before or after if, and once the event is recorded only if, each
        directory version not yet synced when it began kept the log before or after: as all do unless an earlier
        directory sync failed. */
    method Append(env: Env, c: Config, e: Event, cancelled: bool, suffix: string, fault: Fault,
                  ghost records: seq<bytes>)
      returns (r: Appended)
      requires EventCodec(env) && Valid(env, c, records)
      modifies this, log, log.disk
      ensures r == Recorded ==>
        && Step(env, old(game.Value()), e) == Some(game.Value())
        && env.encode(e).Some? && Valid(env, c, records + [env.encode(e).value])
        && Settled(log.h, log.wallet, log.disk.versions, records + [env.encode(e).value])
      ensures r != Recorded ==> game == old(game) && game.Value() == old(game.Value())
      ensures r == Rejected ==> Valid(env, c, records) && log.disk.versions == old(log.disk.versions)
      ensures r == Unsure ==> failed && Step(env, old(game.Value()), e).Some?
      ensures old(failed) ==> r == Rejected && failed
      ensures old(log.disk.trail) <= log.disk.trail
      ensures old(Settled(log.h, log.wallet, log.disk.versions, records))
              || (env.encode(e).Some?
                  && old(Between(log.h, log.wallet, log.disk.versions, records, env.encode(e).value)))
        ==> CrashesOpen(env, c, log.h, log.wallet, log.disk.trail, |old(log.disk.trail)|, old(game.Value()),
                        Step(env, old(game.Value()), e))
      ensures r == Recorded && Collisionless(env.hash) ==>
        (CrashesOpen(env, c, log.h, log.wallet, log.disk.trail, |old(log.disk.trail)|, old(game.Value()),
                     Some(game.Value()))
         <==> old(Between(log.h, log.wallet, log.disk.versions, records, env.encode(e).value)))
    {
      hide Step, Restored, Keeps, Settled, MayReturn, Between, TrailSurvives, CrashesOpen, Collisionless;
      NoCrashYet(env, c, log.h, log.wallet, log.disk.trail, game.Value(), Step(env, game.Value(), e));
      if failed {
        return Rejected;
      }
      var record := env.encode(e);
      if record.None? {
        return Rejected;
      }
      var owned := env.decode(record.value);
      assert owned == Some(e);
      var candidate := new GameState.Copy(game);
      var admitted := candidate.Apply(env, owned.value);
      if !admitted {
        return Rejected;
      }
      RestoredCounts(env, c, records);
      StepCountsEvents(env, old(game.Value()), e);
      RestoredNext(env, c, records, record.value);
      SettledIsBetween(log.h, log.wallet, log.disk.versions, records, record.value);
      var ack := log.Append(cancelled, game.nextEvent, record.value, suffix, fault, records);
      if ack != Refused {
        SurvivorsOpen(env, c, log.h, log.wallet, log.disk.trail, |old(log.disk.trail)|, records, record.value);
      }
      if ack != Acknowledged {
        failed := true;
        return Unsure;
      }
      SettledShows(log.h, log.wallet, log.disk.versions, records + [record.value]);
      game := candidate;
      if Collisionless(env.hash) {
        OpenersSurvive(env, c, log.h, log.wallet, log.disk.trail, |old(log.disk.trail)|, records, record.value);
      }
      return Recorded;
    }
  }

  lemma SettledIsBetween(h: Sum, wallet: bytes, v: Versions, records: seq<bytes>, record: bytes)
    ensures Settled(h, wallet, v, records) ==> Between(h, wallet, v, records, record)
  {
    hide Keeps;
  }

  lemma NoCrashYet(env: Env, c: Config, h: Sum, wallet: bytes, trail: seq<Versions>, before: Game, after: Option<Game>)
    ensures CrashesOpen(env, c, h, wallet, trail, |trail|, before, after)
  {
  }

  lemma SurvivorsOpen(env: Env, c: Config, h: Sum, wallet: bytes, trail: seq<Versions>, from: nat, records: seq<bytes>,
                      record: bytes)
    requires Restored(env, c, records).Some? && Restored(env, c, records + [record]).Some?
    ensures TrailSurvives(h, wallet, trail, from, records, record) ==>
      CrashesOpen(env, c, h, wallet, trail, from, Restored(env, c, records).value, Restored(env, c, records + [record]))
  {
    hide Keeps, Restored, MayReturn;
    if TrailSurvives(h, wallet, trail, from, records, record) {
      forall k, found | from <= k < |trail| && MayReturn(trail[k], found)
        ensures Opens(env, c, h, wallet, found, Restored(env, c, records).value)
                || Opens(env, c, h, wallet, found, Restored(env, c, records + [record]).value)
      {
        assert Survives(h, wallet, trail[k], records, record);
      }
    }
  }

  /** Two different byte strings never have the same hash. */
  ghost predicate Collisionless(h: Messages.Hash) { forall a, b {:trigger h(a), h(b)} :: h(a) == h(b) ==> a == b }

  lemma {:induction false} DecodedEvents(env: Env, records: seq<bytes>, i: nat)
    requires i < |records| && Decoded(env, records).Some?
    ensures env.decode(records[i]) == Some(Decoded(env, records).value[i])
  {
    var n := |records| - 1;
    if i < n {
      DecodedEvents(env, records[..n], i);
    }
  }

  /** Without collisions a game has one log. */
  lemma OneLog(env: Env, c: Config, a: seq<bytes>, b: seq<bytes>)
    requires EventCodec(env) && Collisionless(env.hash)
    requires Restored(env, c, a).Some? && Restored(env, c, a) == Restored(env, c, b)
    ensures a == b
  {
    hide Step, Reducer.New;
    RestoredCounts(env, c, a);
    RestoredCounts(env, c, b);
    if a != [] {
      var d, e := Decoded(env, a).value, Decoded(env, b).value;
      HeadPinsHistory(env, c, d, e);
      forall i: nat | i < |a|
        ensures a[i] == b[i]
      {
        DecodedEvents(env, a, i);
        DecodedEvents(env, b, i);
        assert env.encode(d[i]) == Some(a[i]) && env.encode(e[i]) == Some(b[i]);
      }
    }
  }

  lemma OpenersSurvive(env: Env, c: Config, h: Sum, wallet: bytes, trail: seq<Versions>, from: nat, records: seq<bytes>,
                       record: bytes)
    requires EventCodec(env) && Collisionless(env.hash)
    requires Restored(env, c, records).Some? && Restored(env, c, records + [record]).Some?
    ensures CrashesOpen(env, c, h, wallet, trail, from, Restored(env, c, records).value,
                        Restored(env, c, records + [record]))
      ==> TrailSurvives(h, wallet, trail, from, records, record)
  {
    hide Keeps, Restored, MayReturn, EventCodec, Collisionless;
    if CrashesOpen(env, c, h, wallet, trail, from, Restored(env, c, records).value,
                   Restored(env, c, records + [record])) {
      forall k, found | from <= k < |trail| && MayReturn(trail[k], found)
        ensures Keeps(h, wallet, found, records) || Keeps(h, wallet, found, records + [record])
      {
        var rs :| Keeps(h, wallet, found, rs)
          && (Restored(env, c, rs) == Restored(env, c, records)
              || Restored(env, c, rs) == Restored(env, c, records + [record]));
        if Restored(env, c, rs) == Restored(env, c, records) {
          OneLog(env, c, rs, records);
        } else {
          OneLog(env, c, rs, records + [record]);
        }
      }
    }
  }

  /** Replays a loaded log from a new game, event by event; the first must belong to this wallet. */
  method LoadJournal(env: Env, c: Config, log: FileLog, entries: seq<string>, stop: nat) returns (j: Option<Journal>)
    requires EventCodec(env) && Wide32(log.h) && |log.wallet| == 32 && IsListing(entries, Visible(log.disk.versions))
    requires !log.failed && !log.closed
    modifies log`count, log.disk
    ensures stop >= |entries| ==> forall records
      {:trigger Keeps(log.h, log.wallet, AsRead(old(Visible(log.disk.versions))), records)} ::
      Keeps(log.h, log.wallet, AsRead(old(Visible(log.disk.versions))), records) ==>
        if Restored(env, c, records).None? then j.None?
        else
          && j.Some? && fresh(j.value) && j.value.log == log && !j.value.failed
          && Restored(env, c, records) == Some(j.value.game.Value())
          && (old(Keeps(log.h, log.wallet, Visible(log.disk.versions), records)) ==> j.value.Valid(env, c, records))
    ensures forall records {:trigger Settled(log.h, log.wallet, log.disk.versions, records)} ::
      old(Settled(log.h, log.wallet, log.disk.versions, records)) ==>
        Settled(log.h, log.wallet, log.disk.versions, records)
  {
    hide Step, Keeps, Settled, Restored, Reducer.New;
    var loaded := log.Load(entries, stop);
    if loaded.None? {
      return None;
    }
    var records := loaded.value;
    var game := new GameState.New(env, c);
    RestoredEmpty(env, c);
    var i := 0;
    while i < |records|
      invariant 0 <= i <= |records| && fresh(game) && (game.setup == null || fresh(game.setup))
      invariant Restored(env, c, records[..i]) == Some(game.Value())
      invariant log.count == |records| && !log.failed
      invariant forall rs {:trigger Settled(log.h, log.wallet, log.disk.versions, rs)} ::
        old(Settled(log.h, log.wallet, log.disk.versions, rs)) ==> Settled(log.h, log.wallet, log.disk.versions, rs)
      invariant forall rs {:trigger Keeps(log.h, log.wallet, Visible(log.disk.versions), rs)} ::
        old(Keeps(log.h, log.wallet, Visible(log.disk.versions), rs)) ==>
          Keeps(log.h, log.wallet, Visible(log.disk.versions), rs)
    {
      assert records[..i + 1] == records[..i] + [records[i]];
      RestoredNext(env, c, records[..i], records[i]);
      var e := env.decode(records[i]);
      if e.None? || (i == 0 && !WalletFits(env, c, e.value)) {
        if e.Some? {
          FirstMustFit(env, c, e.value);
        }
        RestoredPrefix(env, c, records, i + 1);
        return None;
      }
      var ok := game.Apply(env, e.value);
      if !ok {
        RestoredPrefix(env, c, records, i + 1);
        return None;
      }
      i := i + 1;
    }
    assert records[..i] == records;
    var journal := new Journal(game, log);
    j := Some(journal);
  }

  lemma RestoredEmpty(env: Env, c: Config)
    ensures Restored(env, c, []) == Some(Reducer.New(env, c))
  {
    hide Reducer.New, Step;
  }

  lemma FirstMustFit(env: Env, c: Config, e: Event)
    requires !WalletFits(env, c, e)
    ensures Step(env, Reducer.New(env, c), e).None?
  {
    hide WalletFits;
  }

  lemma {:induction false} RestoredPrefix(env: Env, c: Config, records: seq<bytes>, n: nat)
    requires n <= |records| && Restored(env, c, records[..n]).None?
    ensures Restored(env, c, records).None?
    decreases |records|
  {
    hide Restored, Step;
    if n < |records| {
      var m := |records| - 1;
      assert records == records[..m] + [records[m]] && records[..m][..n] == records[..n];
      RestoredPrefix(env, c, records[..m], n);
      RestoredNext(env, c, records[..m], records[m]);
    } else {
      assert records[..n] == records;
    }
  }

  // ---------- The chain of hashes ----------

  lemma StepChains(env: Env, g: Game, e: Event)
    requires Step(env, g, e).Some?
    ensures env.encode(e).Some? && Step(env, g, e).value.previous == env.hash(env.encode(e).value)
    ensures e.sequence == g.nextEvent && (g.nextEvent > 0 ==> e.previous == g.previous)
  {
    hide Reduce, WalletFits;
  }

  lemma {:induction false} ReplayCounts(env: Env, c: Config, events: seq<Event>)
    requires Replay(env, Reducer.New(env, c), events).Some?
    ensures Replay(env, Reducer.New(env, c), events).value.nextEvent == |events|
  {
    hide Step;
    if events != [] {
      ReplayCounts(env, c, events[..|events| - 1]);
      StepCountsEvents(env, Replay(env, Reducer.New(env, c), events[..|events| - 1]).value, events[|events| - 1]);
    }
  }

  ghost predicate NoCollision(env: Env, a: seq<Event>, b: seq<Event>) {
    forall i, j | 0 <= i < |a| && 0 <= j < |b| && env.encode(a[i]).Some? && env.encode(b[j]).Some? ::
      Messages.Distinguishes(env.hash, env.encode(a[i]).value, env.encode(b[j]).value)
  }

  /** The hash a game would put in its next event pins down its whole history. */
  lemma {:induction false} HeadPinsHistory(env: Env, c: Config, a: seq<Event>, b: seq<Event>)
    requires EventCodec(env) && NoCollision(env, a, b) && a != [] && b != []
    requires Replay(env, Reducer.New(env, c), a).Some? && Replay(env, Reducer.New(env, c), b).Some?
    requires Replay(env, Reducer.New(env, c), a).value.previous == Replay(env, Reducer.New(env, c), b).value.previous
    ensures a == b
    decreases |a|
  {
    hide Step, Reducer.New;
    var m, n := |a| - 1, |b| - 1;
    var g := Replay(env, Reducer.New(env, c), a[..m]).value;
    var h := Replay(env, Reducer.New(env, c), b[..n]).value;
    StepChains(env, g, a[m]);
    StepChains(env, h, b[n]);
    assert Messages.Distinguishes(env.hash, env.encode(a[m]).value, env.encode(b[n]).value);
    assert env.decode(env.encode(a[m]).value) == Some(a[m]) && env.decode(env.encode(b[n]).value) == Some(b[n]);
    assert a[m] == b[n];
    ReplayCounts(env, c, a[..m]);
    ReplayCounts(env, c, b[..n]);
    if m > 0 {
      assert NoCollision(env, a[..m], b[..n]);
      HeadPinsHistory(env, c, a[..m], b[..n]);
    }
    assert a == a[..m] + [a[m]] && b == b[..n] + [b[n]];
  }
}
