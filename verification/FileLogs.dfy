/** The native record log as objects: a directory changing step by step, and the log appended, read and cleared
    in it. */
module FileLogs {
  import opened Bytes
  import opened Storage
  import opened Options

  /** A directory on disk. The trail remembers every point a crash could have struck at. */
  class Directory {
    var versions: Versions
    ghost var trail: seq<Versions>

    constructor (found: Dir)
      ensures versions == [found] && trail == []
    {
      versions, trail := [found], [];
    }

    method Change(d: Dir)
      modifies this
      ensures versions == old(versions) + [d] && trail == old(trail) + [versions]
    {
      versions := versions + [d];
      trail := trail + [versions];
    }

    method Put(name: string, file: File)
      modifies this
      ensures versions == old(versions) + [Visible(old(versions))[name := file]] && trail == old(trail) + [versions]
    {
      Change(Visible(versions)[name := file]);
    }

    method Remove(name: string)
      modifies this
      ensures versions == old(versions) + [Visible(old(versions)) - {name}] && trail == old(trail) + [versions]
    {
      Change(Visible(versions) - {name});
    }

    /** Atomic: one change takes the old name away and sets the new one. */
    method Rename(from: string, to: string)
      requires from in Visible(versions)
      modifies this
      ensures versions == old(versions) + [(Visible(old(versions)) - {from})[to := Visible(old(versions))[from]]]
      ensures trail == old(trail) + [versions]
    {
      var d := Visible(versions);
      Change((d - {from})[to := d[from]]);
    }

    method Sync()
      modifies this
      ensures versions == [Visible(old(versions))] && trail == old(trail) + [versions]
    {
      versions := [Visible(versions)];
      trail := trail + [versions];
    }
  }

  /** What can go wrong in an append, step by step. */
  datatype Fault =
    | Nothing
    | NoStagedFile
    | BadWrite(written: bytes)
    | BadSync
    | BadClose
    | Cancelled
    | BadRename(moved: bool)
    | BadDirectorySync

  datatype Ack = Acknowledged | Refused | Uncertain

  class FileLog {
    const h: Sum
    const wallet: bytes
    const disk: Directory
    var count: nat
    var failed: bool
    var closed: bool

    constructor (h: Sum, wallet: bytes, disk: Directory)
      ensures this.h == h && this.wallet == wallet && this.disk == disk && count == 0 && !failed && !closed
    {
      this.h, this.wallet, this.disk, count, failed, closed := h, wallet, disk, 0, false, false;
    }

    /** One record file, read no further than a record can be long. */
    method ReadRecord(file: File, index: nat) returns (record: Option<bytes>)
      requires Wide32(h) && |wallet| == 32 && index <= MAX_U64
      ensures forall r {:trigger Frame(h, wallet, index, r)} ::
        record == Some(r) <==> Recordable(r) && file.Regular? && file.data == Frame(h, wallet, index, r)
    {
      if file.Irregular? {
        return None;
      }
      var limit := MAX_RECORD + OVERHEAD + 1;
      var b := if |file.data| <= limit then file.data else file.data[..limit];
      record := Unframe(h, wallet, index, b);
      forall r
        ensures record == Some(r) <==> Recordable(r) && file.data == Frame(h, wallet, index, r)
      {
        FrameCodec(h, wallet, index, b, r);
      }
    }

    /** Reads the records in listing order, removing staged files on the way. `stop` is the entry at which
        cancellation or an I/O error strikes; past the end when none does. */
    method Load(entries: seq<string>, stop: nat) returns (r: Option<seq<bytes>>)
      requires Wide32(h) && |wallet| == 32 && IsListing(entries, Visible(disk.versions))
      modifies this`count, disk
      ensures old(disk.versions) <= disk.versions && (closed || failed ==> r.None?)
      ensures Visible(disk.versions).Keys <= old(Visible(disk.versions)).Keys
      ensures forall rs {:trigger Keeps(h, wallet, Visible(disk.versions), rs)} ::
        Keeps(h, wallet, old(Visible(disk.versions)), rs) ==> Keeps(h, wallet, Visible(disk.versions), rs)
      ensures r.Some? ==> Keeps(h, wallet, AsRead(old(Visible(disk.versions))), r.value) && count == |r.value|
      ensures stop >= |entries| && !closed && !failed ==> forall rs
        {:trigger Keeps(h, wallet, AsRead(old(Visible(disk.versions))), rs)} ::
        Keeps(h, wallet, AsRead(old(Visible(disk.versions))), rs) ==> r == Some(rs)
      ensures forall rs {:trigger Settled(h, wallet, disk.versions, rs)} ::
        old(Settled(h, wallet, disk.versions, rs)) ==> Settled(h, wallet, disk.versions, rs)
    {
      hide ListedBefore, Frame, RecordName, Unframe, Keeps, HasRecord, Settled, ReadSoFar;
      if closed || failed {
        return None;
      }
      ghost var before := disk.versions;
      var listed := Visible(disk.versions);
      ghost var d := AsRead(listed);
      assert IsListing(entries, d);
      ghost var intact := exists rs :: Keeps(h, wallet, d, rs);
      ghost var expected := [];
      if intact {
        expected :| Keeps(h, wallet, d, expected);
        forall rs | Keeps(h, wallet, d, rs)
          ensures rs == expected
        {
          KeepsOne(h, wallet, d, rs, expected);
        }
      }
      var records: seq<bytes> := [];
      NothingRead(h, wallet, d, entries);
      var i := 0;
      while i < |entries|
        invariant 0 <= i <= |entries| && |records| <= i
        invariant forall name | name in listed && !IsStaged(name) ::
          name in Visible(disk.versions) && Visible(disk.versions)[name] == listed[name]
        invariant ReadSoFar(h, wallet, d, entries, i, records) && (intact ==> records <= expected)
        invariant before <= disk.versions && Visible(disk.versions).Keys <= listed.Keys
        invariant forall rs {:trigger Settled(h, wallet, disk.versions, rs)} ::
          Settled(h, wallet, before, rs) ==> Settled(h, wallet, disk.versions, rs)
        invariant forall rs {:trigger Keeps(h, wallet, Visible(disk.versions), rs)} ::
          Keeps(h, wallet, Visible(before), rs) ==> Keeps(h, wallet, Visible(disk.versions), rs)
      {
        var name := entries[i];
        if i == stop {
          return None;
        }
        if name == LOCK {
          SkipExtends(h, wallet, d, entries, i, records);
        } else if IsStaged(name) && listed[name].Regular? {
          RemovalKeepsSettled(h, wallet, disk.versions, name);
          RemovalKeepsVisible(h, wallet, Visible(disk.versions), name);
          disk.Remove(name);
          SkipExtends(h, wallet, d, entries, i, records);
        } else {
          if intact {
            NextNameIsNextRecord(h, wallet, d, expected, entries, i, records);
          }
          var record := ReadListed(name, listed, |records|, expected, intact);
          if record.None? {
            return None;
          }
          RecordExtends(h, wallet, d, entries, i, records, record.value);
          records := records + [record.value];
        }
        i := i + 1;
      }
      AllNamesRead(h, wallet, d, entries, records);
      count := |records|;
      r := Some(records);
    }

    method ReadListed(name: string, listed: Dir, index: nat, ghost expected: seq<bytes>, ghost intact: bool)
      returns (record: Option<bytes>)
      requires Wide32(h) && |wallet| == 32 && index <= MAX_U64 && name in listed
      requires intact ==>
        index < |expected| && name == RecordName(index) && HasRecord(h, wallet, AsRead(listed), index, expected[index])
      ensures record.Some? ==> name == RecordName(index) && HasRecord(h, wallet, AsRead(listed), index, record.value)
      ensures intact ==> record == Some(expected[index])
    {
      hide RecordName, Frame;
      if name != RecordName(index) {
        return None;
      }
      record := ReadRecord(listed[name], index);
      assert intact ==> listed[name].Regular? && listed[name].data == Frame(h, wallet, index, expected[index]);
      if record.Some? {
        var r := record.value;
        assert Recordable(r) && listed[name].Regular? && listed[name].data == Frame(h, wallet, index, r);
      }
    }

    /** Stage, write, sync, rename, sync the directory; any failure on the way stops this writer. `suffix` completes the
        staged file's name and `fault` says what goes wrong. The log found may have unsynced versions behind it: each
        point of an acknowledged append survives a crash exactly when every one of those would. */
    method Append(cancelled: bool, expected: nat, record: bytes, suffix: string, fault: Fault,
                  ghost records: seq<bytes>)
      returns (ack: Ack)
      requires !failed ==> |records| == count && Keeps(h, wallet, Visible(disk.versions), records)
      modifies this`count, this`failed, disk
      ensures ack == Refused <==>
        closed || old(failed) || cancelled || expected != old(count) || old(count) == MAX_U64 || !Recordable(record)
      ensures ack == Refused ==>
        failed == old(failed) && disk.versions == old(disk.versions) && disk.trail == old(disk.trail)
      ensures ack != Refused && fault == Nothing && STAGED + suffix !in old(Visible(disk.versions)) ==>
        ack == Acknowledged
      ensures count == old(count) + (if ack == Acknowledged then 1 else 0)
      ensures old(disk.trail) <= disk.trail
      ensures ack == Acknowledged ==>
        fault == Nothing && !failed && Settled(h, wallet, disk.versions, records + [record])
      ensures ack == Acknowledged
              || (ack == Uncertain && RenameReached(fault) && STAGED + suffix !in old(Visible(disk.versions))) ==>
        var file := Regular(Frame(h, wallet, old(count), record), true);
        Visible(disk.versions) == old(Visible(disk.versions))[RecordName(old(count)) := file]
      ensures ack == Uncertain ==> failed && old(disk.versions) <= disk.versions
      ensures ack == Uncertain && STAGED + suffix !in old(Visible(disk.versions)) ==>
        Keeps(h, wallet, Visible(disk.versions), if RenameReached(fault) then records + [record] else records)
      ensures ack == Uncertain && STAGED + suffix !in old(Visible(disk.versions))
              && old(Settled(h, wallet, disk.versions, records))
              ==> if RenameReached(fault)
                  then !Settled(h, wallet, disk.versions, records)
                    && !Settled(h, wallet, disk.versions, records + [record])
                  else Settled(h, wallet, disk.versions, records)
      ensures ack != Refused && old(Between(h, wallet, disk.versions, records, record)) ==>
        TrailSurvives(h, wallet, disk.trail, |old(disk.trail)|, records, record)
      ensures ack == Acknowledged ==>
        && |disk.trail| >= |old(disk.trail)| + 2
        && old(disk.versions) <= disk.trail[|disk.trail| - 2]
        && Visible(disk.trail[|disk.trail| - 2]) == Visible(disk.versions)
        && TrailSurvives(h, wallet, disk.trail, |old(disk.trail)|, records, record)
           == old(Between(h, wallet, disk.versions, records, record))
    {
      hide Keeps, HasRecord, Frame, RecordName, ListedBefore, Settled, Between, TrailAdded, TrailSurvives, AddedFrom;
      if closed || failed || cancelled || expected != count || count == MAX_U64 || !Recordable(record) {
        return Refused;
      }
      var name := STAGED + suffix;
      ghost var was, from := disk.versions, |disk.trail|;
      KeepsIsShort(h, wallet, Visible(was), records);
      NoTrailYet(h, wallet, was, disk.trail, records, record);
      NothingAdded(h, wallet, was, records, record);
      if fault == NoStagedFile || name in Visible(disk.versions) {
        failed := true;
        TrailEnds(h, wallet, was, disk.trail, from, records, record);
        return Uncertain;
      }
      var staged := Stage(name, Frame(h, wallet, count, record), fault, was, from, records, record);
      if !staged {
        TrailEnds(h, wallet, was, disk.trail, from, records, record);
        return Uncertain;
      }
      ack := Publish(name, fault, was, from, records, record);
      StagedIsGone(Visible(was), name, Regular(Frame(h, wallet, old(count), record), true), RecordName(old(count)));
      TrailEnds(h, wallet, was, disk.trail, from, records, record);
      if ack == Uncertain {
        StillNotSettled(h, wallet, was, disk.versions, records, record);
      } else {
        TrailNeeds(h, wallet, was, disk.trail, from, records, record, |disk.trail| - 2);
      }
    }

    /** The complete staged file takes the record's name, and the directory is synced. */
    method Publish(name: string, fault: Fault, ghost was: Versions, ghost from: nat, ghost records: seq<bytes>,
                   record: bytes)
      returns (ack: Ack)
      requires |records| == count < MAX_U64 && Recordable(record) && IsStaged(name) && from <= |disk.trail|
      requires name in Visible(disk.versions)
        && Visible(disk.versions)[name] == Regular(Frame(h, wallet, count, record), true)
      requires Keeps(h, wallet, Visible(disk.versions), records)
      requires Growing(h, wallet, was, disk.versions, disk.trail, from, records, record)
      modifies this`count, this`failed, disk
      ensures ack == if RenameReached(fault) then Uncertain else Acknowledged
      ensures count == old(count) + (if ack == Acknowledged then 1 else 0)
        && failed == (old(failed) || ack == Uncertain)
      ensures old(disk.trail) <= disk.trail && TrailAdded(h, wallet, was, disk.trail, from, records, record)
      ensures var file := Regular(Frame(h, wallet, old(count), record), true);
        Visible(disk.versions) == (old(Visible(disk.versions)) - {name})[RecordName(old(count)) := file]
      ensures Keeps(h, wallet, Visible(disk.versions), records + [record])
      ensures ack == Uncertain ==> was <= disk.versions
      ensures ack == Acknowledged ==>
        && Settled(h, wallet, disk.versions, records + [record]) && |disk.trail| >= |old(disk.trail)| + 2
        && was <= disk.trail[|disk.trail| - 2] && Visible(disk.trail[|disk.trail| - 2]) == Visible(disk.versions)
    {
      hide Keeps, Frame, RecordName, Settled, TrailAdded, AddedFrom;
      MoveStaged(name, was, from, records, record);
      if RenameReached(fault) {
        failed := true;
        return Uncertain;
      }
      ghost var moved := disk.trail;
      disk.Sync();
      SyncedIsSettled(h, wallet, disk.versions, records + [record]);
      TrailGrows(h, wallet, was, moved, from, records, record, disk.versions);
      count := count + 1;
      return Acknowledged;
    }

    /** A complete staged file, synced and closed, or a stopped writer. */
    method Stage(name: string, frame: bytes, fault: Fault, ghost was: Versions, ghost from: nat,
                 ghost records: seq<bytes>, ghost record: bytes) returns (staged: bool)
      requires IsStaged(name)
      requires Growing(h, wallet, was, disk.versions, disk.trail, from, records, record)
      requires Keeps(h, wallet, Visible(disk.versions), records)
      requires disk.versions == was
      modifies this`failed, disk
      ensures staged
        <==> !fault.BadWrite? && fault != BadSync && fault != BadClose && fault != Cancelled
             && fault != BadRename(false)
      ensures staged ==> failed == old(failed) && Visible(disk.versions) == Visible(was)[name := Regular(frame, true)]
      ensures !staged ==> failed
      ensures Growing(h, wallet, was, disk.versions, disk.trail, from, records, record)
      ensures Keeps(h, wallet, Visible(disk.versions), records)
      ensures old(disk.trail) <= disk.trail
        && (Settled(h, wallet, was, records) ==> Settled(h, wallet, disk.versions, records))
    {
      hide Settled, Keeps, Growing;
      PutStaged(name, Regular([], false), was, from, records, record);
      PutStaged(name, Regular(if fault.BadWrite? then fault.written else frame, false), was, from, records, record);
      if fault.BadWrite? || fault == BadSync {
        Abandon(name, was, from, records, record);
        return false;
      }
      PutStaged(name, Regular(frame, true), was, from, records, record);
      if fault == BadClose || fault == Cancelled || fault == BadRename(false) {
        Abandon(name, was, from, records, record);
        return false;
      }
      return true;
    }

    method PutStaged(name: string, file: File, ghost was: Versions, ghost from: nat, ghost records: seq<bytes>,
                     ghost record: bytes)
      requires IsStaged(name) && file.Regular? && Keeps(h, wallet, Visible(disk.versions), records)
      requires Growing(h, wallet, was, disk.versions, disk.trail, from, records, record)
      modifies disk
      ensures Keeps(h, wallet, Visible(disk.versions), records)
      ensures Growing(h, wallet, was, disk.versions, disk.trail, from, records, record)
      ensures Visible(disk.versions) == old(Visible(disk.versions))[name := file]
      ensures old(disk.trail) <= disk.trail
      ensures old(Settled(h, wallet, disk.versions, records)) ==> Settled(h, wallet, disk.versions, records)
    {
      hide Keeps, Growing;
      ghost var v, t := disk.versions, disk.trail;
      StagedFileAppears(h, wallet, Visible(disk.versions), name, file, records);
      disk.Put(name, file);
      Extend(h, wallet, was, v, t, from, records, record, Visible(disk.versions));
    }

    /** The staged file takes the record's name. */
    method MoveStaged(name: string, ghost was: Versions, ghost from: nat, ghost records: seq<bytes>, record: bytes)
      requires |records| == count < MAX_U64 && Recordable(record) && IsStaged(name)
      requires name in Visible(disk.versions)
        && Visible(disk.versions)[name] == Regular(Frame(h, wallet, count, record), true)
      requires Keeps(h, wallet, Visible(disk.versions), records)
      requires Growing(h, wallet, was, disk.versions, disk.trail, from, records, record)
      modifies disk
      ensures Visible(disk.versions)
        == (old(Visible(disk.versions)) - {name})[RecordName(count) := Regular(Frame(h, wallet, count, record), true)]
      ensures Keeps(h, wallet, Visible(disk.versions), records + [record])
      ensures Growing(h, wallet, was, disk.versions, disk.trail, from, records, record)
      ensures old(disk.trail) <= disk.trail && |disk.trail| > |old(disk.trail)|
        && disk.trail[|disk.trail| - 1] == disk.versions
    {
      hide Keeps, Growing, Frame, RecordName;
      ghost var v, t := disk.versions, disk.trail;
      MovedKeeps(h, wallet, Visible(disk.versions), records, name, record);
      disk.Rename(name, RecordName(count));
      Extend(h, wallet, was, v, t, from, records, record, Visible(disk.versions));
    }

    /** A failure before the rename: the staged file is removed and the writer stops. */
    method Abandon(name: string, ghost was: Versions, ghost from: nat, ghost records: seq<bytes>, ghost record: bytes)
      requires IsStaged(name)
      requires Keeps(h, wallet, Visible(disk.versions), records)
      requires Growing(h, wallet, was, disk.versions, disk.trail, from, records, record)
      modifies this`failed, disk
      ensures failed
      ensures Keeps(h, wallet, Visible(disk.versions), records)
      ensures Growing(h, wallet, was, disk.versions, disk.trail, from, records, record)
      ensures old(disk.trail) <= disk.trail
      ensures old(Settled(h, wallet, disk.versions, records)) ==> Settled(h, wallet, disk.versions, records)
    {
      hide Keeps, Growing;
      ghost var v, t := disk.versions, disk.trail;
      StagedFilesDoNotCount(h, wallet, Visible(disk.versions), name, records);
      disk.Remove(name);
      Extend(h, wallet, was, v, t, from, records, record, Visible(disk.versions));
      failed := true;
    }

    /** Deletes what is there from the end of the listing. `stop` is the position at which cancellation or an I/O error
        strikes, counted from the end; at the listing's length it is the final sync that fails. Stopped anywhere without
        a crash, an intact log is left with a prefix of its records; with one, exactly when it was just synced or at
        most one record's removal was not. */
    method Clear(entries: seq<string>, stop: nat, ghost records: seq<bytes>) returns (ok: bool)
      requires IsListing(entries, Visible(disk.versions))
      modifies disk
      ensures ok <==> stop > |entries|
      ensures old(disk.trail) <= disk.trail
      ensures old(Keeps(h, wallet, Visible(disk.versions), records)) ==>
        forall k | |old(disk.trail)| <= k < |disk.trail| :: KeepsSome(h, wallet, Visible(disk.trail[k]), records)
      ensures old(Settled(h, wallet, disk.versions, records)) ==>
        forall k | |old(disk.trail)| <= k < |disk.trail| :: ExactlySurvives(h, wallet, disk.trail[k], records)
      ensures old(Settled(h, wallet, disk.versions, records)) ==> ExactlySurvives(h, wallet, disk.versions, records)
      ensures Visible(disk.versions)
        == Cleared(old(Visible(disk.versions)), entries, if ok then 0 else |entries| - stop)
      ensures if ok then |disk.versions| == 1 else old(disk.versions) <= disk.versions
      ensures ok ==> forall name | name in Visible(disk.versions) :: name == LOCK
    {
      hide Keeps, ListedBefore, Settled, Clearing, ExactlySurvives, Cleared, KeepsSome;
      ghost var d, shown := Visible(disk.versions), Keeps(h, wallet, Visible(disk.versions), records);
      ghost var intact := Settled(h, wallet, disk.versions, records);
      ghost var n: nat := |records|;
      NothingCleared(d, entries);
      SettledShows(h, wallet, disk.versions, records);
      if intact {
        ClearingStarts(h, wallet, disk.versions, records);
        ClearingIsExact(h, wallet, disk.versions, records, n);
      }
      assert records[..n] == records;
      var i := |entries|;
      while i > 0
        invariant 0 <= i <= |entries| && |entries| - i <= stop
        invariant old(disk.trail) <= disk.trail && Visible(disk.versions) == Cleared(d, entries, i)
        invariant old(disk.versions) <= disk.versions
        invariant n <= |records| && (shown ==> Keeps(h, wallet, Cleared(d, entries, i), records[..n]))
        invariant shown ==>
          forall k | |old(disk.trail)| <= k < |disk.trail| :: KeepsSome(h, wallet, Visible(disk.trail[k]), records)
        invariant intact ==>
          Clearing(h, wallet, disk.versions, records, n) && ExactlySurvives(h, wallet, disk.versions, records)
        invariant intact ==>
          forall k | |old(disk.trail)| <= k < |disk.trail| :: ExactlySurvives(h, wallet, disk.trail[k], records)
      {
        if |entries| - i == stop {
          return false;
        }
        i := i - 1;
        ClearedNext(d, entries, i);
        if entries[i] != LOCK {
          ghost var before := disk.versions;
          disk.Remove(entries[i]);
          if shown {
            var m := DeletingTheLast(h, wallet, d, entries, records, i, n);
            FirstAreKept(h, wallet, Visible(disk.versions), records, m);
            if intact {
              ClearingNext(h, wallet, before, records, n, Visible(disk.versions), m);
              ClearingIsExact(h, wallet, disk.versions, records, m);
            }
            n := m;
          }
        }
      }
      if stop == |entries| {
        return false;
      }
      OnlyLock(d, entries);
      disk.Sync();
      if shown {
        FirstAreKept(h, wallet, Visible(disk.versions), records, n);
      }
      if intact {
        SyncedIsExact(h, wallet, disk.versions, records, n);
      }
      ok := true;
    }
  }

  /** The versions found, then directories an append may leave, at every point so far. */
  ghost predicate Growing(h: Sum, wallet: bytes, was: Versions, v: Versions, trail: seq<Versions>, from: nat,
                          records: seq<bytes>, record: bytes) {
    was <= v && AddedFrom(h, wallet, |was|, v, records, record)
      && TrailAdded(h, wallet, was, trail, from, records, record)
  }

  lemma StagedIsGone(d: Dir, name: string, file: File, to: string)
    requires name !in d
    ensures (d[name := file] - {name})[to := file] == d[to := file]
  {
    assert d[name := file] - {name} == d;
  }

  /** One more point belongs to the append. */
  lemma Extend(h: Sum, wallet: bytes, was: Versions, v: Versions, trail: seq<Versions>, from: nat, records: seq<bytes>,
               record: bytes, d: Dir)
    requires Growing(h, wallet, was, v, trail, from, records, record)
    requires Keeps(h, wallet, d, records) || Keeps(h, wallet, d, records + [record])
    ensures Growing(h, wallet, was, v + [d], trail + [v + [d]], from, records, record)
  {
    hide Keeps, AddedFrom, TrailAdded;
    AddsNext(h, wallet, was, v, records, record, d);
    TrailGrows(h, wallet, was, trail, from, records, record, v + [d]);
  }

  /** The failures that leave the new record's name in place. */
  predicate RenameReached(fault: Fault) { fault == BadRename(true) || fault == BadDirectorySync }

  lemma RemovalKeepsVisible(h: Sum, wallet: bytes, d: Dir, name: string)
    requires IsStaged(name)
    ensures forall rs {:trigger Keeps(h, wallet, d - {name}, rs)} ::
      Keeps(h, wallet, d, rs) ==> Keeps(h, wallet, d - {name}, rs)
  {
    hide Keeps;
    forall rs | Keeps(h, wallet, d, rs)
      ensures Keeps(h, wallet, d - {name}, rs)
    {
      StagedFilesDoNotCount(h, wallet, d, name, rs);
    }
  }

  lemma NothingAdded(h: Sum, wallet: bytes, was: Versions, records: seq<bytes>, record: bytes)
    ensures AddedFrom(h, wallet, |was|, was, records, record)
  {
  }

  lemma TrailEnds(h: Sum, wallet: bytes, was: Versions, trail: seq<Versions>, from: nat, records: seq<bytes>,
                  record: bytes)
    requires TrailAdded(h, wallet, was, trail, from, records, record) && |records| <= MAX_U64
    ensures Between(h, wallet, was, records, record) ==> TrailSurvives(h, wallet, trail, from, records, record)
  {
    hide TrailAdded, TrailSurvives, Between;
    if Between(h, wallet, was, records, record) {
      TrailSurvivesIf(h, wallet, was, trail, from, records, record);
    }
  }

  lemma TrailNeeds(
    h: Sum, wallet: bytes, was: Versions, trail: seq<Versions>, from: nat, records: seq<bytes>, record: bytes, k: nat)
    requires from <= k < |trail| && was <= trail[k] && |records| <= MAX_U64
    ensures TrailSurvives(h, wallet, trail, from, records, record) ==> Between(h, wallet, was, records, record)
  {
    hide TrailSurvives, Between;
    if TrailSurvives(h, wallet, trail, from, records, record) {
      TrailSurvivesOnlyIf(h, wallet, was, trail, from, records, record, k);
    }
  }

  lemma StillNotSettled(h: Sum, wallet: bytes, was: Versions, v: Versions, records: seq<bytes>, record: bytes)
    requires was <= v && Keeps(h, wallet, Visible(v), records + [record])
    ensures Settled(h, wallet, was, records) ==>
      !Settled(h, wallet, v, records) && !Settled(h, wallet, v, records + [record])
  {
    hide Keeps;
    if Settled(h, wallet, was, records) {
      assert v[0] == was[0];
      NotSettled(h, wallet, v, records, record);
    }
  }

  lemma SyncedIsSettled(h: Sum, wallet: bytes, v: Versions, records: seq<bytes>)
    requires |v| == 1 && Keeps(h, wallet, Visible(v), records)
    ensures Settled(h, wallet, v, records)
  {
    hide Keeps;
  }

  lemma SettledShows(h: Sum, wallet: bytes, v: Versions, records: seq<bytes>)
    ensures Settled(h, wallet, v, records) ==> Keeps(h, wallet, Visible(v), records)
  {
    hide Keeps;
  }

  lemma FirstAreKept(h: Sum, wallet: bytes, d: Dir, records: seq<bytes>, n: nat)
    requires n <= |records| && Keeps(h, wallet, d, records[..n])
    ensures KeepsSome(h, wallet, d, records)
  {
    hide Keeps;
  }

  lemma SettledKeeps(h: Sum, wallet: bytes, v: Versions, records: seq<bytes>)
    requires Settled(h, wallet, v, records)
    ensures Keeps(h, wallet, Visible(v), records) && records[..|records|] == records
  {
    hide Keeps;
  }

  lemma OnlyLock(d: Dir, entries: seq<string>)
    requires IsListing(entries, d)
    ensures forall name | name in Cleared(d, entries, 0) :: name == LOCK
  {
    hide ListedBefore;
    assert entries[0..] == entries;
  }

  // ---------- A run that loses a replayed record ----------

  /** Any list of versions that starts empty and shows two records may come back with the second alone. */
  lemma GapIn(h: Sum, wallet: bytes, v: Versions, first: bytes, next: bytes) returns (found: Dir)
    requires v[0] == map[] && Keeps(h, wallet, Visible(v), [first, next])
    ensures MayReturn(v, found) && forall any :: !Keeps(h, wallet, found, any)
  {
    hide RecordName, Frame;
    var name := RecordName(1);
    assert HasRecord(h, wallet, Visible(v), 1, [first, next][1]);
    found := map[name := Visible(v)[name]];
    forall other: string
      ensures SomeVersionHas(v, found, other)
    {
      assert EntryMayReturn(v[if other == name then |v| - 1 else 0], found, other);
    }
    NamesAreOrdered(0, 1);
    forall any
      ensures !Keeps(h, wallet, found, any)
    {
      if Keeps(h, wallet, found, any) {
        KeepsNames(h, wallet, found, any, 0);
        KeepsNames(h, wallet, found, any, 1);
      }
    }
  }

  lemma EmptyIsKept(h: Sum, wallet: bytes)
    ensures Keeps(h, wallet, map[], [])
  {
  }

  lemma SuffixIsFree(d: Dir, suffix: string)
    requires d.Keys <= {RecordName(0)}
    ensures STAGED + suffix !in d
  {
    hide RecordName;
    RecordNamesAreOwn(0);
  }

  /** Reading a log does not make it durable. Append `first` to a new log with a directory sync that fails; open the log
      again, which reads `first`; append `next`, which is acknowledged. At a crash point of that append the directory
      may come back with `next` and without `first`, and then no log can be read from it. */
  method ReopeningUnsyncedLeavesAGap(h: Sum, wallet: bytes, first: bytes, next: bytes)
    returns (disk: Directory, read: Option<seq<bytes>>, ack: Ack, ghost k: nat, ghost found: Dir)
    requires Wide32(h) && |wallet| == 32 && Recordable(first) && Recordable(next)
    ensures read == Some([first]) && ack == Acknowledged
    ensures k < |disk.trail| && MayReturn(disk.trail[k], found) && forall any :: !Keeps(h, wallet, found, any)
  {
    hide Keeps, RecordName, Frame, Settled, Between, TrailSurvives, ListedBefore, MayReturn;
    disk := new Directory(map[]);
    EmptyIsKept(h, wallet);
    var log := new FileLog(h, wallet, disk);
    var uncertain := log.Append(false, 0, first, "a", BadDirectorySync, []);
    assert [] + [first] == [first];
    var name := RecordName(0);
    assert Visible(disk.versions).Keys == {name} && disk.versions[0] == map[];
    KeepsAsRead(h, wallet, Visible(disk.versions), [first]);
    var again := new FileLog(h, wallet, disk);
    read := again.Load([name], 1);
    assert read == Some([first]);
    SuffixIsFree(Visible(disk.versions), "b");
    ack := again.Append(false, 1, next, "b", Nothing, [first]);
    k := |disk.trail| - 2;
    LastIsKept(h, wallet, disk.versions, [first], next);
    assert [first] + [next] == [first, next];
    found := GapIn(h, wallet, disk.trail[k], first, next);
  }

  lemma LastIsKept(h: Sum, wallet: bytes, v: Versions, records: seq<bytes>, record: bytes)
    requires Settled(h, wallet, v, records + [record])
    ensures Keeps(h, wallet, Visible(v), records + [record])
  {
    hide Keeps;
  }

  /** A log of two acknowledged records. */
  method AppendTwo(h: Sum, wallet: bytes, first: bytes, next: bytes) returns (log: FileLog)
    requires Wide32(h) && |wallet| == 32 && Recordable(first) && Recordable(next)
    ensures fresh(log) && fresh(log.disk) && log.h == h && log.wallet == wallet
    ensures Settled(h, wallet, log.disk.versions, [first, next])
    ensures Visible(log.disk.versions).Keys == {RecordName(0), RecordName(1)}
  {
    hide Keeps, RecordName, Frame, Settled, Between, TrailSurvives, MayReturn;
    var disk := new Directory(map[]);
    EmptyIsKept(h, wallet);
    log := new FileLog(h, wallet, disk);
    var one := log.Append(false, 0, first, "a", Nothing, []);
    assert [] + [first] == [first];
    LastIsKept(h, wallet, disk.versions, [], first);
    SuffixIsFree(Visible(disk.versions), "b");
    var two := log.Append(false, 1, next, "b", Nothing, [first]);
    assert [first] + [next] == [first, next];
  }

  /** Clearing a log of two records and stopping before the final sync: a crash may bring the second back without
      the first. */
  method InterruptedClearLeavesAGap(h: Sum, wallet: bytes, first: bytes, next: bytes)
    returns (disk: Directory, cleared: bool)
    requires Wide32(h) && |wallet| == 32 && Recordable(first) && Recordable(next)
    ensures !cleared && !ClearSurvives(h, wallet, disk.versions, [first, next])
  {
    hide Keeps, RecordName, Frame, Settled, MayReturn, ClearSurvives, KeepsSome, ExactlySurvives;
    var log := AppendTwo(h, wallet, first, next);
    disk := log.disk;
    var entries := [RecordName(0), RecordName(1)];
    NamesAreOrdered(0, 1);
    RecordNamesAreOwn(0);
    RecordNamesAreOwn(1);
    ghost var before := disk.versions;
    SettledKeeps(h, wallet, before, [first, next]);
    cleared := log.Clear(entries, 2, [first, next]);
    assert entries[0..] == entries;
    assert Visible(disk.versions) == map[];
    NothingIsLeft(h, wallet, before, disk.versions, [first, next]);
  }

  lemma NothingIsLeft(h: Sum, wallet: bytes, before: Versions, v: Versions, records: seq<bytes>)
    requires before <= v && Keeps(h, wallet, before[|before| - 1], records) && |records| > 1
    requires Visible(v) == map[] && ExactlySurvives(h, wallet, v, records)
    ensures !ClearSurvives(h, wallet, v, records)
  {
    hide RecordName, Frame, ClearSurvives;
    assert HasRecord(h, wallet, before[|before| - 1], 0, records[0]);
    var n: nat :| n <= |records| && Keeps(h, wallet, Visible(v), records[..n])
      && (ClearSurvives(h, wallet, v, records) <==> |v| == 1 || n + 1 >= |records|);
    if n > 0 {
      assert HasRecord(h, wallet, Visible(v), 0, records[..n][0]);
    }
  }
}
