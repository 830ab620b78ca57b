/** The native record log: framed records in a directory, appended through a staged file and an atomic rename. */
module Storage {
  import opened Bytes
  import opened Options

  // ---------- Record frames ----------

  /** The checksum; 32 bytes wide. */
  type Sum = bytes -> bytes

  ghost predicate Wide32(h: Sum) { forall b {:trigger h(b)} :: |h(b)| == 32 }

  const MAX_RECORD: nat := 0x40_0000
  const OVERHEAD: nat := 95

  /** "arkade-poker/log", a zero byte and the version. */
  const PREFIX: bytes :=
    [0x61, 0x72, 0x6b, 0x61, 0x64, 0x65, 0x2d, 0x70, 0x6f, 0x6b, 0x65, 0x72, 0x2f, 0x6c, 0x6f, 0x67, 0, 1, 0]

  function Body(wallet: bytes, index: nat, record: bytes): (b: bytes) {
    PREFIX + wallet + ToLittleEndian(index, 8) + ToLittleEndian(|record|, 4) + record
  }

  function Frame(h: Sum, wallet: bytes, index: nat, record: bytes): (b: bytes) {
    var body := Body(wallet, index, record);
    body + h(body)
  }

  predicate Recordable(record: bytes) { 0 < |record| <= MAX_RECORD }

  /** The record a file holds, refusing any other length, wallet, index or checksum. */
  function Unframe(h: Sum, wallet: bytes, index: nat, b: bytes): (r: Option<bytes>)
    requires |wallet| == 32
  {
    if |b| <= OVERHEAD || |b| > MAX_RECORD + OVERHEAD || b[..19] != PREFIX then None
    else if b[19..51] != wallet || LittleEndian(b[51..59]) != index || LittleEndian(b[59..63]) != |b| - OVERHEAD
      then None
    else if h(b[..|b| - 32]) != b[|b| - 32..] then None
    else Some(b[63..|b| - 32])
  }

  lemma U32Width()
    ensures Pow256(4) == 0x1_0000_0000
  {
    assert Pow256(2) == 65536;
    assert Pow256(3) == 256 * 65536;
  }

  /** Framing and unframing are inverse: a file is read as a record exactly when it is that record's frame. */
  lemma FrameCodec(h: Sum, wallet: bytes, index: nat, b: bytes, record: bytes)
    requires Wide32(h) && |wallet| == 32 && index <= MAX_U64
    ensures Unframe(h, wallet, index, b) == Some(record) <==> Recordable(record) && b == Frame(h, wallet, index, record)
  {
    if Recordable(record) && b == Frame(h, wallet, index, record) {
      FrameIsRead(h, wallet, index, record);
    }
    if Unframe(h, wallet, index, b) == Some(record) {
      ReadIsFrame(h, wallet, index, b);
    }
  }

  lemma FrameIsRead(h: Sum, wallet: bytes, index: nat, record: bytes)
    requires Wide32(h) && |wallet| == 32 && index <= MAX_U64 && Recordable(record)
    ensures Unframe(h, wallet, index, Frame(h, wallet, index, record)) == Some(record)
  {
    U64Width();
    U32Width();
    WriteThenRead(index, 8);
    WriteThenRead(|record|, 4);
    var body, b := Body(wallet, index, record), Frame(h, wallet, index, record);
    assert |body| == 63 + |record|;
    assert b[..|b| - 32] == body;
    assert b[19..51] == wallet;
    assert b[51..59] == ToLittleEndian(index, 8);
    assert b[59..63] == ToLittleEndian(|record|, 4);
    assert b[63..|b| - 32] == record;
  }

  lemma ReadIsFrame(h: Sum, wallet: bytes, index: nat, b: bytes)
    requires Wide32(h) && |wallet| == 32 && Unframe(h, wallet, index, b).Some?
    ensures var record := Unframe(h, wallet, index, b).value;
      Recordable(record) && b == Frame(h, wallet, index, record)
  {
    var record := Unframe(h, wallet, index, b).value;
    ReadThenWrite(b[51..59]);
    ReadThenWrite(b[59..63]);
    assert b[..51] == b[..19] + b[19..51];
    assert b[..59] == b[..51] + b[51..59];
    assert b[..63] == b[..59] + b[59..63];
    assert b[..|b| - 32] == b[..63] + b[63..|b| - 32];
    assert b == b[..|b| - 32] + b[|b| - 32..];
  }

  // ---------- File names ----------

  /** Byte-wise order of names, the order a directory is listed in. */
  predicate ListedBefore(a: string, b: string) {
    b != [] && (a == [] || a[0] < b[0] || (a[0] == b[0] && ListedBefore(a[1..], b[1..])))
  }

  const LOCK: string := "writer.lock"
  const STAGED: string := ".append-"
  const SUFFIX: string := ".record"
  const DIGITS: nat := 20

  predicate IsStaged(name: string) { STAGED <= name }

  function Digit(d: nat): (c: char)
    requires d < 10
  {
    '0' + d as char
  }

  /** Decimal digits, zero-padded. */
  function Decimal(n: nat, width: nat): (s: string)
    ensures |s| == width
    ensures forall i | 0 <= i < width :: '0' <= s[i] <= '9'
  {
    if width == 0 then [] else Decimal(n / 10, width - 1) + [Digit(n % 10)]
  }

  function Pow10(width: nat): (p: nat) { if width == 0 then 1 else 10 * Pow10(width - 1) }

  function RecordName(index: nat): (name: string) { Decimal(index, DIGITS) + SUFFIX }

  lemma {:induction false} BeforeExtends(a: string, b: string, x: string, y: string)
    requires |a| == |b| && (ListedBefore(a, b) || (a == b && ListedBefore(x, y)))
    ensures ListedBefore(a + x, b + y)
  {
    if a == [] {
      assert a + x == x && b + y == y;
    } else {
      assert (a + x)[1..] == a[1..] + x && (b + y)[1..] == b[1..] + y;
      if a[0] == b[0] {
        assert a == [a[0]] + a[1..] && b == [b[0]] + b[1..];
        BeforeExtends(a[1..], b[1..], x, y);
      }
    }
  }

  lemma {:induction false} BeforeIsStrict(a: string, b: string)
    ensures !(ListedBefore(a, b) && ListedBefore(b, a)) && !ListedBefore(a, a)
  {
    if a != [] && b != [] {
      BeforeIsStrict(a[1..], b[1..]);
    }
    if a != [] {
      BeforeIsStrict(a[1..], a[1..]);
    }
  }

  lemma {:induction false} DecimalOrder(i: nat, j: nat, width: nat)
    requires i < j < Pow10(width)
    ensures ListedBefore(Decimal(i, width), Decimal(j, width))
  {
    if width != 0 {
      if i / 10 < j / 10 {
        DecimalOrder(i / 10, j / 10, width - 1);
      }
      BeforeExtends(Decimal(i / 10, width - 1), Decimal(j / 10, width - 1), [Digit(i % 10)], [Digit(j % 10)]);
    }
  }

  lemma Pow10At20()
    ensures Pow10(DIGITS) > MAX_U64
  {
    assert Pow10(5) == 100_000 by { assert Pow10(3) == 1000; }
    assert Pow10(10) == 10_000_000_000 by { assert Pow10(8) == 100_000_000 by { assert Pow10(6) == 1_000_000; } }
    assert Pow10(15) == 1_000_000_000_000_000 by {
      assert Pow10(13) == 10_000_000_000_000 by { assert Pow10(11) == 100_000_000_000; }
    }
    assert Pow10(20) == 100_000_000_000_000_000_000 by {
      assert Pow10(18) == 1_000_000_000_000_000_000 by { assert Pow10(16) == 10_000_000_000_000_000; }
    }
  }

  /** Listing order is index order, for every index a log can reach. */
  lemma NamesAreOrdered(i: nat, j: nat)
    requires i < j <= MAX_U64
    ensures ListedBefore(RecordName(i), RecordName(j)) && RecordName(i) != RecordName(j)
  {
    Pow10At20();
    DecimalOrder(i, j, DIGITS);
    BeforeExtends(Decimal(i, DIGITS), Decimal(j, DIGITS), SUFFIX, SUFFIX);
    BeforeIsStrict(RecordName(i), RecordName(j));
  }

  lemma RecordNamesAreOwn(i: nat)
    ensures RecordName(i) != LOCK && !IsStaged(RecordName(i))
  {
    assert RecordName(i)[0] == Decimal(i, DIGITS)[0];
    assert STAGED[0] == '.' && LOCK[0] == 'w';
  }

  // ---------- Directories and what survives a crash ----------

  /** A file's bytes, and whether they are known to have reached the disk. */
  datatype File = Regular(data: bytes, synced: bool) | Irregular

  type Dir = map<string, File>

  predicate Skipped(name: string, file: File) { name == LOCK || (IsStaged(name) && file.Regular?) }

  predicate HasRecord(h: Sum, wallet: bytes, d: Dir, i: nat, record: bytes) {
    Recordable(record) && RecordName(i) in d && d[RecordName(i)] == Regular(Frame(h, wallet, i, record), true)
  }

  ghost predicate Numbered(name: string, n: nat) { exists i: nat :: i < n && name == RecordName(i) }

  /** The directory of an intact log: one synced frame for each record, and otherwise only the lock and staged files. */
  ghost predicate Keeps(h: Sum, wallet: bytes, d: Dir, records: seq<bytes>) {
    && |records| <= MAX_U64
    && (forall i: nat | i < |records| :: HasRecord(h, wallet, d, i, records[i]))
    && (forall name | name in d :: Skipped(name, d[name]) || Numbered(name, |records|))
  }

  /** Unsynced bytes may come back as anything. */
  predicate FileMayReturn(written: File, found: File) {
    match written
    case Irregular => found.Irregular?
    case Regular(data, synced) => found.Regular? && found.synced && (synced ==> found.data == data)
  }

  predicate EntryMayReturn(d: Dir, found: Dir, name: string) {
    (name in d <==> name in found) && (name in d ==> FileMayReturn(d[name], found[name]))
  }

  /** The directory as it was last synced, followed by every change since. After a crash each entry comes back as
      some one of these versions had it, whatever happened to the other entries. */
  type Versions = v: seq<Dir> | v != [] witness [map[]]

  ghost predicate SomeVersionHas(v: Versions, found: Dir, name: string) {
    exists k: nat :: k < |v| && EntryMayReturn(v[k], found, name)
  }

  ghost predicate MayReturn(v: Versions, found: Dir) { forall name: string :: SomeVersionHas(v, found, name) }

  function Visible(v: Versions): (d: Dir) { v[|v| - 1] }

  ghost predicate Settled(h: Sum, wallet: bytes, v: Versions, records: seq<bytes>) {
    forall k: nat | k < |v| :: Keeps(h, wallet, v[k], records)
  }

  /** Each version holds the old records or those and the new one. */
  ghost predicate Between(h: Sum, wallet: bytes, v: Versions, records: seq<bytes>, record: bytes) {
    forall k: nat | k < |v| :: Keeps(h, wallet, v[k], records) || Keeps(h, wallet, v[k], records + [record])
  }

  lemma KeepsNames(h: Sum, wallet: bytes, d: Dir, records: seq<bytes>, i: nat)
    requires Keeps(h, wallet, d, records) && i <= MAX_U64
    ensures RecordName(i) in d <==> i < |records|
  {
    RecordNamesAreOwn(i);
    if i < |records| {
      assert HasRecord(h, wallet, d, i, records[i]);
    } else if RecordName(i) in d {
      var j: nat :| j < |records| && RecordName(i) == RecordName(j);
      NamesAreOrdered(j, i);
    }
  }

  /** An intact directory determines its records. */
  lemma KeepsOne(h: Sum, wallet: bytes, d: Dir, a: seq<bytes>, b: seq<bytes>)
    requires Wide32(h) && |wallet| == 32 && Keeps(h, wallet, d, a) && Keeps(h, wallet, d, b)
    ensures a == b
  {
    if |a| < |b| {
      KeepsNames(h, wallet, d, a, |a|);
      KeepsNames(h, wallet, d, b, |a|);
    }
    if |b| < |a| {
      KeepsNames(h, wallet, d, b, |b|);
      KeepsNames(h, wallet, d, a, |b|);
    }
    forall i: nat | i < |a|
      ensures a[i] == b[i]
    {
      assert HasRecord(h, wallet, d, i, a[i]) && HasRecord(h, wallet, d, i, b[i]);
      FrameCodec(h, wallet, i, d[RecordName(i)].data, a[i]);
      FrameCodec(h, wallet, i, d[RecordName(i)].data, b[i]);
    }
  }

  lemma RecordSurvives(h: Sum, wallet: bytes, v: Versions, records: seq<bytes>, record: bytes, found: Dir, i: nat)
    requires Between(h, wallet, v, records, record) && MayReturn(v, found) && i <= |records| <= MAX_U64
    ensures i < |records| ==> HasRecord(h, wallet, found, i, records[i])
    ensures i == |records| && RecordName(i) in found ==> HasRecord(h, wallet, found, i, record) && |records| < MAX_U64
  {
    assert SomeVersionHas(v, found, RecordName(i));
    var k: nat :| k < |v| && EntryMayReturn(v[k], found, RecordName(i));
    var longer := records + [record];
    if Keeps(h, wallet, v[k], records) {
      KeepsNames(h, wallet, v[k], records, i);
      if i < |records| {
        assert HasRecord(h, wallet, v[k], i, records[i]);
      }
    } else {
      assert longer[i] == if i < |records| then records[i] else record;
      assert HasRecord(h, wallet, v[k], i, longer[i]);
    }
  }

  lemma OtherNamesSurvive(h: Sum, wallet: bytes, v: Versions, records: seq<bytes>, record: bytes, found: Dir,
                          name: string)
    requires Between(h, wallet, v, records, record) && MayReturn(v, found) && name in found
    ensures Skipped(name, found[name]) || Numbered(name, |records|) || name == RecordName(|records|)
  {
    hide RecordName, HasRecord;
    assert SomeVersionHas(v, found, name);
    var k: nat :| k < |v| && EntryMayReturn(v[k], found, name);
    if !Skipped(name, v[k][name]) {
      var n := if Keeps(h, wallet, v[k], records) then |records| else |records + [record]|;
      assert Numbered(name, n);
      var i: nat :| i < n && name == RecordName(i);
    }
  }

  /** After a crash in the middle of an append, the log is intact with or without the new record. */
  lemma CrashKeepsTheLog(h: Sum, wallet: bytes, v: Versions, records: seq<bytes>, record: bytes, found: Dir)
    requires Between(h, wallet, v, records, record) && MayReturn(v, found) && |records| <= MAX_U64
    ensures Keeps(h, wallet, found, records) || Keeps(h, wallet, found, records + [record])
  {
    hide RecordName, HasRecord, MayReturn, Between;
    var present := RecordName(|records|) in found;
    RecordSurvives(h, wallet, v, records, record, found, |records|);
    var w := if present then records + [record] else records;
    forall i: nat | i < |w|
      ensures HasRecord(h, wallet, found, i, w[i])
    {
      RecordSurvives(h, wallet, v, records, record, found, i);
    }
    forall name | name in found
      ensures Skipped(name, found[name]) || Numbered(name, |w|)
    {
      OtherNamesSurvive(h, wallet, v, records, record, found, name);
      if name == RecordName(|records|) {
        assert Numbered(name, |records| + 1);
      } else if Numbered(name, |records|) {
        var i: nat :| i < |records| && name == RecordName(i);
        assert Numbered(name, |w|);
      }
    }
  }

  // ---------- Reading the log back ----------

  /** The names of a directory in listing order. */
  ghost predicate IsListing(entries: seq<string>, d: Dir) {
    && |entries| <= MAX_U64
    && (forall i, j | 0 <= i < j < |entries| :: ListedBefore(entries[i], entries[j]))
    && (forall i | 0 <= i < |entries| :: entries[i] in d)
    && (forall name | name in d :: name in entries)
  }

  /** What reading sees: bytes written are read back whether or not they are synced. */
  function AsRead(d: Dir): (r: Dir) {
    map name | name in d :: match d[name] case Irregular => Irregular case Regular(data, _) => Regular(data, true)
  }

  lemma KeepsAsRead(h: Sum, wallet: bytes, d: Dir, records: seq<bytes>)
    requires Keeps(h, wallet, d, records)
    ensures Keeps(h, wallet, AsRead(d), records)
  {
    forall i: nat | i < |records|
      ensures HasRecord(h, wallet, AsRead(d), i, records[i])
    {
      assert HasRecord(h, wallet, d, i, records[i]);
    }
  }


  lemma StagedFilesDoNotCount(h: Sum, wallet: bytes, d: Dir, name: string, records: seq<bytes>)
    requires Keeps(h, wallet, d, records) && IsStaged(name)
    ensures Keeps(h, wallet, d - {name}, records)
  {
    forall i: nat | i < |records|
      ensures HasRecord(h, wallet, d - {name}, i, records[i])
    {
      RecordNamesAreOwn(i);
      assert HasRecord(h, wallet, d, i, records[i]);
    }
  }

  lemma StagedFileAppears(h: Sum, wallet: bytes, d: Dir, name: string, file: File, records: seq<bytes>)
    requires Keeps(h, wallet, d, records) && IsStaged(name) && file.Regular?
    ensures Keeps(h, wallet, d[name := file], records)
  {
    forall i: nat | i < |records|
      ensures HasRecord(h, wallet, d[name := file], i, records[i])
    {
      RecordNamesAreOwn(i);
      assert HasRecord(h, wallet, d, i, records[i]);
    }
  }

  lemma RecordAppears(h: Sum, wallet: bytes, d: Dir, record: bytes, records: seq<bytes>)
    requires Keeps(h, wallet, d, records) && |records| < MAX_U64 && Recordable(record)
    ensures Keeps(h, wallet, d[RecordName(|records|) := Regular(Frame(h, wallet, |records|, record), true)],
                  records + [record])
  {
    var n, longer := |records|, records + [record];
    var e := d[RecordName(n) := Regular(Frame(h, wallet, n, record), true)];
    forall i: nat | i < n + 1
      ensures HasRecord(h, wallet, e, i, longer[i])
    {
      if i < n {
        NamesAreOrdered(i, n);
        assert HasRecord(h, wallet, d, i, records[i]);
      }
    }
    forall name | name in e
      ensures Skipped(name, e[name]) || Numbered(name, n + 1)
    {
      RecordNamesAreOwn(n);
      if name != RecordName(n) && !Skipped(name, d[name]) {
        var i: nat :| i < n && name == RecordName(i);
      }
    }
  }

  /** The first `i` names hold exactly these records. */
  ghost predicate ReadSoFar(h: Sum, wallet: bytes, d: Dir, entries: seq<string>, i: nat, records: seq<bytes>) {
    && |records| <= i <= |entries|
    && (forall j | 0 <= j < i :: entries[j] in d)
    && (forall k: nat | k < |records| :: HasRecord(h, wallet, d, k, records[k]) && RecordName(k) in entries[..i])
    && (forall j | 0 <= j < i :: Skipped(entries[j], d[entries[j]]) || Numbered(entries[j], |records|))
  }

  lemma SkipExtends(h: Sum, wallet: bytes, d: Dir, entries: seq<string>, i: nat, records: seq<bytes>)
    requires ReadSoFar(h, wallet, d, entries, i, records) && i < |entries|
    requires entries[i] in d && Skipped(entries[i], d[entries[i]])
    ensures ReadSoFar(h, wallet, d, entries, i + 1, records)
  {
    assert entries[..i + 1] == entries[..i] + [entries[i]];
  }

  lemma RecordExtends(h: Sum, wallet: bytes, d: Dir, entries: seq<string>, i: nat, records: seq<bytes>, record: bytes)
    requires ReadSoFar(h, wallet, d, entries, i, records) && i < |entries|
    requires entries[i] == RecordName(|records|) && HasRecord(h, wallet, d, |records|, record)
    ensures ReadSoFar(h, wallet, d, entries, i + 1, records + [record])
  {
    var n := |records|;
    assert entries[..i + 1] == entries[..i] + [entries[i]];
    forall j | 0 <= j < i + 1
      ensures entries[j] in d && (Skipped(entries[j], d[entries[j]]) || Numbered(entries[j], n + 1))
    {
      if j == i {
        assert entries[j] == RecordName(n);
      } else if !Skipped(entries[j], d[entries[j]]) {
        var k: nat :| k < n && entries[j] == RecordName(k);
      }
    }
  }

  /** In an intact directory the next name that counts is the next record's: sorted names cannot skip one. */
  lemma NextNameIsNextRecord(
    h: Sum, wallet: bytes, d: Dir, rs: seq<bytes>, entries: seq<string>, i: nat, records: seq<bytes>)
    requires Keeps(h, wallet, d, rs) && IsListing(entries, d) && i < |entries|
    requires ReadSoFar(h, wallet, d, entries, i, records) && !Skipped(entries[i], d[entries[i]])
    ensures |records| < |rs| && entries[i] == RecordName(|records|) && HasRecord(h, wallet, d, |records|, rs[|records|])
  {
    hide RecordName, HasRecord, ListedBefore;
    var index := |records|;
    assert Numbered(entries[i], |rs|);
    var m: nat :| m < |rs| && entries[i] == RecordName(m);
    if m < index {
      AlreadyRead(h, wallet, d, entries, i, records, m);
    } else if index < m {
      KeepsNames(h, wallet, d, rs, index);
      NotYetRead(h, wallet, d, entries, i, records, m);
    }
  }

  lemma AlreadyRead(h: Sum, wallet: bytes, d: Dir, entries: seq<string>, i: nat, records: seq<bytes>, m: nat)
    requires ReadSoFar(h, wallet, d, entries, i, records) && IsListing(entries, d) && i < |entries| && m < |records|
    ensures entries[i] != RecordName(m)
  {
    hide RecordName, HasRecord, ListedBefore;
    assert RecordName(m) in entries[..i];
    var j :| 0 <= j < i && entries[..i][j] == RecordName(m);
    BeforeIsStrict(entries[j], entries[i]);
  }

  lemma NotYetRead(h: Sum, wallet: bytes, d: Dir, entries: seq<string>, i: nat, records: seq<bytes>, m: nat)
    requires ReadSoFar(h, wallet, d, entries, i, records) && IsListing(entries, d) && i < |entries|
    requires |records| < m <= MAX_U64 && RecordName(|records|) in d
    ensures entries[i] != RecordName(m)
  {
    hide RecordName, HasRecord, ListedBefore;
    var index := |records|;
    NamesAreOrdered(index, m);
    RecordNamesAreOwn(index);
    var j :| 0 <= j < |entries| && entries[j] == RecordName(index);
    BeforeIsStrict(entries[j], RecordName(m));
    if j < i {
      assert Numbered(entries[j], index);
      var k: nat :| k < index && entries[j] == RecordName(k);
      NamesAreOrdered(k, index);
    }
  }

  /** Every name counted: the directory holds exactly the records read. */
  lemma AllNamesRead(h: Sum, wallet: bytes, d: Dir, entries: seq<string>, records: seq<bytes>)
    requires IsListing(entries, d) && ReadSoFar(h, wallet, d, entries, |entries|, records)
    ensures Keeps(h, wallet, d, records)
    ensures forall rs | Keeps(h, wallet, d, rs) && records <= rs :: rs == records
  {
    forall name | name in d
      ensures Skipped(name, d[name]) || Numbered(name, |records|)
    {
      var j :| 0 <= j < |entries| && entries[j] == name;
    }
    forall rs | Keeps(h, wallet, d, rs) && records <= rs
      ensures rs == records
    {
      if |records| < |rs| {
        KeepsNames(h, wallet, d, rs, |records|);
        KeepsNames(h, wallet, d, records, |records|);
      }
    }
  }

  // ---------- Exactly when a crash is survived ----------

  /** Whatever these versions come back as, it is the old log or the old log and the record. */
  ghost predicate Survives(h: Sum, wallet: bytes, v: Versions, records: seq<bytes>, record: bytes) {
    forall found | MayReturn(v, found) ::
      Keeps(h, wallet, found, records) || Keeps(h, wallet, found, records + [record])
  }

  /** A version coming back whole, with nothing recovered of its unsynced bytes. */
  function Alone(d: Dir): (r: Dir) {
    map name | name in d ::
      match d[name] case Irregular => Irregular case Regular(data, synced) => Regular(if synced then data else [], true)
  }

  lemma AloneReturns(v: Versions, k: nat)
    requires k < |v|
    ensures MayReturn(v, Alone(v[k]))
  {
    forall name: string
      ensures SomeVersionHas(v, Alone(v[k]), name)
    {
      assert EntryMayReturn(v[k], Alone(v[k]), name);
    }
  }

  lemma AloneKeeps(h: Sum, wallet: bytes, d: Dir, records: seq<bytes>)
    ensures Keeps(h, wallet, Alone(d), records) <==> Keeps(h, wallet, d, records)
  {
    hide RecordName;
    forall i: nat | i < |records|
      ensures HasRecord(h, wallet, Alone(d), i, records[i]) <==> HasRecord(h, wallet, d, i, records[i])
    {
      assert |Frame(h, wallet, i, records[i])| > 0;
    }
    assert forall name | name in d :: Skipped(name, d[name]) <==> Skipped(name, Alone(d)[name]);
  }

  /** A crash is survived exactly when each version, come back alone, would be. */
  lemma SurvivesExactly(h: Sum, wallet: bytes, v: Versions, records: seq<bytes>, record: bytes)
    requires |records| <= MAX_U64
    ensures Survives(h, wallet, v, records, record) <==> Between(h, wallet, v, records, record)
  {
    hide Keeps, MayReturn, Alone;
    if Survives(h, wallet, v, records, record) {
      forall k: nat | k < |v|
        ensures Keeps(h, wallet, v[k], records) || Keeps(h, wallet, v[k], records + [record])
      {
        AloneReturns(v, k);
        AloneKeeps(h, wallet, v[k], records);
        AloneKeeps(h, wallet, v[k], records + [record]);
      }
    }
    if Between(h, wallet, v, records, record) {
      forall found | MayReturn(v, found)
        ensures Keeps(h, wallet, found, records) || Keeps(h, wallet, found, records + [record])
      {
        CrashKeepsTheLog(h, wallet, v, records, record, found);
      }
    }
  }

  /** For every record to be appended safely, every version must already be the old log. */
  lemma SettledExactly(h: Sum, wallet: bytes, v: Versions, records: seq<bytes>)
    requires Wide32(h) && |wallet| == 32 && |records| <= MAX_U64
    ensures (forall record | Recordable(record) :: Survives(h, wallet, v, records, record))
      <==> Settled(h, wallet, v, records)
  {
    hide Keeps, Survives;
    forall record
      ensures Survives(h, wallet, v, records, record) <==> Between(h, wallet, v, records, record)
    {
      SurvivesExactly(h, wallet, v, records, record);
    }
    if forall record | Recordable(record) :: Survives(h, wallet, v, records, record) {
      forall k: nat | k < |v|
        ensures Keeps(h, wallet, v[k], records)
      {
        assert Recordable([0]) && Recordable([1]);
        assert Survives(h, wallet, v, records, [0]) && Survives(h, wallet, v, records, [1]);
        if !Keeps(h, wallet, v[k], records) {
          assert (records + [[0]])[|records|] != (records + [[1]])[|records|];
          KeepsOne(h, wallet, v[k], records + [[0]], records + [[1]]);
        }
      }
    }
  }

  /** Any earlier version may still come back among later ones. */
  lemma EarlierMayReturn(v: Versions, w: Versions, found: Dir)
    requires v <= w && MayReturn(v, found)
    ensures MayReturn(w, found)
  {
    forall name: string
      ensures SomeVersionHas(w, found, name)
    {
      assert SomeVersionHas(v, found, name);
      var k: nat :| k < |v| && EntryMayReturn(v[k], found, name);
      assert w[k] == v[k];
    }
  }

  // ---------- Steps of an append ----------

  /** What an append adds to the versions it found: directories of the old records, or of those and the new one. Once
      the directory is synced only the new log is left. */
  ghost predicate Added(h: Sum, wallet: bytes, was: Versions, v: Versions, records: seq<bytes>, record: bytes) {
    || (was <= v && AddedFrom(h, wallet, |was|, v, records, record))
    || Settled(h, wallet, v, records + [record])
  }

  ghost predicate AddedFrom(h: Sum, wallet: bytes, from: nat, v: Versions, records: seq<bytes>, record: bytes) {
    forall k: nat | from <= k < |v| :: Keeps(h, wallet, v[k], records) || Keeps(h, wallet, v[k], records + [record])
  }

  ghost predicate TrailAdded(
    h: Sum, wallet: bytes, was: Versions, trail: seq<Versions>, from: nat, records: seq<bytes>, record: bytes) {
    forall k | from <= k < |trail| :: Added(h, wallet, was, trail[k], records, record)
  }

  /** Every crash point from `from` on is survived. */
  ghost predicate TrailSurvives(h: Sum, wallet: bytes, trail: seq<Versions>, from: nat, records: seq<bytes>,
                                record: bytes) {
    forall k | from <= k < |trail| :: Survives(h, wallet, trail[k], records, record)
  }

  lemma NoTrailYet(h: Sum, wallet: bytes, was: Versions, trail: seq<Versions>, records: seq<bytes>, record: bytes)
    ensures TrailAdded(h, wallet, was, trail, |trail|, records, record)
  {
  }

  lemma TrailGrows(h: Sum, wallet: bytes, was: Versions, trail: seq<Versions>, from: nat, records: seq<bytes>,
                   record: bytes, v: Versions)
    requires TrailAdded(h, wallet, was, trail, from, records, record) && Added(h, wallet, was, v, records, record)
    ensures TrailAdded(h, wallet, was, trail + [v], from, records, record)
  {
  }

  lemma AddsNext(h: Sum, wallet: bytes, was: Versions, v: Versions, records: seq<bytes>, record: bytes, d: Dir)
    requires was <= v && AddedFrom(h, wallet, |was|, v, records, record)
    requires Keeps(h, wallet, d, records) || Keeps(h, wallet, d, records + [record])
    ensures was <= v + [d] && AddedFrom(h, wallet, |was|, v + [d], records, record)
  {
    hide Keeps;
  }

  /** If each version found was safe to come back, so is each point of the append. */
  lemma TrailSurvivesIf(h: Sum, wallet: bytes, was: Versions, trail: seq<Versions>, from: nat, records: seq<bytes>,
                        record: bytes)
    requires TrailAdded(h, wallet, was, trail, from, records, record) && Between(h, wallet, was, records, record)
    requires |records| <= MAX_U64
    ensures TrailSurvives(h, wallet, trail, from, records, record)
  {
    hide Keeps, Survives;
    forall k | from <= k < |trail|
      ensures Survives(h, wallet, trail[k], records, record)
    {
      assert Added(h, wallet, was, trail[k], records, record);
      assert Between(h, wallet, trail[k], records, record);
      SurvivesExactly(h, wallet, trail[k], records, record);
    }
  }

  /** And only then, as long as the versions found are still there at some point. */
  lemma TrailSurvivesOnlyIf(
    h: Sum, wallet: bytes, was: Versions, trail: seq<Versions>, from: nat, records: seq<bytes>, record: bytes, k: nat)
    requires TrailSurvives(h, wallet, trail, from, records, record) && from <= k < |trail| && was <= trail[k]
    requires |records| <= MAX_U64
    ensures Between(h, wallet, was, records, record)
  {
    hide Keeps, MayReturn;
    assert Survives(h, wallet, trail[k], records, record);
    forall found | MayReturn(was, found)
      ensures Keeps(h, wallet, found, records) || Keeps(h, wallet, found, records + [record])
    {
      EarlierMayReturn(was, trail[k], found);
    }
    SurvivesExactly(h, wallet, was, records, record);
  }

  lemma MovedKeeps(h: Sum, wallet: bytes, d: Dir, records: seq<bytes>, name: string, record: bytes)
    requires Keeps(h, wallet, d, records) && |records| < MAX_U64 && Recordable(record) && IsStaged(name)
    ensures Keeps(h, wallet, (d - {name})[RecordName(|records|) := Regular(Frame(h, wallet, |records|, record), true)],
                  records + [record])
  {
    hide Keeps;
    StagedFilesDoNotCount(h, wallet, d, name, records);
    RecordAppears(h, wallet, d - {name}, record, records);
  }

  lemma KeepsIsShort(h: Sum, wallet: bytes, d: Dir, records: seq<bytes>)
    requires Keeps(h, wallet, d, records)
    ensures |records| <= MAX_U64
  {
  }

  /** A version list that starts with one log and shows another is settled on neither. */
  lemma NotSettled(h: Sum, wallet: bytes, v: Versions, records: seq<bytes>, record: bytes)
    requires Keeps(h, wallet, v[0], records) && Keeps(h, wallet, Visible(v), records + [record])
    ensures !Settled(h, wallet, v, records) && !Settled(h, wallet, v, records + [record])
  {
    hide Keeps, RecordName;
    var n := |records|;
    KeepsIsShort(h, wallet, Visible(v), records + [record]);
    KeepsNames(h, wallet, v[0], records, n);
    KeepsNames(h, wallet, Visible(v), records + [record], n);
    if Settled(h, wallet, v, records) {
      KeepsNames(h, wallet, Visible(v), records, n);
    }
    if Settled(h, wallet, v, records + [record]) {
      KeepsNames(h, wallet, v[0], records + [record], n);
    }
  }

  lemma NothingRead(h: Sum, wallet: bytes, d: Dir, entries: seq<string>)
    ensures ReadSoFar(h, wallet, d, entries, 0, [])
  {
  }

  lemma RemovalKeepsSettled(h: Sum, wallet: bytes, v: Versions, name: string)
    requires IsStaged(name)
    ensures forall rs {:trigger Settled(h, wallet, v + [Visible(v) - {name}], rs)} ::
      Settled(h, wallet, v, rs) ==> Settled(h, wallet, v + [Visible(v) - {name}], rs)
  {
    forall rs | Settled(h, wallet, v, rs)
      ensures Settled(h, wallet, v + [Visible(v) - {name}], rs)
    {
      StagedFilesDoNotCount(h, wallet, Visible(v), name, rs);
    }
  }

  // ---------- Steps of a clear ----------

  /** The directory of an intact log of the first of these records. */
  ghost predicate KeepsSome(h: Sum, wallet: bytes, d: Dir, records: seq<bytes>) {
    exists n: nat :: n <= |records| && Keeps(h, wallet, d, records[..n])
  }

  /** The directory once the listing's names from `i` on are deleted. */
  function Cleared(d: Dir, entries: seq<string>, i: nat): (c: Dir)
    requires i <= |entries|
  {
    map name | name in d && (name == LOCK || name !in entries[i..]) :: d[name]
  }

  lemma ClearedNext(d: Dir, entries: seq<string>, i: nat)
    requires i < |entries|
    ensures Cleared(d, entries, i) ==
      if entries[i] == LOCK then Cleared(d, entries, i + 1) else Cleared(d, entries, i + 1) - {entries[i]}
  {
    assert entries[i..] == [entries[i]] + entries[i + 1..];
  }

  lemma NothingCleared(d: Dir, entries: seq<string>)
    ensures Cleared(d, entries, |entries|) == d
  {
  }

  lemma DeletingTheLast(
    h: Sum, wallet: bytes, d: Dir, entries: seq<string>, rs: seq<bytes>, i: nat, m: nat) returns (n: nat)
    requires IsListing(entries, d) && i < |entries| && Keeps(h, wallet, d, rs) && m <= |rs| && entries[i] != LOCK
    requires Keeps(h, wallet, Cleared(d, entries, i + 1), rs[..m])
    ensures n <= m && Keeps(h, wallet, Cleared(d, entries, i + 1) - {entries[i]}, rs[..n])
  {
    hide RecordName, HasRecord, ListedBefore;
    var c, name := Cleared(d, entries, i + 1), entries[i];
    NotDeletedTwice(d, entries, i);
    if Skipped(name, c[name]) {
      StagedFilesDoNotCount(h, wallet, c, name, rs[..m]);
      return m;
    }
    assert Numbered(name, |rs[..m]|);
    var k: nat :| k < m && name == RecordName(k);
    LastStanding(h, wallet, d, entries, rs, i, m, k);
    LastRecordGoes(h, wallet, c, rs[..m]);
    assert rs[..m][..m - 1] == rs[..m - 1];
    n := m - 1;
  }

  lemma NotDeletedTwice(d: Dir, entries: seq<string>, i: nat)
    requires IsListing(entries, d) && i < |entries|
    ensures entries[i] in Cleared(d, entries, i + 1)
  {
    hide ListedBefore;
    if entries[i] in entries[i + 1..] {
      var j :| 0 <= j < |entries| - i - 1 && entries[i + 1..][j] == entries[i];
      BeforeIsStrict(entries[i], entries[i + 1 + j]);
    }
  }

  lemma LastStanding(h: Sum, wallet: bytes, d: Dir, entries: seq<string>, rs: seq<bytes>, i: nat, m: nat, k: nat)
    requires IsListing(entries, d) && i < |entries| && k < m <= |rs| && entries[i] == RecordName(k)
    requires Keeps(h, wallet, Cleared(d, entries, i + 1), rs[..m])
    ensures k == m - 1
  {
    hide ListedBefore, RecordName;
    if k < m - 1 {
      var c := Cleared(d, entries, i + 1);
      NamesAreOrdered(k, m - 1);
      KeepsNames(h, wallet, c, rs[..m], m - 1);
      RecordNamesAreOwn(m - 1);
      var j :| 0 <= j < |entries| && entries[j] == RecordName(m - 1);
      BeforeIsStrict(entries[i], entries[j]);
    }
  }

  lemma LastRecordGoes(h: Sum, wallet: bytes, d: Dir, rs: seq<bytes>)
    requires Keeps(h, wallet, d, rs) && rs != []
    ensures Keeps(h, wallet, d - {RecordName(|rs| - 1)}, rs[..|rs| - 1])
  {
    hide RecordName, Frame;
    var n := |rs| - 1;
    var e := d - {RecordName(n)};
    forall i: nat | i < n
      ensures HasRecord(h, wallet, e, i, rs[..n][i])
    {
      NamesAreOrdered(i, n);
      assert HasRecord(h, wallet, d, i, rs[i]);
    }
    forall name | name in e
      ensures Skipped(name, e[name]) || Numbered(name, n)
    {
      if !Skipped(name, d[name]) {
        assert Numbered(name, |rs|);
        var i: nat :| i < |rs| && name == RecordName(i);
      }
    }
  }

  // ---------- Exactly when an interrupted clear is survived ----------

  /** Whatever these versions come back as, it is the log of the first of these records. */
  ghost predicate ClearSurvives(h: Sum, wallet: bytes, v: Versions, records: seq<bytes>) {
    forall found | MayReturn(v, found) :: KeepsSome(h, wallet, found, records)
  }

  ghost predicate KeepsAtLeast(h: Sum, wallet: bytes, d: Dir, records: seq<bytes>, n: nat) {
    exists m: nat :: n <= m <= |records| && Keeps(h, wallet, d, records[..m])
  }

  /** Part way: from all the records down to the first `n`. */
  ghost predicate Clearing(h: Sum, wallet: bytes, v: Versions, records: seq<bytes>, n: nat) {
    && n <= |records| && Keeps(h, wallet, v[0], records) && Keeps(h, wallet, Visible(v), records[..n])
    && forall k: nat | k < |v| :: KeepsAtLeast(h, wallet, v[k], records, n)
  }

  lemma ClearingStarts(h: Sum, wallet: bytes, v: Versions, records: seq<bytes>)
    requires Settled(h, wallet, v, records)
    ensures Clearing(h, wallet, v, records, |records|)
  {
    hide Keeps;
    assert records[..|records|] == records;
    forall k: nat | k < |v|
      ensures KeepsAtLeast(h, wallet, v[k], records, |records|)
    {
      assert Keeps(h, wallet, v[k], records[..|records|]);
    }
  }

  lemma ClearingNext(h: Sum, wallet: bytes, v: Versions, records: seq<bytes>, n: nat, d: Dir, m: nat)
    requires Clearing(h, wallet, v, records, n) && m <= n && Keeps(h, wallet, d, records[..m])
    ensures Clearing(h, wallet, v + [d], records, m)
  {
    hide Keeps;
    forall k: nat | k < |v + [d]|
      ensures KeepsAtLeast(h, wallet, (v + [d])[k], records, m)
    {
      if k < |v| {
        assert KeepsAtLeast(h, wallet, v[k], records, n);
      }
    }
  }

  lemma SettledSurvives(h: Sum, wallet: bytes, v: Versions, records: seq<bytes>, found: Dir)
    requires Settled(h, wallet, v, records) && MayReturn(v, found)
    ensures Keeps(h, wallet, found, records)
  {
    hide MayReturn, RecordName, Frame;
    KeepsIsShort(h, wallet, v[0], records);
    CrashKeepsTheLog(h, wallet, v, records, [], found);
    if Keeps(h, wallet, found, records + [[]]) {
      assert HasRecord(h, wallet, found, |records|, (records + [[]])[|records|]);
    }
  }

  /** With one removal unsynced, its record is there or not. */
  lemma OneRemovalSurvives(h: Sum, wallet: bytes, v: Versions, records: seq<bytes>, n: nat)
    requires Clearing(h, wallet, v, records, n) && n + 1 >= |records|
    ensures ClearSurvives(h, wallet, v, records)
  {
    hide Keeps, MayReturn;
    KeepsIsShort(h, wallet, v[0], records);
    assert records[..|records|] == records;
    forall found | MayReturn(v, found)
      ensures KeepsSome(h, wallet, found, records)
    {
      if records == [] {
        forall k: nat | k < |v| ensures Keeps(h, wallet, v[k], []) {
          assert KeepsAtLeast(h, wallet, v[k], records, n);
        }
        SettledSurvives(h, wallet, v, [], found);
      } else {
        var most, last := records[..|records| - 1], records[|records| - 1];
        assert most + [last] == records;
        forall k: nat | k < |v| ensures Keeps(h, wallet, v[k], most) || Keeps(h, wallet, v[k], most + [last]) {
          assert KeepsAtLeast(h, wallet, v[k], records, n);
        }
        CrashKeepsTheLog(h, wallet, v, most, last, found);
      }
    }
  }

  /** With two, the later record may come back without the earlier one, and no log is left. */
  lemma TwoRemovalsLeaveAGap(h: Sum, wallet: bytes, v: Versions, records: seq<bytes>, n: nat) returns (found: Dir)
    requires Clearing(h, wallet, v, records, n) && n + 1 < |records|
    ensures MayReturn(v, found) && forall any :: !Keeps(h, wallet, found, any)
  {
    hide RecordName, Frame, Alone, Keeps;
    KeepsIsShort(h, wallet, v[0], records);
    var last, before := |records| - 1, |records| - 2;
    NamesAreOrdered(before, last);
    KeepsNames(h, wallet, v[0], records, last);
    KeepsNames(h, wallet, Visible(v), records[..n], before);
    LastIsSynced(h, wallet, v[0], records);
    found := WithEntry(Visible(v), v[0], RecordName(last));
    MixtureReturns(v, RecordName(last));
    forall any
      ensures !Keeps(h, wallet, found, any)
    {
      if Keeps(h, wallet, found, any) {
        KeepsNames(h, wallet, found, any, last);
        KeepsNames(h, wallet, found, any, before);
      }
    }
  }

  lemma LastIsSynced(h: Sum, wallet: bytes, d: Dir, records: seq<bytes>)
    requires Keeps(h, wallet, d, records) && records != []
    ensures var name := RecordName(|records| - 1); name in d && d[name].Regular? && d[name].synced
  {
    hide RecordName, Frame;
    assert HasRecord(h, wallet, d, |records| - 1, records[|records| - 1]);
  }

  /** One directory come back, but for an entry of another. */
  function WithEntry(d: Dir, other: Dir, name: string): (r: Dir)
    requires name in other
    ensures r.Keys == d.Keys + {name}
  {
    Alone(d)[name := other[name]]
  }

  lemma MixtureReturns(v: Versions, name: string)
    requires name in v[0] && v[0][name].Regular? && v[0][name].synced
    ensures MayReturn(v, WithEntry(Visible(v), v[0], name))
  {
    var found := WithEntry(Visible(v), v[0], name);
    forall other: string
      ensures SomeVersionHas(v, found, other)
    {
      assert EntryMayReturn(v[if other == name then 0 else |v| - 1], found, other);
    }
  }

  /** A point of a clear is survived exactly when at most one record's removal is unsynced there. */
  lemma ClearingExactly(h: Sum, wallet: bytes, v: Versions, records: seq<bytes>, n: nat)
    requires Clearing(h, wallet, v, records, n)
    ensures ClearSurvives(h, wallet, v, records) <==> n + 1 >= |records|
  {
    hide Keeps, Clearing, MayReturn;
    if n + 1 >= |records| {
      OneRemovalSurvives(h, wallet, v, records, n);
    } else {
      var found := TwoRemovalsLeaveAGap(h, wallet, v, records, n);
    }
  }

  /** The visible directory keeps the first `n` records, and the point is survived exactly when it has just been synced
      or no more than one record's removal has not. */
  ghost predicate ExactlySurvives(h: Sum, wallet: bytes, v: Versions, records: seq<bytes>) {
    exists n: nat :: n <= |records| && Keeps(h, wallet, Visible(v), records[..n])
      && (ClearSurvives(h, wallet, v, records) <==> |v| == 1 || n + 1 >= |records|)
  }

  lemma ClearingIsExact(h: Sum, wallet: bytes, v: Versions, records: seq<bytes>, n: nat)
    requires Clearing(h, wallet, v, records, n)
    ensures ExactlySurvives(h, wallet, v, records)
  {
    hide Keeps, ClearSurvives;
    ClearingExactly(h, wallet, v, records, n);
    if |v| == 1 {
      KeepsIsShort(h, wallet, v[0], records);
      SameLength(h, wallet, v[0], records, n);
    }
  }

  lemma SameLength(h: Sum, wallet: bytes, d: Dir, records: seq<bytes>, n: nat)
    requires n <= |records| && Keeps(h, wallet, d, records) && Keeps(h, wallet, d, records[..n])
    ensures n == |records|
  {
    hide Keeps, RecordName;
    KeepsIsShort(h, wallet, d, records);
    if n < |records| {
      KeepsNames(h, wallet, d, records, n);
      KeepsNames(h, wallet, d, records[..n], n);
    }
  }

  lemma SyncedIsExact(h: Sum, wallet: bytes, v: Versions, records: seq<bytes>, n: nat)
    requires |v| == 1 && n <= |records| && Keeps(h, wallet, Visible(v), records[..n])
    ensures ExactlySurvives(h, wallet, v, records)
  {
    hide Keeps, MayReturn;
    forall found | MayReturn(v, found)
      ensures KeepsSome(h, wallet, found, records)
    {
      SettledSurvives(h, wallet, v, records[..n], found);
    }
  }
}
