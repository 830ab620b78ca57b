/** The canonical encoding: fixed fields, length-prefixed blobs, flags and counted lists, read back without loss. */
module Codecs {
  import opened Bytes
  import opened Options

  /** How a value is written and taken off the front of some bytes. */
  datatype Codec<!T(!new)> = Codec(valid: T -> bool, put: T -> bytes, take: bytes -> Option<(T, bytes)>)

  /** What is written is read back whatever follows, and whatever is read is exactly what writing it gives. */
  ghost predicate Lawful<T(!new)>(c: Codec<T>) {
    && (forall v, rest {:trigger c.take(c.put(v) + rest)} :: c.valid(v) ==> c.take(c.put(v) + rest) == Some((v, rest)))
    && (forall data {:trigger c.take(data)} :: c.take(data).Some? ==>
          c.valid(c.take(data).value.0) && data == c.put(c.take(data).value.0) + c.take(data).value.1)
  }

  lemma Reads<T(!new)>(c: Codec<T>, v: T, rest: bytes)
    requires Lawful(c) && c.valid(v)
    ensures c.take(c.put(v) + rest) == Some((v, rest))
  {
  }

  /** No value's bytes run into what follows them. */
  lemma SelfDelimiting<T(!new)>(c: Codec<T>, v: T, x: bytes, w: T, y: bytes)
    requires Lawful(c) && c.valid(v) && c.valid(w) && c.put(v) + x == c.put(w) + y
    ensures v == w && x == y
  {
    Reads(c, v, x);
    Reads(c, w, y);
  }

  // ---------- Fields ----------

  function Fixed(n: nat): (c: Codec<bytes>) {
    Codec(b => |b| == n, b => b, data => if |data| < n then None else Some((data[..n], data[n..])))
  }

  lemma FixedLawful(n: nat)
    ensures Lawful(Fixed(n))
  {
    var c := Fixed(n);
    forall v, rest | c.valid(v)
      ensures c.take(c.put(v) + rest) == Some((v, rest))
    {
      assert (v + rest)[..n] == v && (v + rest)[n..] == rest;
    }
  }

  function Unsigned(width: nat): (c: Codec<nat>) {
    Codec(n => n < Pow256(width), n => ToLittleEndian(n, width),
          data => if |data| < width then None else Some((LittleEndian(data[..width]), data[width..])))
  }

  lemma UnsignedLawful(width: nat)
    ensures Lawful(Unsigned(width))
  {
    var c := Unsigned(width);
    forall n: nat, rest | c.valid(n)
      ensures c.take(c.put(n) + rest) == Some((n, rest))
    {
      WriteThenRead(n, width);
      var data := c.put(n) + rest;
      assert data[..width] == c.put(n) && data[width..] == rest;
    }
    forall data | c.take(data).Some?
      ensures c.valid(c.take(data).value.0) && data == c.put(c.take(data).value.0) + c.take(data).value.1
    {
      ReadThenWrite(data[..width]);
      LittleEndianBound(data[..width]);
    }
  }

  // ---------- Combinations ----------

  function Both<A(!new), B(!new)>(a: Codec<A>, b: Codec<B>): (c: Codec<(A, B)>) {
    Codec((v: (A, B)) => a.valid(v.0) && b.valid(v.1), (v: (A, B)) => a.put(v.0) + b.put(v.1),
          data => match a.take(data)
                  case None => None
                  case Some((x, rest)) =>
                    match b.take(rest) case None => None case Some((y, end)) => Some(((x, y), end)))
  }

  lemma BothLawful<A(!new), B(!new)>(a: Codec<A>, b: Codec<B>)
    requires Lawful(a) && Lawful(b)
    ensures Lawful(Both(a, b))
  {
    var c := Both(a, b);
    forall v: (A, B), rest | c.valid(v)
      ensures c.take(c.put(v) + rest) == Some((v, rest))
    {
      assert c.put(v) + rest == a.put(v.0) + (b.put(v.1) + rest);
      Reads(a, v.0, b.put(v.1) + rest);
      Reads(b, v.1, rest);
    }
    forall data | c.take(data).Some?
      ensures c.valid(c.take(data).value.0) && data == c.put(c.take(data).value.0) + c.take(data).value.1
    {
      var (x, rest) := a.take(data).value;
      var (y, end) := b.take(rest).value;
      assert data == a.put(x) + (b.put(y) + end) == (a.put(x) + b.put(y)) + end;
    }
  }

  /** A field that selects how the rest is written. */
  function Select<K(!new), V(!new)>(k: Codec<K>, branch: K -> Codec<V>): (c: Codec<(K, V)>) {
    Codec((v: (K, V)) => k.valid(v.0) && branch(v.0).valid(v.1), (v: (K, V)) => k.put(v.0) + branch(v.0).put(v.1),
          data => match k.take(data)
                  case None => None
                  case Some((x, rest)) =>
                    match branch(x).take(rest) case None => None case Some((y, end)) => Some(((x, y), end)))
  }

  lemma SelectLawful<K(!new), V(!new)>(k: Codec<K>, branch: K -> Codec<V>)
    requires Lawful(k) && forall x :: k.valid(x) ==> Lawful(branch(x))
    ensures Lawful(Select(k, branch))
  {
    var c := Select(k, branch);
    forall v: (K, V), rest | c.valid(v)
      ensures c.take(c.put(v) + rest) == Some((v, rest))
    {
      var b := branch(v.0);
      assert c.put(v) + rest == k.put(v.0) + (b.put(v.1) + rest);
      Reads(k, v.0, b.put(v.1) + rest);
      Reads(b, v.1, rest);
    }
    forall data | c.take(data).Some?
      ensures c.valid(c.take(data).value.0) && data == c.put(c.take(data).value.0) + c.take(data).value.1
    {
      var (x, rest) := k.take(data).value;
      var b := branch(x);
      var (y, end) := b.take(rest).value;
      assert data == k.put(x) + (b.put(y) + end) == (k.put(x) + b.put(y)) + end;
    }
  }

  /** The same bytes read as another type. `back` undoes `to` on what is valid. */
  function Convert<T(==, !new), U(!new)>(c: Codec<T>, fits: U -> bool, to: T -> U, back: U -> T): (d: Codec<U>) {
    Codec(u => fits(u) && c.valid(back(u)), u => c.put(back(u)),
          data => match c.take(data)
                  case None => None
                  case Some((v, rest)) => if fits(to(v)) && back(to(v)) == v then Some((to(v), rest)) else None)
  }

  lemma ConvertLawful<T(!new), U(!new)>(c: Codec<T>, fits: U -> bool, to: T -> U, back: U -> T)
    requires Lawful(c) && forall u :: fits(u) ==> to(back(u)) == u
    ensures Lawful(Convert(c, fits, to, back))
  {
    var d := Convert(c, fits, to, back);
    forall u, rest | d.valid(u)
      ensures d.take(d.put(u) + rest) == Some((u, rest))
    {
      Reads(c, back(u), rest);
    }
  }

  /** Only some values are canonical. */
  function Only<T(!new)>(c: Codec<T>, ok: T -> bool): (d: Codec<T>) {
    Codec(v => c.valid(v) && ok(v), c.put,
          data => match c.take(data) case None => None case Some((v, rest)) => if ok(v) then Some((v, rest)) else None)
  }

  lemma OnlyLawful<T(!new)>(c: Codec<T>, ok: T -> bool)
    requires Lawful(c)
    ensures Lawful(Only(c, ok))
  {
    var d := Only(c, ok);
    forall v, rest | d.valid(v)
      ensures d.take(d.put(v) + rest) == Some((v, rest))
    {
      Reads(c, v, rest);
    }
  }

  /** A constant that encodings of a kind start with. */
  function Literal(b: bytes): (c: Codec<bytes>) { Only(Fixed(|b|), v => v == b) }

  lemma LiteralLawful(b: bytes)
    ensures Lawful(Literal(b))
  {
    FixedLawful(|b|);
    OnlyLawful(Fixed(|b|), v => v == b);
  }

  /** Bytes behind their 32-bit length, up to a limit. */
  function Blob(max: nat): (c: Codec<bytes>) {
    Convert(Select(Unsigned(4), (n: nat) => Fixed(n)), (b: bytes) => |b| <= max, (v: (nat, bytes)) => v.1,
            (b: bytes) => (|b|, b))
  }

  lemma BlobLawful(max: nat)
    ensures Lawful(Blob(max))
  {
    UnsignedLawful(4);
    forall n: nat
      ensures Lawful(Fixed(n))
    {
      FixedLawful(n);
    }
    var branch := (n: nat) => Fixed(n);
    SelectLawful(Unsigned(4), branch);
    ConvertLawful(Select(Unsigned(4), branch), (b: bytes) => |b| <= max, (v: (nat, bytes)) => v.1,
                  (b: bytes) => (|b|, b));
  }

  /** A flag byte, then the value if there is one. */
  function Optional<T(==, !new)>(c: Codec<T>): (d: Codec<Option<T>>) {
    Codec((v: Option<T>) => v.Some? ==> c.valid(v.value),
          (v: Option<T>) => match v case None => [0] case Some(x) => [1] + c.put(x),
          (data: bytes) =>
            if data == [] || data[0] > 1 then None
            else if data[0] == 0 then Some((None, data[1..]))
            else match c.take(data[1..]) case None => None case Some((x, rest)) => Some((Some(x), rest)))
  }

  lemma OptionalLawful<T(!new)>(c: Codec<T>)
    requires Lawful(c)
    ensures Lawful(Optional(c))
  {
    var d := Optional(c);
    forall v: Option<T>, rest | d.valid(v)
      ensures d.take(d.put(v) + rest) == Some((v, rest))
    {
      var data := d.put(v) + rest;
      if v.Some? {
        Reads(c, v.value, rest);
        assert data[1..] == c.put(v.value) + rest;
      } else {
        assert data[1..] == rest;
      }
    }
    forall data | d.take(data).Some?
      ensures d.valid(d.take(data).value.0) && data == d.put(d.take(data).value.0) + d.take(data).value.1
    {
      assert data == [data[0]] + data[1..];
    }
  }

  // ---------- Counted lists ----------

  function PutAll<T(!new)>(c: Codec<T>, s: seq<T>): (b: bytes) {
    if s == [] then [] else c.put(s[0]) + PutAll(c, s[1..])
  }

  function TakeAll<T(!new)>(c: Codec<T>, n: nat, data: bytes): (r: Option<(seq<T>, bytes)>) {
    if n == 0 then Some(([], data))
    else match c.take(data)
      case None => None
      case Some((v, rest)) =>
        match TakeAll(c, n - 1, rest) case None => None case Some((s, end)) => Some(([v] + s, end))
  }

  predicate AllValid<T(!new)>(c: Codec<T>, s: seq<T>) { forall i | 0 <= i < |s| :: c.valid(s[i]) }

  lemma {:induction false} TakesAll<T(!new)>(c: Codec<T>, s: seq<T>, rest: bytes)
    requires Lawful(c) && AllValid(c, s)
    ensures TakeAll(c, |s|, PutAll(c, s) + rest) == Some((s, rest))
  {
    if s == [] {
      assert PutAll(c, s) + rest == rest;
    } else {
      TakesAll(c, s[1..], rest);
      Reads(c, s[0], PutAll(c, s[1..]) + rest);
      assert PutAll(c, s) + rest == c.put(s[0]) + (PutAll(c, s[1..]) + rest);
      assert s == [s[0]] + s[1..];
    }
  }

  lemma {:induction false} PutsAll<T(!new)>(c: Codec<T>, n: nat, data: bytes)
    requires Lawful(c) && TakeAll(c, n, data).Some?
    ensures var (s, rest) := TakeAll(c, n, data).value; |s| == n && AllValid(c, s) && data == PutAll(c, s) + rest
  {
    if n != 0 {
      var (v, middle) := c.take(data).value;
      PutsAll(c, n - 1, middle);
      var (t, rest) := TakeAll(c, n - 1, middle).value;
      var s := [v] + t;
      assert s[1..] == t;
      assert c.put(v) + (PutAll(c, t) + rest) == PutAll(c, s) + rest;
    } else {
      assert PutAll(c, []) + data == data;
    }
  }

  /** A 32-bit count, then that many values. */
  function List<T(!new)>(max: nat, c: Codec<T>): (d: Codec<seq<T>>) {
    Codec((s: seq<T>) => |s| <= max && |s| < Pow256(4) && AllValid(c, s),
          (s: seq<T>) => ToLittleEndian(|s|, 4) + PutAll(c, s),
          (data: bytes) =>
            match Unsigned(4).take(data)
            case None => None
            case Some((n, rest)) => if n > max then None else TakeAll(c, n, rest))
  }

  lemma ListLawful<T(!new)>(max: nat, c: Codec<T>)
    requires Lawful(c)
    ensures Lawful(List(max, c))
  {
    hide PutAll, TakeAll, AllValid, ToLittleEndian, Pow256, Unsigned, Lawful;
    var d := List(max, c);
    forall s: seq<T>, rest | d.valid(s)
      ensures d.take(d.put(s) + rest) == Some((s, rest))
    {
      ListReads(max, c, s, rest);
    }
    forall data | d.take(data).Some?
      ensures d.valid(d.take(data).value.0) && data == d.put(d.take(data).value.0) + d.take(data).value.1
    {
      ListWrites(max, c, data);
    }
    assert Lawful(d) by { Laws(d); }
  }

  lemma Laws<T(!new)>(d: Codec<T>)
    requires forall s: T, rest | d.valid(s) :: d.take(d.put(s) + rest) == Some((s, rest))
    requires forall data | d.take(data).Some? ::
      d.valid(d.take(data).value.0) && data == d.put(d.take(data).value.0) + d.take(data).value.1
    ensures Lawful(d)
  {
  }

  lemma ListReads<T(!new)>(max: nat, c: Codec<T>, s: seq<T>, rest: bytes)
    requires Lawful(c) && |s| <= max && |s| < Pow256(4) && AllValid(c, s)
    ensures var data := ToLittleEndian(|s|, 4) + PutAll(c, s) + rest;
      Unsigned(4).take(data) == Some((|s|, PutAll(c, s) + rest))
        && TakeAll(c, |s|, PutAll(c, s) + rest) == Some((s, rest))
  {
    hide PutAll, TakeAll, AllValid, ToLittleEndian, LittleEndian, Pow256;
    var body := PutAll(c, s) + rest;
    UnsignedLawful(4);
    Reads(Unsigned(4), |s|, body);
    assert ToLittleEndian(|s|, 4) + PutAll(c, s) + rest == Unsigned(4).put(|s|) + body;
    TakesAll(c, s, rest);
  }

  lemma ListWrites<T(!new)>(max: nat, c: Codec<T>, data: bytes)
    requires Lawful(c) && Unsigned(4).take(data).Some?
    requires var (n, rest) := Unsigned(4).take(data).value; n <= max && TakeAll(c, n, rest).Some?
    ensures var (n, rest) := Unsigned(4).take(data).value;
      var (s, end) := TakeAll(c, n, rest).value;
      && |s| == n && n < Pow256(4) && AllValid(c, s) && data == ToLittleEndian(|s|, 4) + PutAll(c, s) + end
  {
    hide PutAll, TakeAll, AllValid, ToLittleEndian, LittleEndian, Pow256;
    UnsignedLawful(4);
    var (n, rest) := Unsigned(4).take(data).value;
    PutsAll(c, n, rest);
    var (s, end) := TakeAll(c, n, rest).value;
    assert data == ToLittleEndian(n, 4) + (PutAll(c, s) + end);
  }
}
