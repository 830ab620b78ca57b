/** The encoder and decoder as the program runs them: a growing buffer, a moving position and a sticky error. */
module Buffers {
  import opened Bytes
  import opened Hand
  import opened Codecs
  import opened SavedWork
  import opened Options

  class Encoder {
    var data: bytes
    var err: bool

    constructor ()
      ensures data == [] && !err
    {
      data, err := [], false;
    }

    /** Once in error nothing more is written. */
    method Raw(b: bytes)
      modifies this
      ensures err == old(err) && data == if err then old(data) else old(data) + b
    {
      if !err {
        data := data + b;
      }
    }

    method Number(n: nat, width: nat)
      modifies this
      ensures err == old(err) && data == if err then old(data) else old(data) + ToLittleEndian(n, width)
    {
      Raw(ToLittleEndian(n, width));
    }

    method Chunk(b: bytes, max: nat)
      requires max < Pow256(4)
      modifies this
      ensures err == (old(err) || !Blob(max).valid(b))
      ensures data == if err then old(data) else old(data) + Blob(max).put(b)
    {
      if |b| > max {
        err := true;
        return;
      }
      assert old(data) + ToLittleEndian(|b|, 4) + b == old(data) + (ToLittleEndian(|b|, 4) + b);
      Number(|b|, 4);
      Raw(b);
    }

    method Outpoints(points: seq<Outpoint>, max: nat)
      requires max < Pow256(4) && forall i | 0 <= i < |points| :: OutpointCodec().valid(points[i])
      modifies this
      ensures err == (old(err) || !List(max, OutpointCodec()).valid(points))
      ensures data == if err then old(data) else old(data) + List(max, OutpointCodec()).put(points)
    {
      hide OutpointCodec, ToLittleEndian, PutAll;
      if |points| > max {
        err := true;
        return;
      }
      Number(|points|, 4);
      ghost var start := data;
      PutWhole(points, start);
      var i := 0;
      while i < |points|
        invariant 0 <= i <= |points| && err == old(err)
        invariant err ==> data == start
        invariant !err ==> data + PutAll(OutpointCodec(), points[i..]) == start + PutAll(OutpointCodec(), points)
      {
        PutNext(points, i, data);
        Raw(points[i].hash);
        Number(points[i].index, 4);
        i := i + 1;
      }
      PutNothing(points, data);
      if !err {
        Regroup(old(data), ToLittleEndian(|points|, 4), PutAll(OutpointCodec(), points));
      }
    }
  }

  lemma PutWhole(points: seq<Outpoint>, data: bytes)
    ensures data + PutAll(OutpointCodec(), points[0..]) == data + PutAll(OutpointCodec(), points)
  {
    assert points[0..] == points;
  }

  lemma PutNothing(points: seq<Outpoint>, data: bytes)
    ensures data + PutAll(OutpointCodec(), points[|points|..]) == data
  {
    assert points[|points|..] == [];
  }

  lemma Regroup(a: bytes, b: bytes, c: bytes)
    ensures (a + b) + c == a + (b + c)
  {
  }

  lemma PutNext(points: seq<Outpoint>, i: nat, data: bytes)
    requires i < |points|
    ensures data + PutAll(OutpointCodec(), points[i..])
         == ((data + points[i].hash) + ToLittleEndian(points[i].index, 4)) + PutAll(OutpointCodec(), points[i + 1..])
  {
    hide ToLittleEndian;
    assert points[i..][0] == points[i] && points[i..][1..] == points[i + 1..];
    var rest := PutAll(OutpointCodec(), points[i + 1..]);
    assert OutpointCodec().put(points[i]) == points[i].hash + ToLittleEndian(points[i].index, 4);
    assert data + ((points[i].hash + ToLittleEndian(points[i].index, 4)) + rest)
        == ((data + points[i].hash) + ToLittleEndian(points[i].index, 4)) + rest;
  }

  /** A read agrees with a codec: it fails when the codec does, and otherwise takes the same value and leaves the
      same rest. */
  ghost predicate Agrees<T(!new)>(c: Codec<T>, before: bytes, failed: bool, v: T, after: bytes) {
    c.take(before) == if failed then None else Some((v, after))
  }

  class Decoder {
    const data: bytes
    var pos: nat
    var err: bool

    ghost predicate Valid()
      reads this
    {
      pos <= |data|
    }

    function Rest(): (r: bytes)
      requires pos <= |data|
      reads this
    {
      data[pos..]
    }

    constructor (data: bytes)
      ensures Valid() && this.data == data && pos == 0 && !err
    {
      this.data, pos, err := data, 0, false;
    }

    /** After an error, or past the end, zeros. */
    method Raw(n: nat) returns (b: bytes)
      requires Valid()
      modifies this
      ensures Valid() && |b| == n && (old(err) ==> err)
      ensures !old(err) ==> Agrees(Fixed(n), old(Rest()), err, b, Rest())
    {
      if err {
        return Zeros(n);
      }
      if n > |data| - pos {
        err := true;
        return Zeros(n);
      }
      b := data[pos..pos + n];
      assert b == Rest()[..n] && data[pos + n..] == Rest()[n..];
      pos := pos + n;
    }

    method Number(width: nat) returns (n: nat)
      requires Valid()
      modifies this
      ensures Valid() && (old(err) ==> err)
      ensures !old(err) ==> Agrees(Unsigned(width), old(Rest()), err, n, Rest())
    {
      var b := Raw(width);
      n := LittleEndian(b);
    }

    method Chunk(max: nat) returns (b: bytes)
      requires Valid()
      modifies this
      ensures Valid() && (old(err) ==> err)
      ensures !old(err) ==> Agrees(Blob(max), old(Rest()), err, b, Rest())
    {
      var n := Number(4);
      if err || n > max || n > |data| - pos {
        err := true;
        return [];
      }
      b := Raw(n);
    }

    /** A count is refused at once when what is left could not hold that many. */
    method Count(max: nat, least: nat) returns (n: nat)
      requires Valid()
      modifies this
      ensures Valid() && (old(err) ==> err)
      ensures !old(err) && !err ==> Unsigned(4).take(old(Rest())) == Some((n, Rest())) && n <= max
      ensures !old(err) && err ==>
        match Unsigned(4).take(old(Rest())) case None => true case Some((m, rest)) => m > max || m * least > |rest|
      ensures err ==> n == 0
    {
      n := Number(4);
      if err || n > max || n * least > |data| - pos {
        err := true;
        return 0;
      }
    }

    method Point() returns (p: Outpoint)
      requires Valid()
      modifies this
      ensures Valid() && (old(err) ==> err)
      ensures !old(err) ==> Agrees(OutpointCodec(), old(Rest()), err, p, Rest())
    {
      var hash := Raw(32);
      var index := Number(4);
      p := Outpoint(hash, index);
    }

    method Outpoints(max: nat) returns (points: seq<Outpoint>)
      requires Valid()
      modifies this
      ensures Valid() && (old(err) ==> err)
      ensures !old(err) ==> Agrees(List(max, OutpointCodec()), old(Rest()), err, points, Rest())
    {
      hide OutpointCodec;
      var n := Count(max, 36);
      points := [];
      if err {
        ShortLists(max, old(Rest()));
        return;
      }
      ghost var start := Rest();
      OntoNothing(TakeAll(OutpointCodec(), n, start));
      var i := 0;
      while i < n
        invariant 0 <= i <= n && Valid()
        invariant !err ==>
          |points| == i && TakeAll(OutpointCodec(), n, start) == Onto(points, TakeAll(OutpointCodec(), n - i, Rest()))
        invariant err ==> TakeAll(OutpointCodec(), n, start) == None
      {
        ghost var before := Rest();
        var p := Point();
        OntoNext(points, n - i, before);
        points := points + [p];
        i := i + 1;
      }
      assert points + [] == points;
    }

    method Done() returns (ok: bool)
      requires Valid()
      ensures ok <==> !err && Rest() == []
    {
      ok := !err && pos == |data|;
    }
  }

  function Onto(points: seq<Outpoint>, r: Option<(seq<Outpoint>, bytes)>): (s: Option<(seq<Outpoint>, bytes)>) {
    match r case None => None case Some((rest, end)) => Some((points + rest, end))
  }

  lemma OntoNothing(r: Option<(seq<Outpoint>, bytes)>)
    ensures Onto([], r) == r
  {
    if r.Some? {
      assert [] + r.value.0 == r.value.0;
    }
  }

  lemma OntoNext(points: seq<Outpoint>, n: nat, data: bytes)
    requires n > 0
    ensures Onto(points, TakeAll(OutpointCodec(), n, data))
      == match OutpointCodec().take(data)
         case None => None
         case Some((p, rest)) => Onto(points + [p], TakeAll(OutpointCodec(), n - 1, rest))
  {
    hide OutpointCodec;
    match OutpointCodec().take(data)
    case None =>
    case Some((p, rest)) =>
      var r := TakeAll(OutpointCodec(), n - 1, rest);
      if r.Some? {
        assert points + ([p] + r.value.0) == (points + [p]) + r.value.0;
      }
  }

  lemma PointTakes(data: bytes)
    requires OutpointCodec().take(data).Some?
    ensures |OutpointCodec().take(data).value.1| == |data| - 36
  {
  }

  lemma {:induction false} TakesEnough(n: nat, data: bytes)
    requires TakeAll(OutpointCodec(), n, data).Some?
    ensures n * 36 <= |data|
  {
    hide OutpointCodec;
    if n > 0 {
      PointTakes(data);
      TakesEnough(n - 1, OutpointCodec().take(data).value.1);
    }
  }

  /** Refusing a count early refuses only what would have failed. */
  lemma ShortLists(max: nat, data: bytes)
    ensures (match Unsigned(4).take(data) case None => true case Some((n, rest)) => n > max || n * 36 > |rest|)
      ==> List(max, OutpointCodec()).take(data).None?
  {
    hide OutpointCodec;
    match Unsigned(4).take(data)
    case None =>
    case Some((n, rest)) =>
      if n <= max && TakeAll(OutpointCodec(), n, rest).Some? {
        TakesEnough(n, rest);
      }
  }
}
