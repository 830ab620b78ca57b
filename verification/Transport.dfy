/** The peer transport's receive cache: the pinned peer, what is retained of its messages and what is delivered. */
module Transport {
  import opened Bytes
  import opened Hand
  import opened Codecs
  import opened Messages
  import opened Options

  /** A consumed message leaves only its digest. */
  datatype Retained = Whole(payload: bytes, identity: bytes) | Consumed(digest: bytes, identity: bytes)

  const DIGEST: nat := 32

  function Size(r: Retained): (n: nat) { match r case Whole(payload, _) => |payload| case Consumed(_, _) => DIGEST }

  /** Everything retained, added up. */
  ghost function TotalSize(m: map<nat, Retained>): (n: nat)
    decreases |m|
  {
    if m == map[] then 0
    else
      var k :| k in m;
      Smaller(m, k);
      Size(m[k]) + TotalSize(m - {k})
  }

  lemma Smaller(m: map<nat, Retained>, k: nat)
    requires k in m
    ensures |m - {k}| < |m|
  {
    assert m.Keys == (m - {k}).Keys + {k};
  }

  lemma {:induction false} TotalWithout(m: map<nat, Retained>, k: nat)
    requires k in m
    ensures TotalSize(m) == Size(m[k]) + TotalSize(m - {k})
    decreases |m|
  {
    var j :| j in m && TotalSize(m) == Size(m[j]) + TotalSize(m - {j});
    if j != k {
      Smaller(m, j);
      Smaller(m, k);
      TotalWithout(m - {j}, k);
      TotalWithout(m - {k}, j);
      assert m - {j} - {k} == m - {k} - {j};
    }
  }

  lemma TotalUpdated(m: map<nat, Retained>, k: nat, r: Retained)
    ensures TotalSize(m[k := r]) == TotalSize(m) + Size(r) - (if k in m then Size(m[k]) else 0)
  {
    TotalWithout(m[k := r], k);
    if k in m {
      TotalWithout(m, k);
      assert m[k := r] - {k} == m - {k};
    } else {
      assert m[k := r] - {k} == m;
    }
  }

  /** The cache once the payloads of these numbers, where behind the cursor, are digests. */
  function Behind(m: map<nat, Retained>, cursor: nat, h: Hash, done: set<nat>): (r: map<nat, Retained>) {
    map s | s in m :: if s in done && s < cursor && m[s].Whole? then Consumed(h(m[s].payload), m[s].identity) else m[s]
  }

  lemma BehindNone(m: map<nat, Retained>, cursor: nat, h: Hash)
    ensures Behind(m, cursor, h, {}) == m
  {
  }

  lemma BehindNext(m: map<nat, Retained>, cursor: nat, h: Hash, done: set<nat>, s: nat)
    requires s in m && s !in done
    ensures s in Behind(m, cursor, h, done) && Behind(m, cursor, h, done)[s] == m[s]
    ensures Behind(m, cursor, h, done + {s})
      == if s < cursor && m[s].Whole? then Behind(m, cursor, h, done)[s := Consumed(h(m[s].payload), m[s].identity)]
         else Behind(m, cursor, h, done)
    ensures m[s].Whole? ==> Size(m[s]) == |m[s].payload|
  {
  }

  lemma BehindAll(m: map<nat, Retained>, cursor: nat, h: Hash)
    ensures var r := Behind(m, cursor, h, m.Keys);
      && r.Keys == m.Keys
      && (forall s | s in m ::
          r[s] == if s < cursor && m[s].Whole? then Consumed(h(m[s].payload), m[s].identity) else m[s])
  {
  }

  /** A carrier whose signature holds: its author and its payload. */
  datatype Carrier = Carrier(author: bytes, payload: bytes)

  /** What reaches the reader: a carrier, something irrelevant, or something malformed. */
  datatype Frame = Carried(c: Carrier) | Ignored | Malformed

  /** The message a payload carries, if its author and session are what it says. */
  function Authenticate(f: Formats, size: nat, session: bytes, c: Carrier): (m: Option<Message>) {
    match DecodeMessage(f, size, c.payload)
    case None => None
    case Some(m) => if m.identity != c.author || m.session != session then None else Some(m)
  }

  lemma MessagesAreLong(f: Formats, size: nat, m: Message, data: bytes)
    requires DecodeMessage(f, size, data) == Some(m)
    ensures |data| >= DIGEST
  {
    MessageCodec(f, size, m, data);
    hide FieldsCodec;
    SessionFirst(f, size, FieldsOf(m));
  }

  lemma SessionFirst(f: Formats, size: nat, v: Fields)
    requires FieldsCodec(f, size).valid(v)
    ensures |FieldsCodec(f, size).put(v)| >= 32
  {
    hide ContentCodec, KindCodec, SenderCodec, Unsigned, Header;
  }

  datatype Admission = Admitted | Equivocation | Refused

  class Transport {
    const f: Formats
    const proofSize: nat
    const h: Hash
    const local: bytes
    const session: bytes
    const role: Player
    const maxMessages: nat
    const maxBytes: nat
    var peer: Option<bytes>
    var cursor: nat
    var received: map<nat, Retained>
    var receivedBytes: int
    var equivocated: bool
    ghost var delivered: seq<(nat, bytes)>

    /** Exact accounting within both limits; a delivery at the cursor is what is retained there. */
    ghost predicate Valid()
      reads this
    {
      && receivedBytes == TotalSize(received) <= maxBytes && |received| <= maxMessages
      && (forall s | s in received ::
          if received[s].Whole? then DIGEST <= |received[s].payload| && s >= cursor else s < cursor)
      && (forall s | s in received :: peer == Some(received[s].identity))
      && (forall i | 0 <= i < |delivered| ::
            && delivered[i].0 <= cursor
            && (delivered[i].0 == cursor ==>
                  cursor in received && received[cursor].Whole? && received[cursor].payload == delivered[i].1))
      && (forall i, j | 0 <= i < |delivered| && 0 <= j < |delivered| && delivered[i].0 == delivered[j].0 ::
            delivered[i].1 == delivered[j].1)
    }

    constructor (f: Formats, proofSize: nat, h: Hash, local: bytes, session: bytes, role: Player, maxMessages: nat,
                 maxBytes: nat)
      ensures Valid() && peer == None && cursor == 0 && !equivocated && delivered == [] && received == map[]
      ensures this.local == local && this.session == session && this.role == role && this.f == f && this.h == h
      ensures this.proofSize == proofSize && this.maxMessages == maxMessages && this.maxBytes == maxBytes
    {
      this.f, this.proofSize, this.h, this.local, this.session, this.role := f, proofSize, h, local, session, role;
      this.maxMessages, this.maxBytes := maxMessages, maxBytes;
      peer, cursor, received, receivedBytes, equivocated, delivered := None, 0, map[], 0, false, [];
    }

    /** The peer named is possible, and is the one already known. */
    predicate MayPin(claimed: Option<bytes>)
      reads this`peer
    {
      claimed.None? || (claimed.value != local && f.xonly(claimed.value) && (peer.None? || peer == claimed))
    }

    /** The peer is fixed once named. */
    method Pin(claimed: Option<bytes>) returns (ok: bool)
      requires Valid()
      modifies this`peer
      ensures Valid()
      ensures ok <==> old(MayPin(claimed))
      ensures peer == if ok && claimed.Some? then claimed else old(peer)
    {
      if claimed.None? {
        return true;
      }
      if claimed.value == local || !f.xonly(claimed.value) || (peer.Some? && peer != claimed) {
        return false;
      }
      RetainedNeedsPeer(received, peer);
      peer := claimed;
      return true;
    }

    /** The author may be the peer. */
    predicate FromPeer(c: Carrier)
      reads this`peer
    {
      c.author != local && (peer.None? || c.author == peer.value)
    }

    /** The peer's message, if the carrier holds one; only a creator's joiner is met through its first message. */
    function Content(c: Carrier): (m: Option<Message>)
      reads this`peer
    {
      match Authenticate(f, proofSize, session, c)
      case None => None
      case Some(m) =>
        if m.sender == Other(role) && (peer.Some? || (m.sequence == 0 && m.kind == KeyOffer && role == Player1))
          then Some(m)
        else None
    }

    predicate IsNew(s: nat)
      reads this`cursor, this`received
    {
      s >= cursor && s !in received
    }

    predicate Fits(c: Carrier)
      reads this`received, this`receivedBytes
    {
      |received| < maxMessages && |c.payload| <= maxBytes - receivedBytes
    }

    /** What is retained of the carrier's number is something else. */
    predicate Contradicts(c: Carrier)
      reads this`peer, this`received
    {
      && FromPeer(c) && Content(c).Some? && Content(c).value.sequence in received
      && match received[Content(c).value.sequence]
         case Whole(payload, _) => payload != c.payload
         case Consumed(digest, _) => digest != h(c.payload)
    }

    /** Neither readable nor, if new, within the limits. */
    predicate Unwelcome(c: Carrier)
      reads this`peer, this`cursor, this`received, this`receivedBytes
    {
      FromPeer(c) && (Content(c).None? || (IsNew(Content(c).value.sequence) && !Fits(c)))
    }

    /** A message not seen before, not behind the cursor and within the limits. */
    predicate Welcome(c: Carrier)
      reads this`peer, this`cursor, this`received, this`receivedBytes
    {
      FromPeer(c) && Content(c).Some? && IsNew(Content(c).value.sequence) && Fits(c)
    }

    /** What one authenticated carrier does to the cache: a welcome message is retained and fixes the peer, and nothing
        else changes what is retained. */
    method Admit(c: Carrier) returns (r: Admission)
      requires Valid()
      modifies this`peer, this`received, this`receivedBytes, this`equivocated
      ensures Valid()
      ensures equivocated == (old(equivocated) || r == Equivocation)
      ensures r == Equivocation <==> old(Contradicts(c))
      ensures r == Refused <==> old(Unwelcome(c))
      ensures received ==
        if old(Welcome(c)) then old(received)[old(Content(c).value.sequence) := Whole(c.payload, c.author)]
        else old(received)
      ensures peer == if old(Welcome(c)) then Some(c.author) else old(peer)
    {
      hide Authenticate, TotalSize;
      if c.author == local || (peer.Some? && c.author != peer.value) {
        return Admitted;
      }
      var message := Authenticate(f, proofSize, session, c);
      if message.None? || message.value.sender != Other(role) {
        return Refused;
      }
      var m := message.value;
      if peer.None? && (m.sequence != 0 || m.kind != KeyOffer || role != Player1) {
        return Refused;
      }
      if m.sequence in received {
        var same := match received[m.sequence]
          case Whole(payload, _) => payload == c.payload
          case Consumed(digest, _) => digest == h(c.payload);
        if !same {
          equivocated := true;
          return Equivocation;
        }
        return Admitted;
      }
      if m.sequence < cursor {
        return Admitted;
      }
      if |received| >= maxMessages || |c.payload| > maxBytes - receivedBytes {
        return Refused;
      }
      AuthenticIsLong(f, proofSize, session, c);
      TotalUpdated(received, m.sequence, Whole(c.payload, c.author));
      RetainedNeedsPeer(received, peer);
      received := received[m.sequence := Whole(c.payload, c.author)];
      receivedBytes := receivedBytes + |c.payload|;
      peer := Some(c.author);
      return Admitted;
    }

    /** Forgets the payloads behind the cursor, keeping their digests. */
    method Consume()
      requires receivedBytes == TotalSize(received) <= maxBytes && |received| <= maxMessages
      requires forall s | s in received :: received[s].Whole? ==> DIGEST <= |received[s].payload|
      modifies this`received, this`receivedBytes
      ensures receivedBytes == TotalSize(received) <= old(receivedBytes) && received.Keys == old(received.Keys)
      ensures forall s | s in received :: received[s].identity == old(received)[s].identity
      ensures forall s | s in received && (s >= cursor || old(received)[s].Consumed?) :: received[s] == old(received)[s]
      ensures forall s | s in received && s < cursor && old(received)[s].Whole? ::
        received[s].Consumed? && received[s].digest == h(old(received)[s].payload)
    {
      hide TotalSize, Behind;
      var left, done := received.Keys, {};
      BehindNone(received, cursor, h);
      while left != {}
        invariant left !! done && left + done == old(received.Keys)
        invariant received == Behind(old(received), cursor, h, done)
        invariant receivedBytes == TotalSize(received) <= old(receivedBytes)
        decreases |left|
      {
        var s :| s in left;
        BehindNext(old(received), cursor, h, done, s);
        if s < cursor && received[s].Whole? {
          TotalUpdated(received, s, Consumed(h(received[s].payload), received[s].identity));
          receivedBytes := receivedBytes - |received[s].payload|;
          receivedBytes := receivedBytes + DIGEST;
          received := received[s := Consumed(h(received[s].payload), received[s].identity)];
        }
        left, done := left - {s}, done + {s};
      }
      assert done == old(received.Keys);
      BehindAll(old(received), cursor, h);
    }

    /** The payload cached at the cursor. */
    method Cached() returns (d: Option<(bytes, bytes)>)
      requires Valid()
      modifies this`delivered
      ensures Valid()
      ensures d.Some? <==> cursor in received && received[cursor].Whole?
      ensures d.Some? ==> d.value == (received[cursor].identity, received[cursor].payload)
      ensures delivered == old(delivered) + (if d.Some? then [(cursor, d.value.1)] else [])
    {
      hide TotalSize;
      if cursor in received && received[cursor].Whole? {
        var item := received[cursor];
        forall i | 0 <= i < |delivered| && delivered[i].0 == cursor
          ensures delivered[i].1 == item.payload
        {
        }
        delivered := delivered + [(cursor, item.payload)];
        return Some((item.identity, item.payload));
      }
      return None;
    }

    /** The number may be asked for: none before it may be asked for again, and the unknown peer's first
        message first. */
    predicate MayAsk(request: nat, claimed: Option<bytes>)
      reads this
    {
      !equivocated && MayPin(claimed) && request >= cursor && (peer.Some? || claimed.Some? || request == 0)
    }

    predicate Holds(s: nat, payload: bytes)
      reads this`received
    {
      s in received && received[s].Whole? && received[s].payload == payload
    }

    /** The carrier is not the peer's, or it is the peer's message under another number and is kept unless behind
        the cursor. */
    predicate Passed(c: Carrier)
      reads this`peer, this`cursor, this`received
    {
      FromPeer(c) ==>
        && Content(c).Some? && Content(c).value.sequence != cursor
        && (Content(c).value.sequence > cursor ==> Holds(Content(c).value.sequence, c.payload))
    }

    predicate Skipped(f: Frame)
      reads this`peer, this`cursor, this`received
    {
      f.Ignored? || (f.Carried? && Passed(f.c))
    }

    predicate AllSkipped(frames: seq<Frame>, n: nat)
      requires n <= |frames|
      reads this`peer, this`cursor, this`received
    {
      forall k | 0 <= k < n :: Skipped(frames[k])
    }

    /** The frame ends the wait with an error. */
    predicate Stops(f: Frame)
      reads this`peer, this`cursor, this`received, this`receivedBytes
    {
      f.Malformed? || (f.Carried? && (Contradicts(f.c) || Unwelcome(f.c)))
    }

    /** Takes in one frame while the number at the cursor is missing. */
    method Hear(frame: Frame) returns (ok: bool)
      requires Valid() && !equivocated && cursor !in received
      modifies this`peer, this`received, this`receivedBytes, this`equivocated
      ensures Valid() && (equivocated ==> !ok) && (ok <==> !old(Stops(frame))) && (!ok ==> Stops(frame))
      ensures old(peer).Some? ==> peer == old(peer)
      ensures cursor in received ==>
        ok && peer == Some(received[cursor].identity) && received[cursor].Whole?
          && frame == Carried(Carrier(received[cursor].identity, received[cursor].payload))
      ensures ok && cursor !in received ==> peer == old(peer) && Skipped(frame)
      ensures forall f | old(Skipped(f)) :: Skipped(f)
    {
      hide TotalSize, Authenticate, Content;
      match frame {
        case Malformed =>
          return false;
        case Ignored =>
          return true;
        case Carried(c) =>
          FirstContent(c);
          var r := Admit(c);
          ok := r == Admitted;
      }
    }

    lemma FirstContent(c: Carrier)
      ensures peer.None? && Content(c).Some? ==> Content(c).value.sequence == 0
    {
      hide Authenticate;
    }

    /** Hears frames until the number at the cursor is there. */
    method Listen(frames: seq<Frame>) returns (ok: bool, d: Option<(bytes, bytes)>)
      requires Valid() && !equivocated && cursor !in received
      modifies this`peer, this`received, this`receivedBytes, this`equivocated, this`delivered
      ensures Valid() && (equivocated ==> !ok)
      ensures old(peer).Some? ==> peer == old(peer)
      ensures d.Some? ==> ok && peer == Some(d.value.0) && delivered == old(delivered) + [(cursor, d.value.1)]
      ensures d.None? ==> delivered == old(delivered)
      ensures d.Some? ==>
        exists k: nat :: k < |frames| && frames[k] == Carried(Carrier(d.value.0, d.value.1)) && AllSkipped(frames, k)
      ensures ok && d.None? ==> AllSkipped(frames, |frames|)
      ensures !ok ==> exists k: nat :: k < |frames| && Stops(frames[k]) && AllSkipped(frames, k)
    {
      hide TotalSize, Authenticate, Content, Stops, Skipped, Valid;
      d := None;
      var i := 0;
      while i < |frames|
        invariant 0 <= i <= |frames| && Valid() && !equivocated && cursor !in received
        invariant peer == old(peer) && delivered == old(delivered)
        invariant AllSkipped(frames, i)
      {
        var heard := Hear(frames[i]);
        if !heard {
          return false, None;
        }
        d := Cached();
        if d.Some? {
          return true, d;
        }
        i := i + 1;
      }
      return true, None;
    }

    /** Waits for one sequence number. `frames` is what arrives before the wait ends. A retained message is delivered
        at once; otherwise the first of the peer's with that number is; and the wait fails only over a frame that
        stops it. */
    method Receive(request: nat, claimed: Option<bytes>, frames: seq<Frame>)
      returns (ok: bool, d: Option<(bytes, bytes)>)
      requires Valid()
      modifies this
      ensures Valid() && old(cursor) <= cursor
      ensures old(peer).Some? ==> peer == old(peer)
      ensures old(equivocated) ==> equivocated && !ok
      ensures equivocated && !old(equivocated) ==> !ok
      ensures d.Some? ==> ok && peer == Some(d.value.0) && delivered == old(delivered) + [(request, d.value.1)]
      ensures d.None? ==> delivered == old(delivered)
      ensures !old(MayAsk(request, claimed)) ==> !ok && received == old(received) && cursor == old(cursor)
      ensures old(MayAsk(request, claimed)) ==> cursor == request
      ensures old(MayAsk(request, claimed)) && request in old(received) ==>
        ok && d == Some((old(received)[request].identity, old(received)[request].payload))
      ensures d.Some? && request !in old(received) ==>
        exists k: nat :: k < |frames| && frames[k] == Carried(Carrier(d.value.0, d.value.1)) && AllSkipped(frames, k)
      ensures ok && d.None? ==> AllSkipped(frames, |frames|)
      ensures !ok && old(MayAsk(request, claimed)) ==>
        exists k: nat :: k < |frames| && Stops(frames[k]) && AllSkipped(frames, k)
    {
      hide TotalSize, Authenticate, Content, Stops, Skipped;
      if equivocated {
        return false, None;
      }
      var pinned := Pin(claimed);
      if !pinned {
        return false, None;
      }
      if request < cursor || (peer.None? && request != 0) {
        return false, None;
      }
      CursorMoves(request);
      d := Cached();
      if d.Some? {
        return true, d;
      }
      ok, d := Listen(frames);
    }

    /** Asking for a later message consumes the earlier ones. */
    method CursorMoves(request: nat)
      requires Valid() && request >= cursor
      modifies this`cursor, this`received, this`receivedBytes
      ensures Valid() && cursor == request && received.Keys == old(received.Keys)
      ensures forall s | s in received && s >= request :: received[s] == old(received)[s]
    {
      hide TotalSize;
      ghost var before := cursor;
      cursor := request;
      Consume();
      if before == request {
        assert forall s | s in received :: received[s] == old(received)[s];
      }
      assert |received| == |received.Keys| == |old(received).Keys| == |old(received)|;
    }

    /** Reopening keeps the pin and the cache. A joiner must name the creator. */
    method Open(claimed: Option<bytes>) returns (ok: bool)
      requires Valid()
      modifies this`peer
      ensures Valid() && (old(peer).Some? ==> peer == old(peer))
      ensures ok ==> !equivocated && (role == Player2 ==> peer.Some?)
    {
      ok := Pin(claimed);
      if !ok || (role == Player2 && peer.None?) || equivocated {
        return false;
      }
    }

    /** Any use of one transport: for each sequence number one payload at most, and after an equivocation
        nothing more. */
    method Use(operations: seq<Operation>)
      requires Valid()
      modifies this
      ensures Valid() && old(delivered) <= delivered && old(cursor) <= cursor
      ensures old(peer).Some? ==> peer == old(peer)
      ensures old(equivocated) ==> equivocated && delivered == old(delivered)
      ensures 0 <= receivedBytes == TotalSize(received) <= maxBytes
      ensures forall i, j | 0 <= i < |delivered| && 0 <= j < |delivered| && delivered[i].0 == delivered[j].0 ::
        delivered[i].1 == delivered[j].1
    {
      hide TotalSize;
      var n := 0;
      while n < |operations|
        invariant 0 <= n <= |operations| && Valid() && old(delivered) <= delivered && old(cursor) <= cursor
        invariant old(peer).Some? ==> peer == old(peer)
        invariant old(equivocated) ==> equivocated && delivered == old(delivered)
      {
        match operations[n] {
          case Opening(claimed) =>
            var _ := Open(claimed);
          case Receiving(request, claimed, frames) =>
            var ok, d := Receive(request, claimed, frames);
        }
        n := n + 1;
      }
    }
  }

  datatype Operation = Opening(claimed: Option<bytes>)
      | Receiving(request: nat, claimed: Option<bytes>, frames: seq<Frame>)

  lemma RetainedNeedsPeer(m: map<nat, Retained>, peer: Option<bytes>)
    requires forall s | s in m :: peer == Some(m[s].identity)
    ensures peer.None? ==> m == map[]
  {
    if m != map[] {
      var s :| s in m;
    }
  }

  lemma AuthenticIsLong(f: Formats, size: nat, session: bytes, c: Carrier)
    requires Authenticate(f, size, session, c).Some?
    ensures |c.payload| >= DIGEST
  {
    MessagesAreLong(f, size, DecodeMessage(f, size, c.payload).value, c.payload);
  }
}
