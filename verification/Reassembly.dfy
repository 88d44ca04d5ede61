/** Cutting a payload into datagrams and putting it back together, whatever the network does to them. */
module Reassembly {
  import opened Collections

  type Bytes = seq<bv8>

  const MAX_CHUNK_SIZE: int := 1400
  const MAX_CHUNK_TOTAL: int := 11_984

  /** Sender address and message id. */
  datatype Key = Key(addr: string, msgId: int)

  datatype Partial = Partial(total: int, chunks: map<int, Bytes>, nbytes: int)

  type Pending = map<Key, Partial>

  datatype Buffer = Buffer(pending: Pending, held: int)

  datatype Datagram = Datagram(key: Key, idx: int, total: int, payload: Bytes)

  // ----- Cutting ---------------------------------------------------------------------------

  /** How many pieces a payload is cut into: at least one, even for the empty payload. */
  function Pieces(payload: Bytes): (n: nat)
    ensures n >= 1
  {
    (Max(|payload|, 1) + MAX_CHUNK_SIZE - 1) / MAX_CHUNK_SIZE
  }

  function Piece(payload: Bytes, i: nat): Bytes
    requires i < Pieces(payload)
  {
    PieceInside(payload, i);
    payload[i * MAX_CHUNK_SIZE..Min((i + 1) * MAX_CHUNK_SIZE, |payload|)]
  }

  lemma PieceInside(payload: Bytes, i: nat)
    requires i < Pieces(payload)
    ensures 0 <= i * MAX_CHUNK_SIZE <= Min((i + 1) * MAX_CHUNK_SIZE, |payload|)
  {
  }

  method Split(payload: Bytes) returns (chunks: seq<Bytes>)
    ensures |chunks| == Pieces(payload)
    ensures forall i :: 0 <= i < |chunks| ==> chunks[i] == Piece(payload, i) && |chunks[i]| <= MAX_CHUNK_SIZE
  {
    chunks := [];
    var i := 0;
    while i < Max(|payload|, 1)
      invariant i == |chunks| * MAX_CHUNK_SIZE && |chunks| <= Pieces(payload)
      invariant forall j :: 0 <= j < |chunks| ==> chunks[j] == Piece(payload, j) && |chunks[j]| <= MAX_CHUNK_SIZE
    {
      PieceInside(payload, |chunks|);
      chunks := chunks + [payload[i..Min(i + MAX_CHUNK_SIZE, |payload|)]];
      i := i + MAX_CHUNK_SIZE;
    }
  }

  function JoinUpTo(payload: Bytes, n: nat): Bytes
    requires n <= Pieces(payload)
  {
    if n == 0 then [] else JoinUpTo(payload, n - 1) + Piece(payload, n - 1)
  }

  lemma {:induction false} JoinedPrefix(payload: Bytes, n: nat)
    requires n <= Pieces(payload)
    ensures JoinUpTo(payload, n) == payload[..Min(n * MAX_CHUNK_SIZE, |payload|)]
  {
    if n > 0 {
      JoinedPrefix(payload, n - 1);
      PieceInside(payload, n - 1);
    }
  }

  // ----- One message ------------------------------------------------------------------------------

  function AddChunk(p: Partial, idx: int, payload: Bytes): Partial {
    p.(chunks := p.chunks[idx := payload],
       nbytes := p.nbytes - (if idx in p.chunks then |p.chunks[idx]| else 0) + |payload|)
  }

  predicate Complete(p: Partial) { |p.chunks| == p.total }

  function JoinChunks(chunks: map<int, Bytes>, n: int): Bytes
    requires forall i :: 0 <= i < n ==> i in chunks
  {
    if n <= 0 then [] else JoinChunks(chunks, n - 1) + chunks[n - 1]
  }

  function Lengths(chunks: map<int, Bytes>): map<int, int> { map i | i in chunks :: |chunks[i]| }

  ghost predicate PartialOk(p: Partial) {
    && p.nbytes == MapSum(Lengths(p.chunks)) && 2 <= p.total <= MAX_CHUNK_TOTAL
    && (forall i :: i in p.chunks ==> 0 <= i < MAX_CHUNK_TOTAL)
  }

  lemma AddChunkCounts(p: Partial, idx: int, payload: Bytes)
    requires PartialOk(p) && 0 <= idx < MAX_CHUNK_TOTAL
    ensures PartialOk(AddChunk(p, idx, payload))
  {
    MapSumInsert(Lengths(p.chunks), idx, |payload|);
    assert Lengths(p.chunks[idx := payload]) == Lengths(p.chunks)[idx := |payload|];
  }

  // ----- The buffer ------------------------------------------------------------------------------------

  function Sizes(pending: Pending): map<Key, int> { map k | k in pending :: pending[k].nbytes }

  /** Held bytes are exactly the bytes of all partial messages, and inside the limit. */
  ghost predicate BufferOk(b: Buffer, limit: int) {
    && b.held == MapSum(Sizes(b.pending)) && 0 <= b.held <= Max(limit, 0)
    && forall k :: k in b.pending ==> PartialOk(b.pending[k])
  }

  predicate Refused(b: Buffer, d: Datagram, limit: int) {
    || d.total <= 0 || d.total > MAX_CHUNK_TOTAL || d.idx < 0 || d.idx >= d.total
    || b.held + |d.payload| > limit
  }

  function Current(b: Buffer, d: Datagram): Partial {
    if d.key in b.pending then b.pending[d.key] else Partial(d.total, map[], 0)
  }

  /** The message's partial with this datagram's piece in it. */
  function Grown(b: Buffer, d: Datagram): Partial { AddChunk(Current(b, d), d.idx, d.payload) }

  /** Joining reads every index below the total. */
  predicate Joinable(p: Partial) { forall i :: 0 <= i < p.total ==> i in p.chunks }

  /**
   The buffer after a datagram of a chunked message that was not refused. A full count with an index
   missing fails in the join, before anything is taken out.
   */
  function Stored(b: Buffer, d: Datagram): Buffer {
    var rec := Grown(b, d);
    var held := b.held + rec.nbytes - Current(b, d).nbytes;
    if Complete(rec) && Joinable(rec) then Buffer(b.pending - {d.key}, held - rec.nbytes)
    else Buffer(b.pending[d.key := rec], held)
  }

  function AfterFeed(b: Buffer, d: Datagram, limit: int): Buffer {
    if d.total == 1 || Refused(b, d, limit) then b else Stored(b, d)
  }

  datatype Outcome = Nothing | Whole(payload: Bytes) | MissingChunk

  function OutcomeOf(b: Buffer, d: Datagram, limit: int): Outcome {
    if d.total == 1 then Whole(d.payload)
    else if Refused(b, d, limit) || !Complete(Grown(b, d)) then Nothing
    else if Joinable(Grown(b, d)) then Whole(JoinChunks(Grown(b, d).chunks, Grown(b, d).total))
    else MissingChunk
  }

  lemma SizesInsert(b: Buffer, k: Key, p: Partial)
    ensures MapSum(Sizes(b.pending[k := p])) == MapSum(Sizes(b.pending)) + p.nbytes
              - (if k in b.pending then b.pending[k].nbytes else 0)
  {
    MapSumInsert(Sizes(b.pending), k, p.nbytes);
    assert Sizes(b.pending[k := p]) == Sizes(b.pending)[k := p.nbytes];
  }

  lemma SizesRemove(pending: Pending, k: Key)
    requires k in pending
    ensures MapSum(Sizes(pending - {k})) == MapSum(Sizes(pending)) - pending[k].nbytes
  {
    MapSumRemove(Sizes(pending), k);
    assert Sizes(pending - {k}) == Sizes(pending) - {k};
  }

  lemma {:induction false} LengthsNonNegative(chunks: map<int, Bytes>)
    ensures 0 <= MapSum(Lengths(chunks))
  {
    MapSumNonNegative(Lengths(chunks));
  }

  lemma BytesNonNegative(pending: Pending)
    requires forall k :: k in pending ==> PartialOk(pending[k])
    ensures 0 <= MapSum(Sizes(pending))
  {
    forall k | k in pending
      ensures 0 <= pending[k].nbytes
    {
      LengthsNonNegative(pending[k].chunks);
    }
    MapSumNonNegative(Sizes(pending));
  }

  lemma GrownCounts(b: Buffer, d: Datagram, limit: int)
    requires BufferOk(b, limit) && d.total != 1 && !Refused(b, d, limit)
    ensures PartialOk(Grown(b, d)) && PartialOk(Current(b, d))
    ensures Grown(b, d).nbytes - Current(b, d).nbytes <= |d.payload|
  {
    assert Lengths(map[]) == map[];
    AddChunkCounts(Current(b, d), d.idx, d.payload);
  }

  function Put(b: Buffer, k: Key, p: Partial): Buffer {
    Buffer(b.pending[k := p], b.held + p.nbytes - (if k in b.pending then b.pending[k].nbytes else 0))
  }

  function Drop(b: Buffer, k: Key): Buffer
    requires k in b.pending
  {
    Buffer(b.pending - {k}, b.held - b.pending[k].nbytes)
  }

  lemma PutKeeps(b: Buffer, k: Key, p: Partial, limit: int)
    requires BufferOk(b, limit) && PartialOk(p) && Put(b, k, p).held <= limit
    ensures BufferOk(Put(b, k, p), limit)
  {
    hide PartialOk;
    SizesInsert(b, k, p);
    BytesNonNegative(Put(b, k, p).pending);
  }

  lemma DropKeeps(b: Buffer, k: Key, limit: int)
    requires BufferOk(b, limit) && k in b.pending
    ensures BufferOk(Drop(b, k), limit)
  {
    GrownIsNonNegative(b.pending[k]);
    hide PartialOk;
    SizesRemove(b.pending, k);
    BytesNonNegative(Drop(b, k).pending);
  }

  lemma StoredIsPutThenDrop(b: Buffer, d: Datagram)
    ensures var put := Put(b, d.key, Grown(b, d));
            Stored(b, d) == if Complete(Grown(b, d)) && Joinable(Grown(b, d)) then Drop(put, d.key) else put
  {
    var rec := Grown(b, d);
    hide Grown, Complete, Joinable, AddChunk;
    assert b.pending[d.key := rec] - {d.key} == b.pending - {d.key};
  }

  /** Accounting is exact through every datagram, whoever sent it and whatever it claims. */
  lemma FeedKeepsBuffer(b: Buffer, d: Datagram, limit: int)
    requires BufferOk(b, limit)
    ensures BufferOk(AfterFeed(b, d, limit), limit)
  {
    if d.total != 1 && !Refused(b, d, limit) {
      GrownCounts(b, d, limit);
      StoredIsPutThenDrop(b, d);
      hide BufferOk, PartialOk, Stored, Grown, Complete, Joinable, AddChunk;
      PutKeeps(b, d.key, Grown(b, d), limit);
      if Complete(Grown(b, d)) && Joinable(Grown(b, d)) {
        DropKeeps(Put(b, d.key, Grown(b, d)), d.key, limit);
      }
    }
  }

  lemma GrownIsNonNegative(p: Partial)
    requires PartialOk(p)
    ensures p.nbytes >= 0
  {
    LengthsNonNegative(p.chunks);
  }

  /** Dropping any messages gives back exactly their bytes. */
  lemma EvictKeepsBuffer(b: Buffer, stale: set<Key>, limit: int)
    requires BufferOk(b, limit)
    ensures BufferOk(Evicted(b, stale), limit)
  {
    var after := Evicted(b, stale);
    BytesNonNegative(after.pending);
    forall k | k in b.pending
      ensures 0 <= b.pending[k].nbytes
    {
      LengthsNonNegative(b.pending[k].chunks);
    }
    PartOfSum(Sizes(b.pending), stale);
    assert Sizes(after.pending) == Sizes(b.pending) - stale;
  }

  lemma {:induction false} PartOfSum(m: map<Key, int>, drop: set<Key>)
    requires forall k :: k in m ==> 0 <= m[k]
    ensures MapSum(m - drop) <= MapSum(m)
    decreases drop
  {
    if drop == {} {
      assert m - drop == m;
    } else {
      var k :| k in drop;
      PartOfSum(m, drop - {k});
      var less := m - (drop - {k});
      assert m - drop == less - {k};
      if k in less {
        MapSumRemove(less, k);
      } else {
        assert less - {k} == less;
      }
    }
  }

  ghost function Evicted(b: Buffer, stale: set<Key>): Buffer {
    var rest := b.pending - stale;
    Buffer(rest, MapSum(Sizes(rest)))
  }

  // ----- Faithful delivery ----------------------------------------------------------------------------

  /** A datagram carrying piece `idx` of this payload, under the count its cutting gave. */
  predicate Genuine(payload: Bytes, d: Datagram) {
    d.total == Pieces(payload) && 0 <= d.idx < d.total && d.payload == Piece(payload, d.idx)
  }

  /** What is stored for the message is pieces of the payload, and not all of them. */
  ghost predicate Collecting(b: Buffer, k: Key, payload: Bytes) {
    k in b.pending ==>
      && b.pending[k].total == Pieces(payload)
      && (forall i :: i in b.pending[k].chunks ==> 0 <= i < Pieces(payload) && b.pending[k].chunks[i] == Piece(payload, i))
      && !(forall i :: 0 <= i < Pieces(payload) ==> i in b.pending[k].chunks)
  }

  ghost predicate Missing(b: Buffer, k: Key, payload: Bytes, i: int) {
    0 <= i < Pieces(payload) && (k !in b.pending || i !in b.pending[k].chunks)
  }

  function Range(n: nat): (r: set<int>)
    ensures |r| == n && forall i :: i in r <==> 0 <= i < n
  {
    if n == 0 then {} else Range(n - 1) + {n - 1}
  }

  lemma CountRange(s: set<int>, n: nat)
    requires forall i :: i in s ==> 0 <= i < n
    ensures |s| == n <==> forall i :: 0 <= i < n ==> i in s
  {
    SubsetSize(s, Range(n));
    if forall i :: 0 <= i < n ==> i in s {
      assert s == Range(n);
    }
  }

  lemma SubsetSize(s: set<int>, t: set<int>)
    requires s <= t
    ensures |s| <= |t| && (|s| == |t| ==> s == t)
  {
    assert t == s + (t - s);
    assert |t| == |s| + |t - s|;
  }

  lemma {:induction false} JoinOfPieces(payload: Bytes, chunks: map<int, Bytes>, n: nat)
    requires n <= Pieces(payload) && forall i :: 0 <= i < n ==> i in chunks && chunks[i] == Piece(payload, i)
    ensures JoinChunks(chunks, n) == JoinUpTo(payload, n)
  {
    if n > 0 {
      JoinOfPieces(payload, chunks, n - 1);
    }
  }

  lemma GenuineGrown(b: Buffer, d: Datagram, payload: Bytes)
    requires Collecting(b, d.key, payload) && Genuine(payload, d)
    ensures Grown(b, d).total == Pieces(payload)
    ensures forall i :: i in Grown(b, d).chunks ==> 0 <= i < Pieces(payload) && Grown(b, d).chunks[i] == Piece(payload, i)
    ensures Joinable(Grown(b, d)) <==> forall i :: Missing(b, d.key, payload, i) ==> i == d.idx
    ensures Complete(Grown(b, d)) <==> Joinable(Grown(b, d))
  {
    var rec := Grown(b, d);
    CountRange(rec.chunks.Keys, Pieces(payload));
    forall i | 0 <= i < Pieces(payload)
      ensures i in rec.chunks <==> !Missing(b, d.key, payload, i) || i == d.idx
    {
    }
  }

  /**
   One datagram of a chunked message. It yields something exactly when it is accepted and every other
   piece is already stored; what it yields is the payload, and it never fails; otherwise the message
   goes on being collected.
   */
  lemma GenuineStep(b: Buffer, d: Datagram, payload: Bytes, limit: int)
    requires Collecting(b, d.key, payload) && Genuine(payload, d) && Pieces(payload) > 1
    ensures OutcomeOf(b, d, limit) ==
              if !Refused(b, d, limit) && forall i :: Missing(b, d.key, payload, i) ==> i == d.idx then Whole(payload)
              else Nothing
    ensures Collecting(AfterFeed(b, d, limit), d.key, payload)
  {
    GenuineGrown(b, d, payload);
    var rec := Grown(b, d);
    if Joinable(rec) {
      JoinOfPieces(payload, rec.chunks, rec.total);
      JoinedPrefix(payload, rec.total);
      assert payload[..|payload|] == payload;
    }
  }

  /** Datagrams of other messages, and evictions, do not touch this one except to forget it whole. */
  lemma OthersLeaveItAlone(b: Buffer, d: Datagram, k: Key, payload: Bytes, limit: int, stale: set<Key>)
    requires Collecting(b, k, payload)
    ensures d.key != k ==> Collecting(AfterFeed(b, d, limit), k, payload)
    ensures Collecting(Evicted(b, stale), k, payload)
  {
  }

  datatype Event = Arrives(d: Datagram) | Ages(stale: set<Key>)

  ghost function After(b: Buffer, e: Event, limit: int): Buffer {
    match e
    case Arrives(d) => AfterFeed(b, d, limit)
    case Ages(stale) => Evicted(b, stale)
  }

  ghost function RunEvents(b: Buffer, es: seq<Event>, limit: int): Buffer
    decreases es
  {
    if es == [] then b else RunEvents(After(b, es[0], limit), es[1..], limit)
  }

  /**
   Whatever arrives, in any order, lost or repeated, from anyone, and whatever is evicted: the byte
   count stays exact and bounded, and the message named `k`, all of whose datagrams are genuine, is at
   every point a proper part of its payload.
   */
  lemma {:induction false} CollectingAlways(b: Buffer, es: seq<Event>, k: Key, payload: Bytes, limit: int)
    requires BufferOk(b, limit) && Collecting(b, k, payload) && Pieces(payload) > 1
    requires forall e :: e in es && e.Arrives? && e.d.key == k ==> Genuine(payload, e.d)
    ensures BufferOk(RunEvents(b, es, limit), limit) && Collecting(RunEvents(b, es, limit), k, payload)
    decreases es
  {
    if es != [] {
      assert es[0] in es && forall e :: e in es[1..] ==> e in es;
      match es[0] {
        case Arrives(d) =>
          FeedKeepsBuffer(b, d, limit);
          if d.key == k {
            GenuineStep(b, d, payload, limit);
          } else {
            OthersLeaveItAlone(b, d, k, payload, limit, {});
          }
        case Ages(stale) =>
          EvictKeepsBuffer(b, stale, limit);
          OthersLeaveItAlone(b, Datagram(k, 0, 0, []), k, payload, limit, stale);
      }
      CollectingAlways(After(b, es[0], limit), es[1..], k, payload, limit);
    }
  }

  // ----- Messages whose datagrams disagree ------------------------------------------------------------

  /** Every stored index is below the total the partial was opened with. */
  ghost predicate InRange(b: Buffer, k: Key, n: int) {
    k in b.pending ==> b.pending[k].total == n && |b.pending[k].chunks| < n
                       && forall i :: i in b.pending[k].chunks ==> 0 <= i < n
  }

  /** When all datagrams of a message carry one count, the join never meets a missing index, whatever they hold. */
  lemma {:induction false} OneCountNeverFails(b: Buffer, es: seq<Event>, d: Datagram, limit: int)
    requires InRange(b, d.key, d.total) && d.total > 1
    requires forall e :: e in es && e.Arrives? && e.d.key == d.key ==> e.d.total == d.total
    ensures InRange(RunEvents(b, es, limit), d.key, d.total)
    ensures OutcomeOf(RunEvents(b, es, limit), d, limit) != MissingChunk
    decreases es
  {
    if es == [] {
      InRangeJoins(b, d, limit);
    } else {
      assert es[0] in es && forall e :: e in es[1..] ==> e in es;
      if es[0].Arrives? && es[0].d.key == d.key {
        InRangeJoins(b, es[0].d, limit);
      }
      OneCountNeverFails(After(b, es[0], limit), es[1..], d, limit);
    }
  }

  lemma InRangeJoins(b: Buffer, d: Datagram, limit: int)
    requires InRange(b, d.key, d.total) && d.total > 1
    ensures OutcomeOf(b, d, limit) != MissingChunk
    ensures InRange(AfterFeed(b, d, limit), d.key, d.total)
  {
    if !Refused(b, d, limit) {
      var rec := Grown(b, d);
      CountRange(rec.chunks.Keys, d.total);
      SubsetSize(rec.chunks.Keys, Range(d.total));
    }
  }

  /**
   The join fails on exactly the datagrams that fill the count while an index at or above the partial's
   own total is held: the count is then full and some index below the total is missing.
   */
  lemma JoinFailsIff(b: Buffer, d: Datagram, limit: int)
    requires BufferOk(b, limit)
    ensures OutcomeOf(b, d, limit) == MissingChunk <==>
              && d.total != 1 && !Refused(b, d, limit) && Complete(Grown(b, d))
              && exists i :: i in Grown(b, d).chunks && i >= Grown(b, d).total
  {
    if d.total != 1 && !Refused(b, d, limit) && Complete(Grown(b, d)) {
      FullWithoutStrayJoins(Grown(b, d));
    }
  }

  lemma FullWithoutStrayJoins(p: Partial)
    requires p.total >= 0 && Complete(p) && forall i :: i in p.chunks ==> 0 <= i
    ensures Joinable(p) <==> forall i :: i in p.chunks ==> i < p.total
  {
    if forall i :: i in p.chunks ==> i < p.total {
      CountRange(p.chunks.Keys, p.total);
    } else if Joinable(p) {
      var i :| i in p.chunks && i >= p.total;
      SubsetSize(Range(p.total) + {i}, p.chunks.Keys);
    }
  }

  // ----- The same over whole runs, in terms of the datagrams alone ------------------------------------------

  predicate Accepted(b: Buffer, d: Datagram, limit: int) { d.total != 1 && !Refused(b, d, limit) }

  /** The datagrams accepted for a message since it was last opened, oldest first. */
  function LogAfter(log: seq<Datagram>, b: Buffer, e: Event, k: Key, limit: int): seq<Datagram> {
    match e
    case Arrives(d) =>
      if d.key != k || !Accepted(b, d, limit) then log
      else if Complete(Grown(b, d)) && Joinable(Grown(b, d)) then []
      else log + [d]
    case Ages(stale) => if k in stale then [] else log
  }

  ghost function RunLog(log: seq<Datagram>, b: Buffer, es: seq<Event>, k: Key, limit: int): seq<Datagram>
    decreases es
  {
    if es == [] then log
    else RunLog(LogAfter(log, b, es[0], k, limit), After(b, es[0], limit), es[1..], k, limit)
  }

  function Indices(log: seq<Datagram>): set<int> { set d | d in log :: d.idx }

  /** Some datagram's index is at or above the total the message was opened with. */
  predicate Stray(log: seq<Datagram>) { log != [] && exists d :: d in log && d.idx >= log[0].total }

  /** A partial holds the indices of the datagrams accepted since it was opened, under the first one's total. */
  ghost predicate LogFits(b: Buffer, k: Key, log: seq<Datagram>) {
    && (k in b.pending <==> log != [])
    && (log != [] ==>
          && log[0].idx < log[0].total && b.pending[k].total == log[0].total && b.pending[k].chunks.Keys == Indices(log)
          && !(Complete(b.pending[k]) && Joinable(b.pending[k])))
  }

  lemma GrownLogs(b: Buffer, d: Datagram, log: seq<Datagram>, limit: int)
    requires LogFits(b, d.key, log) && Accepted(b, d, limit)
    ensures Grown(b, d).total == (log + [d])[0].total
    ensures Grown(b, d).chunks.Keys == Indices(log + [d])
  {
    assert Indices(log + [d]) == Indices(log) + {d.idx} by {
      assert forall x :: x in log + [d] <==> x in log || x == d;
    }
  }

  lemma LogStays(b: Buffer, e: Event, k: Key, log: seq<Datagram>, limit: int)
    requires LogFits(b, k, log)
    ensures LogFits(After(b, e, limit), k, LogAfter(log, b, e, k, limit))
  {
    if e.Arrives? && e.d.key == k && Accepted(b, e.d, limit) {
      GrownLogs(b, e.d, log, limit);
    }
  }

  lemma {:induction false} LogAlways(b: Buffer, es: seq<Event>, k: Key, log: seq<Datagram>, limit: int)
    requires BufferOk(b, limit) && LogFits(b, k, log)
    ensures BufferOk(RunEvents(b, es, limit), limit)
    ensures LogFits(RunEvents(b, es, limit), k, RunLog(log, b, es, k, limit))
    decreases es
  {
    if es != [] {
      LogStays(b, es[0], k, log, limit);
      match es[0] {
        case Arrives(d) => FeedKeepsBuffer(b, d, limit);
        case Ages(stale) => EvictKeepsBuffer(b, stale, limit);
      }
      LogAlways(After(b, es[0], limit), es[1..], k, LogAfter(log, b, es[0], k, limit), limit);
    }
  }

  /**
   After any run, from a buffer where the message is not open: an accepted datagram makes the join fail
   exactly when it completes the opening datagram's count and some datagram since the opening, this one
   included, carries an index at or above that count; it delivers exactly when it completes the count and
   none does.
   */
  lemma RunFailsIff(b: Buffer, es: seq<Event>, d: Datagram, limit: int)
    requires BufferOk(b, limit) && d.key !in b.pending && d.total != 1
    ensures var end := RunEvents(b, es, limit);
            var log := RunLog([], b, es, d.key, limit) + [d];
            && (OutcomeOf(end, d, limit) == MissingChunk <==>
                  Accepted(end, d, limit) && |Indices(log)| == log[0].total && Stray(log))
            && (OutcomeOf(end, d, limit).Whole? <==>
                  Accepted(end, d, limit) && |Indices(log)| == log[0].total && !Stray(log))
  {
    var end := RunEvents(b, es, limit);
    LogAlways(b, es, d.key, [], limit);
    var log := RunLog([], b, es, d.key, limit);
    if Accepted(end, d, limit) {
      GrownLogs(end, d, log, limit);
      JoinFailsIff(end, d, limit);
      StrayIsHeld(log + [d], Grown(end, d));
    }
  }

  lemma StrayIsHeld(log: seq<Datagram>, p: Partial)
    requires log != [] && p.total == log[0].total && p.chunks.Keys == Indices(log)
    ensures Stray(log) <==> exists i :: i in p.chunks && i >= p.total
  {
    if i :| i in p.chunks && i >= p.total {
      assert i in Indices(log);
    }
    if Stray(log) {
      var d :| d in log && d.idx >= log[0].total;
      assert d.idx in Indices(log);
    }
  }

  /** Every datagram of the message carries this count. */
  predicate OneCount(es: seq<Event>, k: Key, n: int) {
    forall e :: e in es && e.Arrives? && e.d.key == k ==> e.d.total == n
  }

  /** Some continuation, all of whose datagrams carry the opening datagram's count, makes the join fail. */
  ghost predicate FailsLater(b: Buffer, k: Key, n: int, limit: int) {
    exists more: seq<Event>, d: Datagram ::
      && OneCount(more, k, n) && d.key == k && d.total == n
      && OutcomeOf(RunEvents(b, more, limit), d, limit) == MissingChunk
  }

  /**
   An open message can still fail, though every later datagram agree with the opening one on the count,
   exactly when one already accepted carries an index at or above it.
   */
  lemma CanFailIff(b: Buffer, es: seq<Event>, k: Key, limit: int)
    requires BufferOk(b, limit) && k !in b.pending && limit >= 0
    requires RunLog([], b, es, k, limit) != []
    requires |Indices(RunLog([], b, es, k, limit))| <= RunLog([], b, es, k, limit)[0].total
    ensures FailsLater(RunEvents(b, es, limit), k, RunLog([], b, es, k, limit)[0].total, limit)
            <==> Stray(RunLog([], b, es, k, limit))
  {
    var end, log := RunEvents(b, es, limit), RunLog([], b, es, k, limit);
    LogAlways(b, es, k, [], limit);
    StrayIsHeld(log, end.pending[k]);
    if Stray(log) {
      assert log[0].idx in Indices(log);
      StrayFails(end, k, log[0].idx, limit);
    } else {
      NoStrayInRange(end, k, log);
      forall more: seq<Event>, d: Datagram | OneCount(more, k, log[0].total) && d.key == k && d.total == log[0].total
        ensures OutcomeOf(RunEvents(end, more, limit), d, limit) != MissingChunk
      {
        OneCountNeverFails(end, more, d, limit);
      }
    }
  }

  /** Until it is evicted, a message with such an index is never delivered, and one past its count does not fail either. */
  lemma StrayIsStuck(b: Buffer, d: Datagram, log: seq<Datagram>, limit: int)
    requires BufferOk(b, limit) && LogFits(b, d.key, log) && Stray(log) && d.total != 1
    ensures !OutcomeOf(b, d, limit).Whole? && Stray(LogAfter(log, b, Arrives(d), d.key, limit))
    ensures |Indices(log)| > log[0].total ==>
              && OutcomeOf(b, d, limit) == Nothing
              && |Indices(LogAfter(log, b, Arrives(d), d.key, limit))| > log[0].total
  {
    if Accepted(b, d, limit) {
      GrownLogs(b, d, log, limit);
      JoinFailsIff(b, d, limit);
      StrayIsHeld(log + [d], Grown(b, d));
      var x :| x in log && x.idx >= log[0].total;
      assert x in log + [d] && (log + [d])[0] == log[0];
      assert Indices(log) <= Indices(log + [d]);
      SubsetSize(Indices(log), Indices(log + [d]));
    }
  }

  lemma NoStrayInRange(b: Buffer, k: Key, log: seq<Datagram>)
    requires LogFits(b, k, log) && log != [] && PartialOk(b.pending[k])
    requires |Indices(log)| <= log[0].total && !exists i :: i in b.pending[k].chunks && i >= b.pending[k].total
    ensures InRange(b, k, log[0].total)
  {
    if Complete(b.pending[k]) {
      FullWithoutStrayJoins(b.pending[k]);
    }
  }

  lemma FailsEarlier(b: Buffer, d: Datagram, n: int, limit: int)
    requires d.total == n && FailsLater(AfterFeed(b, d, limit), d.key, n, limit)
    ensures FailsLater(b, d.key, n, limit)
  {
    var after := AfterFeed(b, d, limit);
    hide AfterFeed, OutcomeOf;
    var more: seq<Event>, last: Datagram :| OneCount(more, d.key, n) && last.key == d.key && last.total == n
      && OutcomeOf(RunEvents(after, more, limit), last, limit) == MissingChunk;
    assert ([Arrives(d)] + more)[1..] == more;
    assert OneCount([Arrives(d)] + more, d.key, n);
  }

  lemma FailsNow(b: Buffer, d: Datagram, limit: int)
    requires OutcomeOf(b, d, limit) == MissingChunk
    ensures FailsLater(b, d.key, d.total, limit)
  {
    hide OutcomeOf;
    assert OneCount([], d.key, d.total);
    assert RunEvents(b, [], limit) == b;
  }

  ghost predicate HoldsStray(p: Partial) { exists i :: i in p.chunks && i >= p.total }

  /** The missing indices below the count arrive, empty, until the count is full. */
  lemma {:induction false} StrayFails(b: Buffer, k: Key, held: int, limit: int)
    requires BufferOk(b, limit) && limit >= 0 && k in b.pending
    requires held in b.pending[k].chunks && held < b.pending[k].total && |b.pending[k].chunks| <= b.pending[k].total
    requires HoldsStray(b.pending[k])
    ensures FailsLater(b, k, b.pending[k].total, limit)
    decreases b.pending[k].total - |b.pending[k].chunks|
  {
    var p := b.pending[k];
    var idx := held;
    if |p.chunks| < p.total {
      idx := SomeMissing(p);
    }
    var d := Datagram(k, idx, p.total, []);
    EmptyPiece(b, d, limit);
    if |p.chunks| < p.total - 1 {
      FeedKeepsBuffer(b, d, limit);
      hide BufferOk, AfterFeed, OutcomeOf, FailsLater, HoldsStray;
      StrayFails(AfterFeed(b, d, limit), k, held, limit);
      FailsEarlier(b, d, p.total, limit);
    } else {
      FailsNow(b, d, limit);
    }
  }

  /** An empty piece below the count is accepted; it completes the count, and fails the join, or is stored. */
  lemma EmptyPiece(b: Buffer, d: Datagram, limit: int)
    requires BufferOk(b, limit) && limit >= 0 && d.key in b.pending && d.payload == []
    requires 0 <= d.idx < d.total && d.total == b.pending[d.key].total && HoldsStray(b.pending[d.key])
    ensures var p := b.pending[d.key];
            var n := |p.chunks.Keys + {d.idx}|;
            && n == |p.chunks| + (if d.idx in p.chunks then 0 else 1)
            && (n == p.total ==> OutcomeOf(b, d, limit) == MissingChunk)
            && (n != p.total ==>
                  && d.key in AfterFeed(b, d, limit).pending
                  && AfterFeed(b, d, limit).pending[d.key].total == p.total
                  && AfterFeed(b, d, limit).pending[d.key].chunks.Keys == p.chunks.Keys + {d.idx}
                  && HoldsStray(AfterFeed(b, d, limit).pending[d.key]))
  {
    var p, rec := b.pending[d.key], Grown(b, d);
    assert rec.chunks.Keys == p.chunks.Keys + {d.idx};
    var i :| i in p.chunks && i >= p.total;
    assert i in rec.chunks;
    JoinFailsIff(b, d, limit);
    if d.idx in p.chunks {
      assert p.chunks.Keys + {d.idx} == p.chunks.Keys;
    }
  }

  lemma SomeMissing(p: Partial) returns (idx: int)
    requires 0 <= |p.chunks| < p.total
    ensures 0 <= idx < p.total && idx !in p.chunks
  {
    if forall i :: 0 <= i < p.total ==> i in p.chunks {
      SubsetSize(Range(p.total), p.chunks.Keys);
    }
    idx :| 0 <= idx < p.total && idx !in p.chunks;
  }

  // ----- The reassembler --------------------------------------------------------------------------------

  class Reassembler {
    var pending: Pending
    var held: int
    const limit: int

    ghost function Value(): Buffer
      reads this
    {
      Buffer(pending, held)
    }

    ghost predicate Valid()
      reads this
    {
      BufferOk(Value(), limit)
    }

    constructor (maxBytes: int)
      ensures Valid() && limit == maxBytes && pending == map[]
    {
      pending, held, limit := map[], 0, maxBytes;
      new;
      assert Sizes(map[]) == map[];
    }

    /** A count of one is handed straight through. */
    method Feed(d: Datagram) returns (out: Outcome)
      requires Valid()
      modifies this
      ensures Valid() && Value() == AfterFeed(old(Value()), d, limit)
      ensures out == OutcomeOf(old(Value()), d, limit)
    {
      FeedKeepsBuffer(Value(), d, limit);
      if d.total == 1 {
        return Whole(d.payload);
      }
      if d.total <= 0 || d.total > MAX_CHUNK_TOTAL || d.idx < 0 || d.idx >= d.total || held + |d.payload| > limit {
        return Nothing;
      }
      var rec := if d.key in pending then pending[d.key] else Partial(d.total, map[], 0);
      var before := rec.nbytes;
      rec := AddChunk(rec, d.idx, d.payload);
      pending := pending[d.key := rec];
      held := held + rec.nbytes - before;
      if !Complete(rec) {
        return Nothing;
      }
      var full := Join(rec);
      if full.None? {
        return MissingChunk;
      }
      assert old(pending)[d.key := rec] - {d.key} == old(pending) - {d.key};
      pending := pending - {d.key};
      held := held - rec.nbytes;
      return Whole(full.value);
    }

    static method Join(p: Partial) returns (full: Option<Bytes>)
      ensures full == if Joinable(p) then Some(JoinChunks(p.chunks, p.total)) else None
    {
      var joined := [];
      var i := 0;
      while i < p.total
        invariant 0 <= i <= Max(p.total, 0) && forall j :: 0 <= j < i ==> j in p.chunks
        invariant joined == JoinChunks(p.chunks, i)
      {
        if i !in p.chunks {
          return None;
        }
        joined := joined + p.chunks[i];
        i := i + 1;
      }
      return Some(joined);
    }

    method EvictStale(stale: set<Key>)
      requires Valid()
      modifies this
      ensures Valid() && Value() == Evicted(old(Value()), stale)
    {
      var todo := stale * pending.Keys;
      while todo != {}
        invariant todo <= pending.Keys && todo <= stale
        invariant pending - stale == old(pending) - stale
        invariant forall k :: k in pending && k !in old(pending) - stale ==> k in todo
        invariant held == MapSum(Sizes(pending))
        decreases todo
      {
        var k :| k in todo;
        SizesRemove(pending, k);
        held := held - pending[k].nbytes;
        pending := pending - {k};
        todo := todo - {k};
      }
      assert pending == old(pending) - stale;
      EvictKeepsBuffer(old(Value()), stale, limit);
    }
  }
}
