/** Pending transactions: a byte budget, eviction by fee rate, and the view a new transaction is validated against. */
module Mempool {
  import opened Collections
  import opened Ledger
  import opened Blocks
  import Assembly

  const MEMPOOL_MAX_BYTES: int := 10 * BLOCK_SIZE_LIMIT

  /** A transaction's identity is its signed content; the signature's verdict is no part of it. */
  datatype Id = Digest(content: Tx)

  function TxId(t: Tx): Id { Id.Digest(t.(wellFormed := true)) }

  datatype Entry = Entry(tx: Tx, size: int, rate: real)

  function EntryOf(t: Tx): Entry { Entry(t, t.bodySize, t.fee as real / Max(t.bodySize, 1) as real) }

  /** An entry is cheaper than another when it pays less for each byte. */
  lemma EntriesCompare(t: Tx, u: Tx)
    ensures EntryOf(t).rate < EntryOf(u).rate <==> t.fee * Max(u.bodySize, 1) < u.fee * Max(t.bodySize, 1)
  {
    RatesCompare(t.fee, Max(t.bodySize, 1), u.fee, Max(u.bodySize, 1));
  }

  type Pool = map<Id, Entry>

  function Sizes(pool: Pool): map<Id, int> { map h | h in pool :: pool[h].size }

  ghost function Bytes(pool: Pool): int { MapSum(Sizes(pool)) }

  lemma BytesInsert(pool: Pool, h: Id, e: Entry)
    requires h !in pool
    ensures Bytes(pool[h := e]) == Bytes(pool) + e.size
  {
    MapSumInsert(Sizes(pool), h, e.size);
    assert Sizes(pool[h := e]) == Sizes(pool)[h := e.size];
  }

  lemma BytesRemove(pool: Pool, h: Id)
    requires h in pool
    ensures Bytes(pool - {h}) == Bytes(pool) - pool[h].size
  {
    MapSumRemove(Sizes(pool), h);
    assert Sizes(pool - {h}) == Sizes(pool) - {h};
  }

  // ----- Worst first ---------------------------------------------------------------------------

  ghost predicate Held(pool: Pool, s: seq<Id>) { forall i :: 0 <= i < |s| ==> s[i] in pool }

  /** Stable and ascending: an entry goes after those with the same rate. */
  function InsertByRate(pool: Pool, h: Id, s: seq<Id>): (r: seq<Id>)
    requires h in pool && forall i :: 0 <= i < |s| ==> s[i] in pool
    ensures |r| == |s| + 1 && forall i :: 0 <= i < |r| ==> r[i] in pool
  {
    if s == [] || pool[h].rate < pool[s[0]].rate then [h] + s else [s[0]] + InsertByRate(pool, h, s[1..])
  }

  function WorstFirst(pool: Pool, order: seq<Id>): (r: seq<Id>)
    requires forall i :: 0 <= i < |order| ==> order[i] in pool
    ensures |r| == |order| && forall i :: 0 <= i < |r| ==> r[i] in pool
  {
    if order == [] then [] else InsertByRate(pool, order[|order| - 1], WorstFirst(pool, order[..|order| - 1]))
  }

  ghost predicate Ascending(pool: Pool, s: seq<Id>)
    requires Held(pool, s)
  {
    forall i, j :: 0 <= i < j < |s| ==> pool[s[i]].rate <= pool[s[j]].rate
  }

  ghost predicate Distinct(s: seq<Id>) { forall i, j :: 0 <= i < j < |s| ==> s[i] != s[j] }

  lemma {:induction false} InsertByRateKeeps(pool: Pool, h: Id, s: seq<Id>)
    requires h in pool && Held(pool, s) && Ascending(pool, s)
    ensures Ascending(pool, InsertByRate(pool, h, s))
    ensures forall x :: x in InsertByRate(pool, h, s) <==> x == h || x in s
    ensures Distinct(s) && h !in s ==> Distinct(InsertByRate(pool, h, s))
  {
    if s == [] || pool[h].rate < pool[s[0]].rate {
    } else {
      assert s == [s[0]] + s[1..];
      InsertByRateKeeps(pool, h, s[1..]);
      hide InsertByRate;
      var r := InsertByRate(pool, h, s[1..]);
      forall i | 0 <= i < |r|
        ensures pool[s[0]].rate <= pool[r[i]].rate
        ensures Distinct(s) && h !in s ==> r[i] != s[0]
      {
        assert r[i] in r;
      }
    }
  }

  lemma {:induction false} WorstFirstKeeps(pool: Pool, order: seq<Id>)
    requires Held(pool, order)
    ensures Ascending(pool, WorstFirst(pool, order))
    ensures forall x :: x in WorstFirst(pool, order) <==> x in order
    ensures Distinct(order) ==> Distinct(WorstFirst(pool, order))
  {
    if order != [] {
      var front, last := order[..|order| - 1], order[|order| - 1];
      assert order == front + [last];
      WorstFirstKeeps(pool, front);
      InsertByRateKeeps(pool, last, WorstFirst(pool, front));
    }
  }

  /** Bytes of a list of held entries. */
  function SizeOf(pool: Pool, s: seq<Id>): int
    requires forall i :: 0 <= i < |s| ==> s[i] in pool
  {
    if s == [] then 0 else SizeOf(pool, s[..|s| - 1]) + pool[s[|s| - 1]].size
  }

  ghost function Cheaper(pool: Pool, rate: real): Pool { map h | h in pool && pool[h].rate < rate :: pool[h] }

  function SetOf(s: seq<Id>): set<Id> { set h | h in s }

  lemma {:induction false} BytesWithout(pool: Pool, s: seq<Id>)
    requires Held(pool, s) && Distinct(s)
    ensures Bytes(pool - SetOf(s)) == Bytes(pool) - SizeOf(pool, s)
  {
    if s == [] {
      assert pool - SetOf(s) == pool;
    } else {
      var front, last := s[..|s| - 1], s[|s| - 1];
      assert s == front + [last] && last !in front;
      BytesWithout(pool, front);
      assert pool - SetOf(s) == (pool - SetOf(front)) - {last};
      BytesRemove(pool - SetOf(front), last);
    }
  }

  function Only(pool: Pool, s: seq<Id>): Pool { map h | h in pool && h in s :: pool[h] }

  lemma {:induction false} BytesOnly(pool: Pool, s: seq<Id>)
    requires Held(pool, s) && Distinct(s)
    ensures Bytes(Only(pool, s)) == SizeOf(pool, s)
  {
    if s == [] {
      assert Only(pool, s) == map[];
    } else {
      var front, last := s[..|s| - 1], s[|s| - 1];
      assert s == front + [last] && last !in front;
      BytesOnly(pool, front);
      assert Only(pool, s) == Only(pool, front)[last := pool[last]];
      BytesInsert(Only(pool, front), last, pool[last]);
    }
  }

  /** In ascending order the entries below a rate are exactly those before the first that is not. */
  lemma CheaperAreFirst(pool: Pool, worst: seq<Id>, i: nat, rate: real)
    requires Held(pool, worst) && Ascending(pool, worst) && (forall h :: h in pool ==> h in worst) && i <= |worst|
    requires forall j :: 0 <= j < i ==> pool[worst[j]].rate < rate
    requires i < |worst| ==> pool[worst[i]].rate >= rate
    ensures Only(pool, worst[..i]) == Cheaper(pool, rate)
  {
    forall k | k in pool
      ensures k in worst[..i] <==> pool[k].rate < rate
    {
      var j :| 0 <= j < |worst| && worst[j] == k;
      if j < i {
        assert worst[..i][j] == k;
      }
    }
  }

  lemma SomeOfCheaper(pool: Pool, s: seq<Id>, rate: real)
    requires Held(pool, s) && Distinct(s) && (forall h :: h in s ==> pool[h].rate < rate)
    requires forall h :: h in pool ==> pool[h].size >= 0
    ensures SizeOf(pool, s) <= Bytes(Cheaper(pool, rate))
  {
    var cheap := Cheaper(pool, rate);
    assert Held(cheap, s);
    SameSizes(pool, cheap, s);
    BytesWithout(cheap, s);
    MapSumNonNegative(Sizes(cheap - SetOf(s)));
  }

  lemma {:induction false} SameSizes(x: Pool, y: Pool, s: seq<Id>)
    requires Held(x, s) && Held(y, s) && forall h :: h in s ==> x[h] == y[h]
    ensures SizeOf(x, s) == SizeOf(y, s)
  {
    if s != [] {
      assert s[|s| - 1] in s && forall h :: h in s[..|s| - 1] ==> h in s;
      SameSizes(x, y, s[..|s| - 1]);
    }
  }

  /**
   What an eviction for `need` bytes at `rate` takes: held entries paying strictly less, none of the
   others cheaper, and one fewer would leave too little.
   */
  ghost predicate FairVictims(pool: Pool, victims: seq<Id>, rate: real, need: int) {
    && Held(pool, victims) && Distinct(victims)
    && (forall v :: v in victims ==> pool[v].rate < rate)
    && (forall v, k :: v in victims && k in pool && k !in victims ==> pool[v].rate <= pool[k].rate)
    && (victims != [] ==> SizeOf(pool, victims[..|victims| - 1]) < need)
  }

  lemma PrefixIsFair(pool: Pool, worst: seq<Id>, i: nat, rate: real, need: int)
    requires Held(pool, worst) && Ascending(pool, worst) && Distinct(worst) && (forall h :: h in pool ==> h in worst)
    requires i <= |worst| && forall j :: 0 <= j < i ==> pool[worst[j]].rate < rate
    requires Held(pool, worst[..i]) && (i > 0 ==> SizeOf(pool, worst[..i - 1]) < need)
    ensures FairVictims(pool, worst[..i], rate, need)
  {
    hide SizeOf;
    var victims := worst[..i];
    assert forall j :: 0 <= j < i ==> victims[j] == worst[j];
    assert i > 0 ==> victims[..i - 1] == worst[..i - 1];
    forall v, k | v in victims && k in pool && k !in victims
      ensures pool[v].rate <= pool[k].rate
    {
      var p :| 0 <= p < i && victims[p] == v;
      var q :| 0 <= q < |worst| && worst[q] == k;
      if q < i {
        assert victims[q] == k;
      }
    }
  }

  method Scan(pool: Pool, worst: seq<Id>, rate: real, need: int) returns (i: nat, freed: int)
    requires Held(pool, worst) && need > 0
    ensures i <= |worst| && freed == SizeOf(pool, worst[..i])
    ensures forall j :: 0 <= j < i ==> pool[worst[j]].rate < rate
    ensures i > 0 ==> SizeOf(pool, worst[..i - 1]) < need
    ensures freed < need && i < |worst| ==> pool[worst[i]].rate >= rate
  {
    i, freed := 0, 0;
    assert worst[..0] == [];
    while i < |worst| && freed < need && pool[worst[i]].rate < rate
      invariant i <= |worst|
      invariant freed == SizeOf(pool, worst[..i])
      invariant forall j :: 0 <= j < i ==> pool[worst[j]].rate < rate
      invariant i > 0 ==> SizeOf(pool, worst[..i - 1]) < need
    {
      assert worst[..i + 1][..i] == worst[..i];
      freed := freed + pool[worst[i]].size;
      i := i + 1;
    }
  }

  /** Scans worst first, and stops when enough is freed or nothing cheaper is left. */
  method ChooseVictims(pool: Pool, order: seq<Id>, rate: real, need: int) returns (victims: seq<Id>, freed: int)
    requires Distinct(order) && forall h :: h in order <==> h in pool
    requires need > 0 && forall h :: h in pool ==> pool[h].size >= 0
    ensures FairVictims(pool, victims, rate, need) && freed == SizeOf(pool, victims)
    ensures freed >= need <==> Bytes(Cheaper(pool, rate)) >= need
  {
    assert Held(pool, order);
    var worst := WorstFirst(pool, order);
    WorstFirstKeeps(pool, order);
    assert Held(pool, worst);
    hide WorstFirst, Bytes, Cheaper, Ascending, FairVictims, Distinct;
    var i;
    i, freed := Scan(pool, worst, rate, need);
    victims := worst[..i];
    PrefixIsFair(pool, worst, i, rate, need);
    FairUnpacked(pool, victims, rate, need);
    if freed < need {
      CheaperAreFirst(pool, worst, i, rate);
      BytesOnly(pool, victims);
    } else {
      SomeOfCheaper(pool, victims, rate);
    }
  }

  lemma FairUnpacked(pool: Pool, victims: seq<Id>, rate: real, need: int)
    requires FairVictims(pool, victims, rate, need)
    ensures Held(pool, victims) && Distinct(victims) && forall v :: v in victims ==> pool[v].rate < rate
  {
  }

  // ----- The pool ----------------------------------------------------------------------------------

  class Mempool {
    var pool: Pool
    /** Keys in insertion order. */
    var order: seq<Id>
    var totalBytes: int

    ghost predicate Valid()
      reads this
    {
      && Distinct(order) && (forall h :: h in order <==> h in pool)
      && (forall h :: h in pool ==> pool[h] == EntryOf(pool[h].tx) && TxId(pool[h].tx) == h)
      && totalBytes == Bytes(pool) <= MEMPOOL_MAX_BYTES
    }

    constructor ()
      ensures Valid() && pool == map[]
    {
      pool, order, totalBytes := map[], [], 0;
    }

    method Remove(h: Id)
      requires Valid()
      modifies this
      ensures Valid() && pool == old(pool) - {h}
    {
      if h in pool {
        BytesRemove(pool, h);
        totalBytes := totalBytes - pool[h].size;
        pool := pool - {h};
        DropKeepsRest(order, h);
        order := Drop(order, h);
        MapSumNonNegative(Sizes(pool));
      }
    }

    method RemoveMany(hs: seq<Id>)
      requires Valid()
      modifies this
      ensures Valid() && pool == old(pool) - SetOf(hs)
    {
      for i := 0 to |hs|
        invariant Valid() && pool == old(pool) - SetOf(hs[..i])
      {
        assert SetOf(hs[..i + 1]) == SetOf(hs[..i]) + {hs[i]};
        Remove(hs[i]);
      }
      assert hs[..|hs|] == hs;
    }

    /** Evicts, then inserts; the counter follows. */
    method Replace(t: Tx, victims: seq<Id>)
      requires Valid() && TxId(t) !in pool && Held(pool, victims) && Distinct(victims)
      requires totalBytes + EntryOf(t).size - SizeOf(pool, victims) <= MEMPOOL_MAX_BYTES
      modifies this
      ensures Valid() && pool == (old(pool) - SetOf(victims))[TxId(t) := EntryOf(t)]
    {
      BytesWithout(pool, victims);
      RemoveMany(victims);
      BytesInsert(pool, TxId(t), EntryOf(t));
      InsertKeepsOrder(order, TxId(t));
      pool, order := pool[TxId(t) := EntryOf(t)], order + [TxId(t)];
      totalBytes := totalBytes + EntryOf(t).size;
    }

    /**
     Admits a transaction, evicting only what it outbids. Refused exactly when it is already held or
     when everything paying strictly less would not make room; a refusal changes nothing.
     */
    method Add(t: Tx) returns (ok: bool, ghost evicted: seq<Id>)
      requires Valid()
      modifies this
      ensures Valid()
      ensures !ok <==> TxId(t) in old(pool) || (Overflow(old(totalBytes), t) > 0
                       && Bytes(Cheaper(old(pool), EntryOf(t).rate)) < Overflow(old(totalBytes), t))
      ensures FairVictims(old(pool), evicted, EntryOf(t).rate, Overflow(old(totalBytes), t))
      ensures ok ==> pool == (old(pool) - SetOf(evicted))[TxId(t) := EntryOf(t)]
      ensures !ok ==> pool == old(pool) && order == old(order) && totalBytes == old(totalBytes)
    {
      evicted := [];
      if TxId(t) in pool {
        NoVictimsAreFair(pool, EntryOf(t).rate, Overflow(totalBytes, t));
        return false, [];
      }
      var overflow := totalBytes + EntryOf(t).size - MEMPOOL_MAX_BYTES;
      var toEvict: seq<Id> := [];
      assert forall h :: h in pool ==> pool[h].size >= 0;
      hide FairVictims, Bytes, Cheaper, TxId;
      if overflow > 0 {
        var freed;
        toEvict, freed := ChooseVictims(pool, order, EntryOf(t).rate, overflow);
        if freed < overflow {
          NoVictimsAreFair(pool, EntryOf(t).rate, overflow);
          return false, [];
        }
        FairUnpacked(pool, toEvict, EntryOf(t).rate, overflow);
      } else {
        NoVictimsAreFair(pool, EntryOf(t).rate, overflow);
      }
      evicted := toEvict;
      Replace(t, toEvict);
      return true, evicted;
    }
  }

  lemma NoVictimsAreFair(pool: Pool, rate: real, need: int)
    ensures FairVictims(pool, [], rate, need)
  {
  }

  lemma InsertKeepsOrder(order: seq<Id>, h: Id)
    requires Distinct(order) && h !in order
    ensures Distinct(order + [h])
  {
  }

  function Overflow(totalBytes: int, t: Tx): int { totalBytes + EntryOf(t).size - MEMPOOL_MAX_BYTES }

  function Drop(order: seq<Id>, h: Id): seq<Id> {
    if order == [] then [] else (if order[0] == h then [] else [order[0]]) + Drop(order[1..], h)
  }

  lemma {:induction false} DropKeepsRest(order: seq<Id>, h: Id)
    requires Distinct(order)
    ensures Distinct(Drop(order, h)) && forall x :: x in Drop(order, h) <==> x in order && x != h
  {
    if order != [] {
      assert order == [order[0]] + order[1..] && order[0] !in order[1..];
      DropKeepsRest(order[1..], h);
    }
  }
}
