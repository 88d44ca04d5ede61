/** Exactly when taking over a chain, and a whole run, leave every cached height right. */
module NodeCache {
  import opened Collections
  import opened Ledger
  import opened Blocks
  import opened ForkChoice
  import opened AcceptedChains
  import opened NodeChain
  import Retarget

  // ----- The new entry ------------------------------------------------------------------------------------

  lemma TieOnPrefix(sha: string -> string, x: ChainState, y: ChainState)
    requires x.chain != [] && y.chain != [] && SearchFork(x.chain, y.chain) == Min(|x.chain|, |y.chain|)
    requires x.work == y.work
    ensures !IsBetter(sha, x, y)
  {
    LessIsStrictTotal(sha(""), sha(""));
  }

  /** The work below a height under the fork is less than that of any chain taken over. */
  lemma WorkBelowFork(sha: string -> string, local: ChainState, x: ChainState, fork: nat, h: nat)
    requires ValidChain(local.chain) && local == Replay(local.chain) && local.chain != [] && Checked(x.chain)
    requires fork == FirstDifference(x.chain, local.chain, 0) && h < fork && IsBetter(sha, x, local)
    ensures h < |local.chain| && ReplayWork(local.chain[..h + 1]) < x.work
  {
    hide *;
    CheckedNotEmpty(x.chain);
    BetterHasWork(sha, x, local);
    BelowForkInside(x.chain, local.chain, fork, h);
    WorkGrows(local.chain, h + 1);
    ReplayIsWhole(local);
    ValidIsLinked(local.chain);
    CheckedIsLinked(x.chain);
    LinkedSearchIsScan(x.chain, local.chain);
    if x.work == local.work && h + 1 == |local.chain| {
      TieOnPrefix(sha, x, local);
    }
  }

  lemma BetterHasWork(sha: string -> string, x: ChainState, y: ChainState)
    requires x.chain != [] && y.chain != [] && IsBetter(sha, x, y)
    ensures x.work >= y.work
  {
    hide WinsTieBreak;
  }

  lemma BelowForkInside(a: seq<Block>, b: seq<Block>, fork: nat, h: nat)
    requires fork == FirstDifference(a, b, 0) && h < fork
    ensures h < |a| && h < |b| && (h + 1 == |b| ==> fork == Min(|a|, |b|))
  {
  }

  lemma ReplayIsWhole(cs: ChainState)
    requires cs == Replay(cs.chain)
    ensures cs.work == ReplayWork(cs.chain)
  {
  }

  lemma ForgetKeepsOrder(n: NodeState, fork: nat)
    requires Ordered(n.order, n.recent.Keys)
    ensures Ordered(Forget(n, fork).order, Forget(n, fork).recent.Keys) && |Forget(n, fork).order| <= |n.order|
  {
    BelowIs(n.order, fork);
  }

  lemma TipIsRemembered(n: NodeState)
    requires n.cs.chain != [] && |n.order| <= RECENT_STATE_CACHE_SIZE && Ordered(n.order, n.recent.Keys)
    ensures Remember(n).cs == n.cs && Height(n.cs) in Remember(n).recent
    ensures Remember(n).recent[Height(n.cs)] == Cached(n.cs.ledger, n.cs.work)
  {
    WithoutIs(n.order, Height(n.cs));
    var added := Without(n.order, Height(n.cs)) + [Height(n.cs)];
    if |added| > RECENT_STATE_CACHE_SIZE {
      assert added[0] in Without(n.order, Height(n.cs));
    }
  }

  /** The state right after taking a chain over. */
  lemma AdoptedRemembersTip(sha: string -> string, now: real, n: NodeState, remote: seq<Block>)
    requires n.cs.chain != [] && Ordered(n.order, n.recent.Keys) && |n.order| <= RECENT_STATE_CACHE_SIZE
    requires Evaluate(sha, now, n, remote).Success? && Evaluate(sha, now, n, remote).value.remote.chain != []
    ensures var v, after := Evaluate(sha, now, n, remote).value.remote, Adopted(sha, now, n, remote);
            && after.cs == v && Height(v) in after.recent
            && after.recent[Height(v)] == Cached(v.ledger, v.work)
  {
    var v := Evaluate(sha, now, n, remote).value;
    hide Evaluate, Remember, Forget, Ordered, Height;
    var m := Forget(n, v.fork).(cs := v.remote);
    ForgetKeepsOrder(n, v.fork);
    TipIsRemembered(m);
  }

  lemma TipBelowFork(sha: string -> string, local: ChainState, x: ChainState, fork: nat, h: nat)
    requires ValidChain(local.chain) && local == Replay(local.chain) && local.chain != [] && Checked(x.chain)
    requires fork == FirstDifference(local.chain, x.chain, 0) && local.chain[..fork] == x.chain[..fork]
    requires h < fork && IsBetter(sha, x, local)
    ensures h < |x.chain| && ReplayWork(x.chain[..h + 1]) < x.work
  {
    ForkIsSymmetric(local.chain, x.chain, 0);
    hide ValidChain, ReplayLedger, ReplayWork, IsBetter, FirstDifference;
    WorkBelowFork(sha, local, x, fork, h);
    assert x.chain[..h + 1] == x.chain[..fork][..h + 1] == local.chain[..fork][..h + 1] == local.chain[..h + 1];
  }

  lemma SameGenesisOnSuccess(sha: string -> string, now: real, local: ChainState, remote: seq<Block>)
    requires local.chain != [] && EvaluateByReplay(sha, now, local, remote).Success?
    ensures remote != []
  {
    hide Judge;
  }

  /** What is known of a chain just taken over. */
  lemma AdoptedIsBetter(sha: string -> string, now: real, n: NodeState, remote: seq<Block>)
    requires NodeOk(n) && HonestRemote(n.cs, remote) && n.cs.chain != []
    requires Evaluate(sha, now, n, remote).Success?
    ensures var v, fork := Evaluate(sha, now, n, remote).value.remote, FirstDifference(n.cs.chain, remote, 0);
            && v.chain == remote && remote != [] && Checked(remote) && IsBetter(sha, v, n.cs)
            && fork <= |n.cs.chain| && fork <= |remote| && n.cs.chain[..fork] == remote[..fork]
  {
    EvaluateIsReplay(sha, now, n, remote);
    SameGenesisOnSuccess(sha, now, n.cs, remote);
    assert ValidChain(n.cs.chain) && n.cs == Replay(n.cs.chain);
    hide NodeOk, Evaluate, EvaluateByReplay, ValidChain, ReplayLedger, ReplayWork, FirstDifference, HonestRemote, Accepted, Extend,
         ZeroFree, IsBetter, Checked;
    VerdictIsExtension(sha, now, n.cs, remote);
  }

  /** No chain taken over keeps its tip right under a height that lies below the fork. */
  lemma EntryBelowForkIsWrong(sha: string -> string, local: ChainState, v: ChainState, fork: nat)
    requires ValidChain(local.chain) && local == Replay(local.chain) && local.chain != [] && Checked(v.chain)
    requires fork == FirstDifference(local.chain, v.chain, 0) && local.chain[..fork] == v.chain[..fork] && IsBetter(sha, v, local)
    ensures 0 <= Height(v) < fork ==> !Agrees(v.chain, Height(v), Cached(v.ledger, v.work))
  {
    hide *;
    CheckedNotEmpty(v.chain);
    if 0 <= Height(v) < fork {
      TipBelowFork(sha, local, v, fork, Height(v));
      EntryTooHeavy(v.chain, Height(v), Cached(v.ledger, v.work));
    }
  }

  lemma CheckedNotEmpty(chain: seq<Block>)
    requires Checked(chain)
    ensures chain != [] && chain[0].body.height == 0
  {
  }

  lemma HeightFromLastZero(cs: ChainState)
    requires Checked(cs.chain)
    ensures cs.chain != [] && cs.chain[0].body.height == 0
    ensures Height(cs) == |cs.chain| - 1 - LastZero(cs.chain, |cs.chain| - 1)
  {
    HeightCountsFromLastZero(cs.chain, |cs.chain| - 1);
  }

  /**
   The new tip is cached under the height it claims, its distance from the last block claiming height 0.
   When that height lies below the fork it belongs to another block, and the entry is not what replaying
   the chain to it gives.
   */
  lemma ZeroSpoilsCache(sha: string -> string, now: real, n: NodeState, remote: seq<Block>)
    requires NodeOk(n) && HonestRemote(n.cs, remote) && n.cs.chain != []
    requires Evaluate(sha, now, n, remote).Success?
    ensures var after := Adopted(sha, now, n, remote);
            && after.cs.chain == remote && remote != [] && remote[0].body.height == 0 && Height(after.cs) in after.recent
            && Height(after.cs) == |remote| - 1 - LastZero(remote, |remote| - 1)
            && (Height(after.cs) < FirstDifference(n.cs.chain, remote, 0)
                ==> !Agrees(remote, Height(after.cs), after.recent[Height(after.cs)]))
  {
    hide *;
    var v, fork := Evaluate(sha, now, n, remote).value.remote, FirstDifference(n.cs.chain, remote, 0);
    AdoptedIsBetter(sha, now, n, remote);
    GoodNode(n);
    HeightFromLastZero(v);
    AdoptedRemembersTip(sha, now, n, remote);
    EntryBelowForkIsWrong(sha, n.cs, v, fork);
  }

  lemma GoodNode(n: NodeState)
    requires NodeOk(n)
    ensures ValidChain(n.cs.chain) && n.cs == Replay(n.cs.chain) && n.cs.chain != []
    ensures Ordered(n.order, n.recent.Keys) && |n.order| <= RECENT_STATE_CACHE_SIZE
  {
  }

  lemma EntryTooHeavy(chain: seq<Block>, h: nat, c: Cached)
    requires h < |chain| && ReplayWork(chain[..h + 1]) < c.work
    ensures !Agrees(chain, h, c)
  {
  }

  // ----- From the fork up -----------------------------------------------------------------------------------

  predicate PositiveZeros(chain: seq<Block>) {
    forall z :: 0 <= z < |chain| && chain[z].body.height == 0 ==> chain[z].body.iterations > 0
  }

  /** Replay counts no more work than appending does, where every block claims some. */
  lemma {:induction false} ReplayCountsLess(chain: seq<Block>, f: nat, k: nat)
    requires f <= k <= |chain| && Checked(chain) && PositiveZeros(chain)
    ensures ReplayWork(chain[..k]) <= ReplayWork(chain[..f]) + WorkOf(chain[f..k])
    decreases k
  {
    if f < k {
      ReplayCountsLess(chain, f, k - 1);
      assert chain[..k][..k - 1] == chain[..k - 1];
      assert chain[f..k] == chain[f..k - 1] + [chain[k - 1]];
      WorkAppend(chain[f..k - 1], [chain[k - 1]]);
      CountsArePositive(chain, k - 1);
      assert [chain[k - 1]][1..] == [];
    }
  }

  /** Appending more blocks of positive counts adds work. */
  lemma MoreBlocksMoreWork(chain: seq<Block>, f: nat, k: nat)
    requires Checked(chain) && PositiveZeros(chain) && f <= k < |chain|
    ensures WorkOf(chain[f..k]) < WorkOf(chain[f..])
  {
    var later := chain[k..];
    assert chain[f..] == chain[f..k] + later;
    hide Checked, WorkOf;
    WorkAppend(chain[f..k], later);
    forall i | 0 <= i < |later|
      ensures later[i].body.iterations > 0
    {
      CountsArePositive(chain, k + i);
    }
    PositiveWork(later);
  }

  /** Up to an earlier position a chain replays to less work than it is appended to, past a prefix on which the two agree. */
  lemma WorkAboveFork(chain: seq<Block>, base: ChainState, f: nat, h: nat)
    requires Checked(chain) && PositiveZeros(chain) && f <= h + 1 < |chain|
    requires base == Replay(chain[..f])
    ensures ReplayWork(chain[..h + 1]) < Extend(base, chain[f..]).work
  {
    assert base.work == ReplayWork(chain[..f]);
    hide *;
    ReplayCountsLess(chain, f, h + 1);
    ExtendWork(base, chain[f..]);
    MoreBlocksMoreWork(chain, f, h + 1);
  }

  /** A reward shrinks by no more than what was minted in between. */
  lemma MintingKeepsOrder(x: int, y: int)
    requires x <= y <= SUPPLY_CAP
    ensures x + Reward(x) <= y + Reward(y) && Reward(y) <= Reward(x)
  {
    var p, q := (SUPPLY_CAP - y) * DECAY_NUMERATOR, (y - x) * DECAY_NUMERATOR;
    assert (SUPPLY_CAP - x) * DECAY_NUMERATOR == p + q;
    assert 0 <= q <= (y - x) * DECAY_DENOMINATOR;
    assert (p + (y - x) * DECAY_DENOMINATOR) / DECAY_DENOMINATOR == p / DECAY_DENOMINATOR + (y - x);
  }

  function MintedAfter(minted: int, b: Block): int {
    if b.body.builder.Some? && Reward(minted) >= 1 then minted + Reward(minted) else minted
  }

  lemma BlockMints(l: Ledger, b: Block)
    ensures LedgerAfter(l, b).minted == MintedAfter(l.minted, b)
  {
    TxsKeepMinted(l, b.body.txs);
  }

  lemma {:induction false} AcceptedPrefix(cs: ChainState, tail: seq<Block>, k: nat)
    requires Accepted(cs, tail) && k <= |tail|
    ensures Accepted(cs, tail[..k])
    decreases k
  {
    hide Fits, ApplyBlock;
    if k > 0 {
      assert tail[..k][0] == tail[0] && tail[..k][1..] == tail[1..][..k - 1];
      AcceptedPrefix(ApplyBlock(cs, tail[0]), tail[1..], k - 1);
    }
  }

  lemma {:induction false} ExtendLast(cs: ChainState, tail: seq<Block>, b: Block)
    ensures Extend(cs, tail + [b]) == ApplyBlock(Extend(cs, tail), b)
    decreases tail
  {
    hide ApplyBlock;
    if tail == [] {
      assert tail + [b] == [b] && [b][1..] == [];
    } else {
      assert (tail + [b])[0] == tail[0] && (tail + [b])[1..] == tail[1..] + [b];
      ExtendLast(ApplyBlock(cs, tail[0]), tail[1..], b);
    }
  }

  /** What appending has minted by position k of a chain accepted past its first f blocks. */
  function MintedAt(chain: seq<Block>, f: nat, k: nat): int
    requires f <= k <= |chain|
  {
    Extend(Replay(chain[..f]), chain[f..k]).ledger.minted
  }

  lemma MintedInCap(chain: seq<Block>, f: nat, k: nat)
    requires f <= k <= |chain| && ValidChain(chain[..f]) && Accepted(Replay(chain[..f]), chain[f..])
    ensures 0 <= MintedAt(chain, f, k) <= SUPPLY_CAP
  {
    assert chain[f..k] == chain[f..][..k - f];
    hide Accepted, Replay, Extend, ValidChain;
    AcceptedPrefix(Replay(chain[..f]), chain[f..], k - f);
    SupplyHoldsIff(chain[..f], chain[f..k], "");
  }

  lemma MintedStep(chain: seq<Block>, f: nat, k: nat)
    requires f < k <= |chain|
    ensures MintedAt(chain, f, k) == MintedAfter(MintedAt(chain, f, k - 1), chain[k - 1])
  {
    assert chain[f..k] == chain[f..k - 1] + [chain[k - 1]];
    hide Extend, Replay, LedgerAfter;
    ExtendLast(Replay(chain[..f]), chain[f..k - 1], chain[k - 1]);
    BlockMints(Extend(Replay(chain[..f]), chain[f..k - 1]).ledger, chain[k - 1]);
  }

  lemma ReplayMintsStep(chain: seq<Block>, k: nat)
    requires 0 < k <= |chain|
    ensures ReplayLedger(chain[..k]).minted
         == if chain[k - 1].body.height == 0 then ReplayLedger(chain[..k - 1]).minted
            else MintedAfter(ReplayLedger(chain[..k - 1]).minted, chain[k - 1])
  {
    assert chain[..k][..k - 1] == chain[..k - 1] && chain[..k][k - 1] == chain[k - 1];
    BlockMints(ReplayLedger(chain[..k - 1]), chain[k - 1]);
    hide LedgerAfter;
  }

  lemma MintedAfterKeepsOrder(x: int, y: int, b: Block)
    requires x <= y <= SUPPLY_CAP
    ensures MintedAfter(x, b) <= MintedAfter(y, b) && y <= MintedAfter(y, b)
  {
    MintingKeepsOrder(x, y);
    RewardNotNegative(x);
    RewardNotNegative(y);
    hide Reward;
  }

  lemma MintedAtFork(chain: seq<Block>, f: nat)
    requires f <= |chain|
    ensures MintedAt(chain, f, f) == ReplayLedger(chain[..f]).minted
  {
    hide ReplayLedger, ApplyBlock;
    assert chain[f..f] == [];
  }

  /** One more block keeps replay from having minted more than appending. */
  lemma ReplayMintsLessNext(replayed: int, appended: int, next: int, b: Block)
    requires replayed <= appended <= SUPPLY_CAP && (next == replayed || next == MintedAfter(replayed, b))
    ensures next <= MintedAfter(appended, b)
  {
    MintedAfterKeepsOrder(replayed, appended, b);
    hide MintedAfter;
  }

  /** Replay has minted no more than appending has. */
  lemma {:induction false} ReplayMintsLess(chain: seq<Block>, f: nat, k: nat)
    requires f <= k <= |chain| && ValidChain(chain[..f]) && Accepted(Replay(chain[..f]), chain[f..])
    ensures ReplayLedger(chain[..k]).minted <= MintedAt(chain, f, k)
    decreases k
  {
    hide *;
    if f == k {
      MintedAtFork(chain, f);
    } else {
      ReplayMintsLess(chain, f, k - 1);
      MintedStep(chain, f, k);
      ReplayMintsStep(chain, k);
      MintedInCap(chain, f, k - 1);
      ReplayMintsLessNext(ReplayLedger(chain[..k - 1]).minted, MintedAt(chain, f, k - 1),
                          ReplayLedger(chain[..k]).minted, chain[k - 1]);
    }
  }

  lemma RewardNotNegative(minted: int)
    ensures Reward(minted) >= 0
  {
  }

  lemma {:induction false} MintedOnlyRises(chain: seq<Block>, f: nat, j: nat, k: nat)
    requires f <= j <= k <= |chain|
    ensures MintedAt(chain, f, j) <= MintedAt(chain, f, k)
    decreases k
  {
    hide MintedAt, Reward;
    if j < k {
      MintedOnlyRises(chain, f, j, k - 1);
      MintedStep(chain, f, k);
    }
  }

  lemma MintedByTip(minted: int, b: Block)
    requires b.body.builder.Some? && minted <= SUPPLY_CAP && Reward(MintedAfter(minted, b)) >= 1
    requires MintedAfter(minted, b) <= SUPPLY_CAP
    ensures minted < MintedAfter(minted, b)
  {
    RewardNotNegative(minted);
    MintingKeepsOrder(minted, MintedAfter(minted, b));
    hide Reward;
  }

  lemma TipHasBuilder(chain: seq<Block>)
    requires Checked(chain) && |chain| > 1 && chain[|chain| - 1].body.height != 0
    ensures chain[|chain| - 1].body.builder.Some?
  {
    assert CheckedAt(chain, |chain| - 1);
    assert BuilderChecks(chain[|chain| - 1], chain[..|chain| - 1]);
    hide GetVdfIterations;
  }

  /** While there is anything left to mint, a chain that ends in an ordinary block has minted more than any earlier position replays to. */
  lemma MintedAboveFork(chain: seq<Block>, f: nat, h: nat)
    requires f <= h + 1 < |chain| && chain[|chain| - 1].body.height != 0
    requires ValidChain(chain[..f]) && Accepted(Replay(chain[..f]), chain[f..]) && Checked(chain)
    requires Reward(MintedAt(chain, f, |chain|)) >= 1
    ensures ReplayLedger(chain[..h + 1]).minted < MintedAt(chain, f, |chain|)
  {
    var last := |chain| - 1;
    hide *;
    TipHasBuilder(chain);
    ReplayMintsLess(chain, f, h + 1);
    MintedOnlyRises(chain, f, h + 1, last);
    MintedStep(chain, f, last + 1);
    MintedInCap(chain, f, last);
    MintedInCap(chain, f, last + 1);
    MintedByTip(MintedAt(chain, f, last), chain[last]);
  }

  // ----- One chain taken over -----------------------------------------------------------------------------------

  /**
   What makes a height 0 block show in the cache: the tip's claimed height lies below the fork, or every
   height 0 block claims a positive count, or there is still something to mint.
   */
  predicate Telling(v: ChainState, fork: nat)
    requires v.chain != []
  {
    Height(v) < fork || PositiveZeros(v.chain) || Reward(v.ledger.minted) >= 1
  }

  /** The tip's entry is the only one that can be wrong. */
  lemma RememberedIff(n: NodeState, chain: seq<Block>)
    requires n.cs.chain == chain != [] && CacheAgrees(chain, n.recent)
    requires Ordered(n.order, n.recent.Keys) && |n.order| <= RECENT_STATE_CACHE_SIZE
    ensures CacheAgrees(chain, Remember(n).recent) <==> Agrees(chain, Height(n.cs), Cached(n.cs.ledger, n.cs.work))
  {
    TipIsRemembered(n);
    hide Agrees, Ordered;
    forall h | h in Remember(n).recent && h != Height(n.cs)
      ensures Agrees(chain, h, Remember(n).recent[h])
    {
      assert h in n.recent && Remember(n).recent[h] == n.recent[h];
    }
  }

  lemma TipDecides(sha: string -> string, now: real, n: NodeState, remote: seq<Block>)
    requires NodeOk(n) && HonestRemote(n.cs, remote) && n.cs.chain != []
    requires Evaluate(sha, now, n, remote).Success?
    ensures var after := Adopted(sha, now, n, remote);
            && after.cs.chain == remote && remote != []
            && (CacheAgrees(remote, after.recent) <==> Agrees(remote, Height(after.cs), Cached(after.cs.ledger, after.cs.work)))
  {
    var v := Evaluate(sha, now, n, remote).value;
    AdoptedIsBetter(sha, now, n, remote);
    GoodNode(n);
    var m := Forget(n, v.fork).(cs := v.remote);
    assert Adopted(sha, now, n, remote) == Remember(m);
    assert v.fork == FirstDifference(n.cs.chain, remote, 0) by { ForkOfVerdict(sha, now, n, remote); }
    ForgetThenMove(n, v.fork, v.remote);
    hide *;
    RememberedIff(m, remote);
    RemembersChain(m);
  }

  lemma ForkOfVerdict(sha: string -> string, now: real, n: NodeState, remote: seq<Block>)
    requires n.cs.chain != [] && Evaluate(sha, now, n, remote).Success?
    ensures Evaluate(sha, now, n, remote).value.fork == FirstDifference(n.cs.chain, remote, 0)
  {
    hide ValidateTail, IsBetter, Resume, FirstDifference;
  }

  /** A height 0 block from the fork on is the one heights are counted from at the tip. */
  lemma LastZeroAboveFork(chain: seq<Block>, fork: nat)
    requires chain != [] && chain[0].body.height == 0 && fork <= |chain| && !ZeroFree(chain[fork..])
    ensures fork <= LastZero(chain, |chain| - 1)
  {
    var i :| 0 <= i < |chain[fork..]| && chain[fork..][i].body.height == 0;
    assert chain[fork + i].body.height == 0;
  }

  lemma TipIs(v: ChainState)
    requires v.chain != []
    ensures Height(v) == v.chain[|v.chain| - 1].body.height
  {
  }

  lemma MintedInAll(v: ChainState, fork: nat)
    requires fork <= |v.chain| && v == Extend(Replay(v.chain[..fork]), v.chain[fork..])
    ensures MintedAt(v.chain, fork, |v.chain|) == v.ledger.minted
  {
    hide Extend, Replay;
    assert v.chain[fork..|v.chain|] == v.chain[fork..];
  }

  /** From the fork up the tip's entry gives the claimed height the work, or the supply, of a longer chain. */
  lemma EntryAboveForkIsWrong(v: ChainState, fork: nat)
    requires 1 <= fork <= |v.chain| && ValidChain(v.chain[..fork]) && Checked(v.chain)
    requires Accepted(Replay(v.chain[..fork]), v.chain[fork..]) && v == Extend(Replay(v.chain[..fork]), v.chain[fork..])
    requires !ZeroFree(v.chain[fork..]) && (PositiveZeros(v.chain) || Reward(v.ledger.minted) >= 1)
    ensures Height(v) >= fork ==> !Agrees(v.chain, Height(v), Cached(v.ledger, v.work))
  {
    hide *;
    var chain, h := v.chain, Height(v);
    CheckedNotEmpty(chain);
    TipIs(v);
    MintedInAll(v, fork);
    HeightFromLastZero(v);
    LastZeroAboveFork(chain, fork);
    if h >= fork {
      if PositiveZeros(chain) {
        WorkAboveFork(chain, Replay(chain[..fork]), fork, h);
        EntryTooHeavy(chain, h, Cached(v.ledger, v.work));
      } else {
        MintedAboveFork(chain, fork, h);
        EntryMintsMore(chain, h, Cached(v.ledger, v.work));
      }
    }
  }

  lemma EntryMintsMore(chain: seq<Block>, h: nat, c: Cached)
    requires h < |chain| && ReplayLedger(chain[..h + 1]).minted < c.ledger.minted
    ensures !Agrees(chain, h, c)
  {
    hide ReplayLedger;
  }

  lemma TellingIs(v: ChainState, fork: nat)
    requires v.chain != [] && Telling(v, fork)
    ensures Height(v) < fork || PositiveZeros(v.chain) || Reward(v.ledger.minted) >= 1
  {
    hide Height, PositiveZeros, Reward;
  }

  lemma VerdictOfNode(sha: string -> string, now: real, n: NodeState, remote: seq<Block>)
    requires NodeOk(n) && HonestRemote(n.cs, remote) && n.cs.chain != []
    requires Evaluate(sha, now, n, remote).Success?
    ensures var v, fork := Evaluate(sha, now, n, remote).value.remote, FirstDifference(n.cs.chain, remote, 0);
            && 1 <= fork <= |remote| && v.chain == remote && ValidChain(remote[..fork]) && Checked(remote)
            && Accepted(Replay(remote[..fork]), remote[fork..]) && v == Extend(Replay(remote[..fork]), remote[fork..])
  {
    EvaluateIsReplay(sha, now, n, remote);
    GoodNode(n);
    hide *;
    VerdictIsExtension(sha, now, n.cs, remote);
  }

  lemma ZeroHeightIsBelow(v: ChainState, fork: nat)
    requires Checked(v.chain)
    ensures v.chain != [] && Height(v) >= 0
  {
    HeightFromLastZero(v);
  }

  /**
   Taking over any chain never loses work, and leaves every cached height holding what replaying the new
   chain to it gives exactly when no block from the fork on claims height 0, wherever such a block shows.
   */
  lemma AdoptionIff(sha: string -> string, now: real, n: NodeState, remote: seq<Block>)
    requires NodeOk(n) && HonestRemote(n.cs, remote) && n.cs.chain != []
    requires Evaluate(sha, now, n, remote).Success?
    ensures var after, fork := Adopted(sha, now, n, remote), FirstDifference(n.cs.chain, remote, 0);
            && after.cs.chain == remote && remote != [] && fork <= |remote| && after.cs.work >= n.cs.work
            && (ZeroFree(remote[fork..]) ==> NodeOk(after))
            && (Telling(after.cs, fork) ==> (CacheAgrees(remote, after.recent) <==> ZeroFree(remote[fork..])))
  {
    hide *;
    var after, fork := Adopted(sha, now, n, remote), FirstDifference(n.cs.chain, remote, 0);
    AdoptedIsBetter(sha, now, n, remote);
    AdoptedRemembersTipOk(sha, now, n, remote);
    VerdictOfNode(sha, now, n, remote);
    AdoptKeeps(sha, now, n, remote);
    TipDecides(sha, now, n, remote);
    GoodNode(n);
    if ZeroFree(remote[fork..]) {
      OkAgrees(after);
    } else if Telling(after.cs, fork) {
      TellingIs(after.cs, fork);
      ZeroHeightIsBelow(after.cs, fork);
      EntryBelowForkIsWrong(sha, n.cs, after.cs, fork);
      if Height(after.cs) >= fork {
        EntryAboveForkIsWrong(after.cs, fork);
      }
    }
  }

  lemma OkAgrees(n: NodeState)
    requires NodeOk(n)
    ensures CacheAgrees(n.cs.chain, n.recent)
  {
  }

  lemma AdoptedRemembersTipOk(sha: string -> string, now: real, n: NodeState, remote: seq<Block>)
    requires NodeOk(n) && HonestRemote(n.cs, remote) && n.cs.chain != []
    requires Evaluate(sha, now, n, remote).Success?
    ensures Adopted(sha, now, n, remote).cs == Evaluate(sha, now, n, remote).value.remote
  {
    hide *;
    GoodNode(n);
    AdoptedIsBetter(sha, now, n, remote);
    AdoptedRemembersTip(sha, now, n, remote);
  }

  // ----- Whole runs ---------------------------------------------------------------------------------------------

  /** Every height 0 block taken over in the run is one that shows. */
  ghost predicate AllTelling(sha: string -> string, states: seq<NodeState>, ops: seq<Op>)
    requires Run(sha, states, ops)
  {
    forall i :: 0 <= i < |ops| && AdoptsZero(sha, states[i], ops[i])
      ==> Telling(states[i + 1].cs, FirstDifference(states[i].cs.chain, ops[i].remote, 0))
  }

  ghost predicate Right(n: NodeState) { CacheAgrees(n.cs.chain, n.recent) }

  lemma OneOpIff(sha: string -> string, n: NodeState, op: Op)
    requires NodeOk(n) && n.cs.chain != [] && OpOk(n, op) && AfterOp(sha, n, op).cs.chain != []
    requires AdoptsZero(sha, n, op) ==> Telling(AfterOp(sha, n, op).cs, FirstDifference(n.cs.chain, op.remote, 0))
    ensures Right(AfterOp(sha, n, op)) <==> !AdoptsZero(sha, n, op)
  {
    if AdoptsZero(sha, n, op) {
      assert HonestRemote(n.cs, op.remote) && AfterOp(sha, n, op) == Adopted(sha, op.seen, n, op.remote);
      hide NodeOk, Adopted, AfterOp, Evaluate, HonestRemote, FirstDifference, CacheAgrees, ZeroFree, Telling;
      AdoptionIff(sha, op.seen, n, op.remote);
    } else {
      hide *;
      OpKeeps(sha, n, op);
      OkIsRight(AfterOp(sha, n, op));
    }
  }

  lemma OkIsRight(n: NodeState)
    requires NodeOk(n)
    ensures Right(n)
  {
  }

  lemma RunPoint(sha: string -> string, states: seq<NodeState>, ops: seq<Op>, i: nat)
    requires Run(sha, states, ops) && i < |ops|
    ensures |states| == |ops| + 1 && states[i].cs.chain != [] && states[i + 1].cs.chain != []
    ensures OpOk(states[i], ops[i]) && states[i + 1] == AfterOp(sha, states[i], ops[i])
  {
    hide NodeOk, AfterOp, OpOk;
  }

  lemma TellingPoint(sha: string -> string, states: seq<NodeState>, ops: seq<Op>, i: nat)
    requires Run(sha, states, ops) && AllTelling(sha, states, ops) && i < |ops|
    ensures states[i].cs.chain != [] && states[i + 1].cs.chain != []
    ensures AdoptsZero(sha, states[i], ops[i])
            ==> ops[i].Adopt? && Telling(states[i + 1].cs, FirstDifference(states[i].cs.chain, ops[i].remote, 0))
  {
    RunPoint(sha, states, ops, i);
    hide Run, Telling, FirstDifference, Evaluate, ZeroFree;
  }

  lemma NextIsRightIff(sha: string -> string, states: seq<NodeState>, ops: seq<Op>, i: nat)
    requires Run(sha, states, ops) && AllTelling(sha, states, ops) && i < |ops| && NodeOk(states[i])
    ensures states[i].cs.chain != [] && (Right(states[i + 1]) <==> !AdoptsZero(sha, states[i], ops[i]))
  {
    hide *;
    RunPoint(sha, states, ops, i);
    TellingPoint(sha, states, ops, i);
    OneOpIff(sha, states[i], ops[i]);
  }

  ghost predicate RightTo(states: seq<NodeState>, k: nat)
    requires k < |states|
  {
    forall i :: 0 <= i <= k ==> Right(states[i])
  }

  ghost predicate NoZeroTo(sha: string -> string, states: seq<NodeState>, ops: seq<Op>, k: nat)
    requires Run(sha, states, ops) && k < |states|
  {
    forall i :: 0 <= i < k ==> !AdoptsZero(sha, states[i], ops[i])
  }

  lemma OneFurther(sha: string -> string, states: seq<NodeState>, ops: seq<Op>, k: nat)
    requires Run(sha, states, ops) && k + 1 < |states|
    ensures states[k].cs.chain != [] && k < |ops|
    ensures RightTo(states, k + 1) <==> RightTo(states, k) && Right(states[k + 1])
    ensures NoZeroTo(sha, states, ops, k + 1) <==> NoZeroTo(sha, states, ops, k) && !AdoptsZero(sha, states[k], ops[k])
  {
    RunPoint(sha, states, ops, k);
    hide Run, Right, AdoptsZero;
  }

  lemma RightAtStart(sha: string -> string, states: seq<NodeState>, ops: seq<Op>)
    requires Run(sha, states, ops)
    ensures |states| > 0 && RightTo(states, 0) && NoZeroTo(sha, states, ops, 0)
  {
    assert |states| > 0 && NodeOk(states[0]);
    OkIsRight(states[0]);
    hide Run, Right, AdoptsZero, NodeOk;
  }

  /** Work never falls up to a point of the run. */
  ghost predicate WorkKept(states: seq<NodeState>, k: nat)
    requires k < |states|
  {
    forall i, j :: 0 <= i <= j <= k ==> states[i].cs.work <= states[j].cs.work
  }

  lemma GoodUpTo(sha: string -> string, states: seq<NodeState>, ops: seq<Op>, k: nat)
    requires Run(sha, states, ops) && k < |states| && NoZeroTo(sha, states, ops, k)
    ensures NodeOk(states[k]) && WorkKept(states, k)
  {
    RunStaysGood(sha, states, ops, k);
    hide NodeOk, Run, AdoptsZero;
  }

  /**
   Along any run of commits, reorgs to any chains and sibling swaps, every cached height of every state
   holds exactly the ledger and work of replaying the current chain to it, up to any point, exactly when
   no chain taken over before it has a block claiming height 0 from its fork on. Until then no work is
   lost either.
   */
  lemma {:induction false} CacheAgreesIff(sha: string -> string, states: seq<NodeState>, ops: seq<Op>, k: nat)
    requires Run(sha, states, ops) && k < |states| && AllTelling(sha, states, ops)
    ensures RightTo(states, k) <==> NoZeroTo(sha, states, ops, k)
    ensures RightTo(states, k) ==> WorkKept(states, k)
  {
    hide *;
    if k == 0 {
      RightAtStart(sha, states, ops);
    } else {
      CacheAgreesIff(sha, states, ops, k - 1);
      OneFurther(sha, states, ops, k - 1);
      if NoZeroTo(sha, states, ops, k - 1) {
        GoodUpTo(sha, states, ops, k - 1);
        NextIsRightIff(sha, states, ops, k - 1);
      }
    }
    if NoZeroTo(sha, states, ops, k) {
      GoodUpTo(sha, states, ops, k);
    }
  }

  // ----- What stays at hand --------------------------------------------------------------------------------------

  /** The last `j` heights used are the tip's and those right below it. */
  ghost predicate RecentTail(n: NodeState, j: nat)
    requires n.cs.chain != []
  {
    j <= |n.order| && forall i {:trigger n.order[i]} :: |n.order| - j <= i < |n.order| ==> n.order[i] == Height(n.cs) - (|n.order| - 1 - i)
  }

  lemma {:induction false} WithoutAbsent(order: seq<int>, h: int)
    requires h !in order
    ensures Without(order, h) == order
  {
    if order != [] {
      assert order == [order[0]] + order[1..];
      WithoutAbsent(order[1..], h);
    }
  }

  lemma NextIsNew(n: NodeState)
    requires NodeOk(n) && n.cs.chain != []
    ensures Height(n.cs) + 1 !in n.order
  {
    TipHeight(n);
    forall h | h in n.order
      ensures h < |n.cs.chain|
    {
      assert Agrees(n.cs.chain, h, n.recent[h]);
    }
  }

  lemma CommitRemembers(n: NodeState, b: Block, j: nat)
    requires NodeOk(n) && n.cs.chain != [] && RecentTail(n, j) && j <= RECENT_STATE_CACHE_SIZE
    requires b.body.height == Height(n.cs) + 1
    ensures var after := Remember(n.(cs := ApplyBlock(n.cs, b)));
            after.cs.chain != [] && RecentTail(after, Min(j + 1, RECENT_STATE_CACHE_SIZE))
  {
    NextIsNew(n);
    WithoutAbsent(n.order, Height(n.cs) + 1);
    assert |n.order| <= RECENT_STATE_CACHE_SIZE;
    assert Height(ApplyBlock(n.cs, b)) == Height(n.cs) + 1;
    hide NodeOk, Without, ApplyBlock;
  }

  /** A run of commits alone. */
  ghost predicate OnlyCommits(sha: string -> string, states: seq<NodeState>, ops: seq<Op>) {
    Run(sha, states, ops) && forall i :: 0 <= i < |ops| ==> ops[i].Commit?
  }

  lemma {:induction false} CommitsStayAtHand(sha: string -> string, states: seq<NodeState>, ops: seq<Op>, k: nat)
    requires OnlyCommits(sha, states, ops) && k < |states|
    ensures NodeOk(states[k]) && states[k].cs.chain != [] && RecentTail(states[k], Min(k, RECENT_STATE_CACHE_SIZE))
  {
    hide NodeOk, RecentTail, Run;
    StartOfRun(sha, states, ops);
    if k > 0 {
      CommitsStayAtHand(sha, states, ops, k - 1);
      RunPoint(sha, states, ops, k - 1);
      CommitStep(sha, states[k - 1], ops[k - 1], Min(k - 1, RECENT_STATE_CACHE_SIZE));
    }
  }

  lemma StartOfRun(sha: string -> string, states: seq<NodeState>, ops: seq<Op>)
    requires Run(sha, states, ops)
    ensures |states| == |ops| + 1 && NodeOk(states[0]) && states[0].cs.chain != [] && RecentTail(states[0], 0)
  {
    hide NodeOk, AfterOp, OpOk;
  }

  lemma CommitStep(sha: string -> string, n: NodeState, op: Op, j: nat)
    requires NodeOk(n) && n.cs.chain != [] && op.Commit? && OpOk(n, op) && RecentTail(n, j) && j <= RECENT_STATE_CACHE_SIZE
    ensures var after := AfterOp(sha, n, op);
            NodeOk(after) && after.cs.chain != [] && RecentTail(after, Min(j + 1, RECENT_STATE_CACHE_SIZE))
  {
    TipHeight(n);
    assert op.block.body.height != 0 && Fits(n.cs, op.block) && op.block.body.height == Height(n.cs) + 1;
    hide NodeOk, RecentTail, Fits, ApplyBlock, Remember;
    CommitKeeps(n, op.block);
    CommitRemembers(n, op.block, j);
  }

  /** After `k` commits a fork no more than `k`, and no more than twenty, blocks deep is resumed without a replay. */
  lemma RecentForksResume(sha: string -> string, states: seq<NodeState>, ops: seq<Op>, k: nat, remote: seq<Block>, fork: nat)
    requires OnlyCommits(sha, states, ops) && k < |states| && states[k].cs.chain != []
    requires 1 <= fork <= |remote| && |states[k].cs.chain| - Min(k, RECENT_STATE_CACHE_SIZE) < fork <= |states[k].cs.chain|
    ensures Resume(states[k], fork, remote).Some?
  {
    CommitsStayAtHand(sha, states, ops, k);
    hide OnlyCommits, Run;
    var n, j := states[k], Min(k, RECENT_STATE_CACHE_SIZE);
    TipHeight(n);
    var i := |n.order| - 1 - (Height(n.cs) - (fork - 1));
    assert n.order[i] == fork - 1;
    InOrderIsCached(n, fork - 1);
  }

  lemma InOrderIsCached(n: NodeState, h: int)
    requires NodeOk(n) && h in n.order
    ensures h in n.recent
  {
  }
}
