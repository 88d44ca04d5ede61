/**
 The node's chain state and the cache of recent states beside it: commits, reorgs, and the draw among
 same-height siblings.
 */
module NodeChain {
  import opened Collections
  import opened Ledger
  import opened Blocks
  import opened ForkChoice
  import opened AcceptedChains

  const RECENT_STATE_CACHE_SIZE: nat := 20

  /** The ledger and work a height was left with. */
  datatype Cached = Cached(ledger: Ledger, work: int)

  datatype NodeState = NodeState(cs: ChainState, recent: map<int, Cached>, order: seq<int>)

  datatype Refusal = GenesisMismatch | InvalidBlock | NotBetter

  datatype Verdict = Verdict(fork: nat, remote: ChainState)

  function Height(cs: ChainState): int
    requires cs.chain != []
  {
    cs.chain[|cs.chain| - 1].body.height
  }

  // ----- The cache ---------------------------------------------------------------------------

  function Without(order: seq<int>, h: int): seq<int> {
    if order == [] then [] else (if order[0] == h then [] else [order[0]]) + Without(order[1..], h)
  }

  function DropOldest(n: NodeState): NodeState
    requires |n.order| > RECENT_STATE_CACHE_SIZE
  {
    n.(recent := n.recent - {n.order[0]}, order := n.order[1..])
  }

  function Remember(n: NodeState): NodeState
    requires n.cs.chain != []
  {
    var h := Height(n.cs);
    var added := n.(recent := n.recent[h := Cached(n.cs.ledger, n.cs.work)], order := Without(n.order, h) + [h]);
    if |added.order| > RECENT_STATE_CACHE_SIZE then DropOldest(added) else added
  }

  function Below(order: seq<int>, height: int): seq<int> {
    if order == [] then [] else (if order[0] < height then [order[0]] else []) + Below(order[1..], height)
  }

  function Forget(n: NodeState, height: int): NodeState {
    n.(recent := map h | h in n.recent && h < height :: n.recent[h], order := Below(n.order, height))
  }

  ghost predicate Agrees(chain: seq<Block>, h: int, c: Cached) {
    0 <= h < |chain| && c == Cached(ReplayLedger(chain[..h + 1]), ReplayWork(chain[..h + 1]))
  }

  /** The cache holds, at each of its heights, what replaying the current chain to that height gives. */
  ghost predicate CacheAgrees(chain: seq<Block>, recent: map<int, Cached>) {
    forall h :: h in recent ==> Agrees(chain, h, recent[h])
  }

  ghost predicate Ordered(order: seq<int>, keys: set<int>) {
    && (forall i, j :: 0 <= i < j < |order| ==> order[i] != order[j])
    && (forall h :: h in order <==> h in keys)
  }

  ghost predicate NodeOk(n: NodeState) {
    && ValidChain(n.cs.chain) && n.cs == Replay(n.cs.chain)
    && CacheAgrees(n.cs.chain, n.recent)
    && Ordered(n.order, n.recent.Keys) && |n.order| <= RECENT_STATE_CACHE_SIZE
  }

  lemma {:induction false} WithoutIs(order: seq<int>, h: int)
    requires forall i, j :: 0 <= i < j < |order| ==> order[i] != order[j]
    ensures |Without(order, h)| <= |order|
    ensures forall i, j :: 0 <= i < j < |Without(order, h)| ==> Without(order, h)[i] != Without(order, h)[j]
    ensures forall x :: x in Without(order, h) <==> x in order && x != h
  {
    if order != [] {
      WithoutIs(order[1..], h);
      assert order == [order[0]] + order[1..];
      assert order[0] !in order[1..];
    }
  }

  lemma {:induction false} BelowIs(order: seq<int>, height: int)
    requires forall i, j :: 0 <= i < j < |order| ==> order[i] != order[j]
    ensures |Below(order, height)| <= |order|
    ensures forall i, j :: 0 <= i < j < |Below(order, height)| ==> Below(order, height)[i] != Below(order, height)[j]
    ensures forall x :: x in Below(order, height) <==> x in order && x < height
  {
    if order != [] {
      BelowIs(order[1..], height);
      assert order == [order[0]] + order[1..];
      assert order[0] !in order[1..];
    }
  }

  lemma OrderAfterUse(order: seq<int>, keys: set<int>, h: int)
    requires Ordered(order, keys)
    ensures Ordered(Without(order, h) + [h], keys + {h}) && |Without(order, h)| <= |order|
  {
    WithoutIs(order, h);
    var kept := Without(order, h);
    assert forall i :: 0 <= i < |kept| ==> (kept + [h])[i] == kept[i] && kept[i] in kept;
  }

  lemma OrderAfterDrop(order: seq<int>, keys: set<int>)
    requires Ordered(order, keys) && order != []
    ensures Ordered(order[1..], keys - {order[0]})
  {
    assert order == [order[0]] + order[1..];
  }

  lemma RememberKeeps(n: NodeState)
    requires ValidChain(n.cs.chain) && n.cs == Replay(n.cs.chain) && CacheAgrees(n.cs.chain, n.recent)
    requires Ordered(n.order, n.recent.Keys) && |n.order| <= RECENT_STATE_CACHE_SIZE
    ensures NodeOk(Remember(n)) && Remember(n).cs == n.cs
  {
    assert n.cs.chain != [];
    hide ReplayLedger, ReplayWork, ValidChain, Ordered, Without, CacheAgrees;
    var h := Height(n.cs);
    TipAgrees(n);
    OrderAfterUse(n.order, n.recent.Keys, h);
    var order := Without(n.order, h) + [h];
    var recent := n.recent[h := Cached(n.cs.ledger, n.cs.work)];
    assert recent.Keys == n.recent.Keys + {h};
    if |order| > RECENT_STATE_CACHE_SIZE {
      OrderAfterDrop(order, recent.Keys);
      FewerAgree(n.cs.chain, recent, {order[0]});
      assert (recent - {order[0]}).Keys == recent.Keys - {order[0]};
    }
  }

  lemma TipAgrees(n: NodeState)
    requires ValidChain(n.cs.chain) && n.cs == Replay(n.cs.chain) && CacheAgrees(n.cs.chain, n.recent)
    ensures n.cs.chain != [] && CacheAgrees(n.cs.chain, n.recent[Height(n.cs) := Cached(n.cs.ledger, n.cs.work)])
  {
    assert n.cs.chain != [];
    hide ReplayLedger, ReplayWork, ValidChain;
    var h := Height(n.cs);
    HeightIsIndex(n.cs.chain, |n.cs.chain| - 1);
    assert n.cs.chain[..h + 1] == n.cs.chain;
    assert Agrees(n.cs.chain, h, Cached(n.cs.ledger, n.cs.work));
  }

  lemma FewerAgree(chain: seq<Block>, recent: map<int, Cached>, drop: set<int>)
    requires CacheAgrees(chain, recent)
    ensures CacheAgrees(chain, recent - drop)
  {
    hide Agrees;
  }

  lemma TipHeight(n: NodeState)
    requires NodeOk(n)
    ensures n.cs.chain != [] && Height(n.cs) == |n.cs.chain| - 1
  {
    HeightIsIndex(n.cs.chain, |n.cs.chain| - 1);
  }

  /** Moving to a chain that agrees below the fork keeps every cached height below the fork right. */
  lemma ForgetThenMove(n: NodeState, fork: nat, remote: ChainState)
    requires NodeOk(n)
    requires fork <= |n.cs.chain| && fork <= |remote.chain| && n.cs.chain[..fork] == remote.chain[..fork]
    ensures var m := Forget(n, fork).(cs := remote);
            CacheAgrees(remote.chain, m.recent) && Ordered(m.order, m.recent.Keys) && |m.order| <= RECENT_STATE_CACHE_SIZE
  {
    hide ReplayLedger, ReplayWork, ValidChain;
    var m := Forget(n, fork).(cs := remote);
    BelowIs(n.order, fork);
    forall h | h in m.recent
      ensures Agrees(remote.chain, h, m.recent[h])
    {
      assert Agrees(n.cs.chain, h, n.recent[h]);
      assert n.cs.chain[..h + 1] == n.cs.chain[..fork][..h + 1];
      assert remote.chain[..h + 1] == remote.chain[..fork][..h + 1];
    }
  }

  /** A commit adds a height on top and leaves every height below as it was. */
  lemma ExtendKeepsCache(n: NodeState, longer: seq<Block>)
    requires NodeOk(n) && |longer| >= |n.cs.chain| && longer[..|n.cs.chain|] == n.cs.chain
    ensures CacheAgrees(longer, n.recent)
  {
    hide ReplayLedger, ReplayWork, ValidChain;
    forall h | h in n.recent
      ensures Agrees(longer, h, n.recent[h])
    {
      assert Agrees(n.cs.chain, h, n.recent[h]);
      assert longer[..h + 1] == longer[..|n.cs.chain|][..h + 1];
    }
  }

  // ----- Evaluating a remote chain -------------------------------------------------------------------

  /** Accepts a tail block by block, or stops at the first block that is not valid. */
  function ValidateTail(now: real, cs: ChainState, tail: seq<Block>): Option<ChainState>
    decreases tail
  {
    if tail == [] then Some(cs)
    else if Valid(now, cs, tail[0]) then ValidateTail(now, ApplyBlock(cs, tail[0]), tail[1..])
    else None
  }

  /** The tip itself, the state right after genesis, or a cached one: whichever the fork allows resuming from. */
  function Resume(n: NodeState, fork: nat, remote: seq<Block>): Option<ChainState>
    requires fork <= |remote|
  {
    if fork == |n.cs.chain| then Some(n.cs)
    else if fork == 1 then Some(ChainState(remote[..fork], EMPTY, 0))
    else if fork - 1 in n.recent then
      Some(ChainState(remote[..fork], n.recent[fork - 1].ledger, n.recent[fork - 1].work))
    else None
  }

  /** The verdict on a tail built on a state for the blocks below the fork. */
  function Judge(sha: string -> string, now: real, local: ChainState, base: ChainState, fork: nat, tail: seq<Block>)
    : Result<Verdict, Refusal>
    requires local.chain != []
  {
    var built := ValidateTail(now, base, tail);
    if built.None? || built.value.chain == [] then Failure(InvalidBlock)
    else if IsBetter(sha, built.value, local) then Success(Verdict(fork, built.value))
    else Failure(NotBetter)
  }

  predicate SameGenesis(local: ChainState, remote: seq<Block>)
    requires local.chain != []
  {
    remote != [] && remote[0].hash == local.chain[0].hash
  }

  /** The verdict with no cache at all: replay the shared prefix from genesis, then validate the rest. */
  function EvaluateByReplay(sha: string -> string, now: real, local: ChainState, remote: seq<Block>): Result<Verdict, Refusal>
    requires local.chain != []
  {
    if !SameGenesis(local, remote) then Failure(GenesisMismatch)
    else
      var fork := FirstDifference(local.chain, remote, 0);
      Judge(sha, now, local, Replay(remote[..fork]), fork, remote[fork..])
  }

  /** The verdict as the node reaches it: resumed where it can be. */
  function Evaluate(sha: string -> string, now: real, n: NodeState, remote: seq<Block>): Result<Verdict, Refusal>
    requires n.cs.chain != []
  {
    if !SameGenesis(n.cs, remote) then Failure(GenesisMismatch)
    else
      var fork := FirstDifference(n.cs.chain, remote, 0);
      var resumed := Resume(n, fork, remote);
      Judge(sha, now, n.cs, if resumed.Some? then resumed.value else Replay(remote[..fork]), fork, remote[fork..])
  }

  /** A remote block naming the hash of one of this node's own blocks, below the fork, is that block. */
  ghost predicate HonestRemote(local: ChainState, remote: seq<Block>) {
    forall i :: 0 <= i < |remote| && i < FirstDifference(local.chain, remote, 0) ==> HashChecks(remote[i])
  }

  lemma EqualBelowFork(a: seq<Block>, b: seq<Block>, fork: nat)
    requires Linked(a) && fork <= |a| && fork <= |b|
    requires forall i :: 0 <= i < fork ==> SameAt(a, b, i) && HashChecks(b[i])
    ensures b[..fork] == a[..fork]
  {
    forall i | 0 <= i < fork
      ensures b[i] == a[i]
    {
      assert SameAt(a, b, i) && HashChecks(a[i]) && HashChecks(b[i]);
    }
  }

  lemma ForkSplitsRemote(local: ChainState, remote: seq<Block>)
    requires ValidChain(local.chain) && HonestRemote(local, remote)
    requires local.chain != [] && SameGenesis(local, remote)
    ensures var fork := FirstDifference(local.chain, remote, 0);
            && 1 <= fork <= |remote| && fork <= |local.chain| && remote[..fork] == local.chain[..fork]
            && ValidChain(remote[..fork])
  {
    var fork := FirstDifference(local.chain, remote, 0);
    ValidIsLinked(local.chain);
    hide ValidChain;
    EqualBelowFork(local.chain, remote, fork);
    assert SameAt(local.chain, remote, 0);
    ValidPrefix(local.chain, fork);
  }

  lemma GenesisReplays(chain: seq<Block>)
    requires ValidChain(chain)
    ensures Replay(chain[..1]) == ChainState(chain[..1], EMPTY, 0)
  {
    ValidPrefix(chain, 1);
    var one := chain[..1];
    assert one[..|one| - 1] == [] && one[0] == GENESIS;
    assert ReplayLedger([]) == EMPTY && ReplayWork([]) == 0;
    assert GENESIS.body.height == 0;
  }

  lemma ResumeIsReplay(n: NodeState, fork: nat, remote: seq<Block>)
    requires NodeOk(n) && 1 <= fork <= |n.cs.chain| && fork <= |remote| && remote[..fork] == n.cs.chain[..fork]
    ensures Resume(n, fork, remote).Some? ==> Resume(n, fork, remote).value == Replay(remote[..fork])
  {
    hide ReplayLedger, ReplayWork, ValidChain;
    GenesisReplays(n.cs.chain);
    assert n.cs.chain[..|n.cs.chain|] == n.cs.chain;
    if fork - 1 in n.recent {
      assert Agrees(n.cs.chain, fork - 1, n.recent[fork - 1]);
    }
  }

  /** Resuming from the tip, from genesis or from the cache, the verdict is the one a full replay gives, whatever the remote chain's blocks claim. */
  lemma EvaluateIsReplay(sha: string -> string, now: real, n: NodeState, remote: seq<Block>)
    requires NodeOk(n) && HonestRemote(n.cs, remote)
    ensures n.cs.chain != [] && Evaluate(sha, now, n, remote) == EvaluateByReplay(sha, now, n.cs, remote)
  {
    assert n.cs.chain != [];
    if SameGenesis(n.cs, remote) {
      var fork := FirstDifference(n.cs.chain, remote, 0);
      ForkSplitsRemote(n.cs, remote);
      hide NodeOk, Judge, Resume, Replay, HonestRemote, FirstDifference;
      ResumeIsReplay(n, fork, remote);
    }
  }

  lemma ValidFits(now: real, cs: ChainState, b: Block)
    requires Valid(now, cs, b)
    ensures Fits(cs, b)
  {
  }

  /** What validation builds is the state the accepted tail extends to. */
  lemma {:induction false} TailExtends(now: real, cs: ChainState, tail: seq<Block>)
    requires ValidateTail(now, cs, tail).Some?
    ensures Accepted(cs, tail) && ValidateTail(now, cs, tail).value == Extend(cs, tail)
    decreases tail
  {
    if tail != [] {
      ValidFits(now, cs, tail[0]);
      hide Fits, Valid, ApplyBlock;
      TailExtends(now, ApplyBlock(cs, tail[0]), tail[1..]);
    }
  }

  lemma CheckedIsLinked(chain: seq<Block>)
    requires Checked(chain)
    ensures Linked(chain)
  {
    forall i {:trigger chain[i]} | 0 <= i < |chain|
      ensures HashChecks(chain[i]) && (i > 0 && chain[i].body.height != 0 ==> chain[i].body.previous == chain[i - 1].hash)
    {
      HashAt(chain, i);
      if i > 0 {
        assert CheckedAt(chain, i) && chain[..i][|chain[..i]| - 1] == chain[i - 1];
      }
    }
  }

  /** A validated tail on a valid prefix: the state it extends to, and the chain it makes. */
  lemma BuiltTail(now: real, remote: seq<Block>, fork: nat)
    requires fork <= |remote| && ValidChain(remote[..fork])
    requires ValidateTail(now, Replay(remote[..fork]), remote[fork..]).Some?
    ensures var built := ValidateTail(now, Replay(remote[..fork]), remote[fork..]).value;
            && Accepted(Replay(remote[..fork]), remote[fork..]) && built == Extend(Replay(remote[..fork]), remote[fork..])
            && built.chain == remote && Checked(remote) && Linked(remote)
            && (ValidChain(remote) <==> ZeroFree(remote[fork..]))
            && (ZeroFree(remote[fork..]) ==> built == Replay(remote))
  {
    var base, tail := Replay(remote[..fork]), remote[fork..];
    assert remote[..fork] + tail == remote && base.chain == remote[..fork];
    hide ReplayLedger, ReplayWork, Linked, ValidateTail, ValidChain, Checked, Extend, ZeroFree;
    TailExtends(now, base, tail);
    ValidIsChecked(remote[..fork]);
    AcceptedIsChecked(base, tail);
    CheckedIsLinked(remote);
    ValidIffZeroFree(remote[..fork], tail);
  }

  /**
   A successful verdict on any remote chain: it shares the local chain up to the fork, its state is the
   shared prefix's replay extended block by block, and it is the replay of the whole exactly when no
   block from the fork on claims height 0 and exempts itself.
   */
  lemma VerdictIsExtension(sha: string -> string, now: real, local: ChainState, remote: seq<Block>)
    requires ValidChain(local.chain) && local == Replay(local.chain) && HonestRemote(local, remote)
    requires local.chain != [] && EvaluateByReplay(sha, now, local, remote).Success?
    ensures var v := EvaluateByReplay(sha, now, local, remote).value;
            && 1 <= v.fork <= |local.chain| && v.fork <= |remote| && local.chain[..v.fork] == remote[..v.fork]
            && ValidChain(remote[..v.fork]) && v.fork == FirstDifference(local.chain, remote, 0)
            && Accepted(Replay(remote[..v.fork]), remote[v.fork..])
            && v.remote == Extend(Replay(remote[..v.fork]), remote[v.fork..]) && v.remote.chain == remote && Checked(remote)
            && v.remote.work >= local.work && IsBetter(sha, v.remote, local)
            && (ValidChain(remote) <==> ZeroFree(remote[v.fork..]))
            && (ZeroFree(remote[v.fork..]) ==> v.remote == Replay(remote))
  {
    ForkSplitsRemote(local, remote);
    var fork := FirstDifference(local.chain, remote, 0);
    hide ValidChain, HonestRemote, ReplayLedger, ReplayWork, ValidateTail, FirstDifference, WinsTieBreak, Linked;
    BuiltTail(now, remote, fork);
  }

  lemma {:induction false} LastOfTail(now: real, cs: ChainState, tail: seq<Block>)
    requires ValidateTail(now, cs, tail).Some? && tail != []
    ensures tail[|tail| - 1].body.timestamp <= now + TIMESTAMP_SKEW_SECONDS
    decreases tail
  {
    hide Fits, ApplyBlock;
    if |tail| > 1 {
      LastOfTail(now, ApplyBlock(cs, tail[0]), tail[1..]);
    }
  }

  /** No chain a node takes over is longer than its clock allows: ninety seconds for each block since genesis. */
  lemma ClockBoundsLength(sha: string -> string, now: real, local: ChainState, remote: seq<Block>)
    requires ValidChain(local.chain) && local == Replay(local.chain) && HonestRemote(local, remote)
    requires local.chain != [] && EvaluateByReplay(sha, now, local, remote).Success?
    ensures remote != []
    ensures FirstDifference(local.chain, remote, 0) < |remote|
            ==> GENESIS_TIMESTAMP + MIN_BLOCK_SPACING_SECONDS * (|remote| - 1) as real <= now + TIMESTAMP_SKEW_SECONDS
  {
    hide *;
    VerdictIsExtension(sha, now, local, remote);
    SuccessIsBuilt(sha, now, local, remote);
    GenesisFirst(remote);
    var fork := FirstDifference(local.chain, remote, 0);
    if fork < |remote| {
      LastOfTail(now, Replay(remote[..fork]), remote[fork..]);
      SpacingAccumulates(remote, 0, |remote| - 1);
      assert remote[fork..][|remote[fork..]| - 1] == remote[|remote| - 1];
    }
  }

  lemma GenesisFirst(chain: seq<Block>)
    requires Checked(chain)
    ensures chain != [] && chain[0].body.timestamp == GENESIS_TIMESTAMP
  {
  }

  lemma SuccessIsBuilt(sha: string -> string, now: real, local: ChainState, remote: seq<Block>)
    requires local.chain != [] && EvaluateByReplay(sha, now, local, remote).Success?
    ensures var fork := FirstDifference(local.chain, remote, 0);
            fork <= |remote| && ValidateTail(now, Replay(remote[..fork]), remote[fork..]).Some?
  {
    hide FirstDifference, Replay, ValidateTail, IsBetter;
  }

  // ----- The draw ---------------------------------------------------------------------------------------

  /** A sibling as it comes in, and what the clock says then. */
  datatype Arrival = Arrival(block: Block, at: real)

  /** A sibling of the tip that may take its place: same parent, different hash, lower key, and valid there. */
  predicate TakesTip(now: real, parent: ChainState, tip: Block, b: Block) {
    && b.body.height == tip.body.height && b.hash != tip.hash && Less(b.body.key, tip.body.key)
    && Valid(now, parent, b)
  }

  /** The tip after one more sibling has been looked at. */
  function DrawStep(now: real, parent: ChainState, tip: Block, b: Block): Block {
    if TakesTip(now, parent, tip, b) then b else tip
  }

  function Draw(parent: ChainState, tip: Block, siblings: seq<Arrival>): Block
    decreases siblings
  {
    if siblings == [] then tip
    else Draw(parent, DrawStep(siblings[0].at, parent, tip, siblings[0].block), siblings[1..])
  }

  predicate Entrant(parent: ChainState, height: int, a: Arrival) {
    a.block.body.height == height && HashChecks(a.block) && Valid(a.at, parent, a.block)
  }

  ghost predicate Enters(parent: ChainState, height: int, siblings: seq<Arrival>, b: Block) {
    exists a :: a in siblings && a.block == b && Entrant(parent, height, a)
  }

  /** Whatever the order of arrival, the tip left standing is an entrant no other entrant beats. */
  lemma {:induction false} DrawLeavesLowest(parent: ChainState, tip: Block, siblings: seq<Arrival>)
    requires HashChecks(tip)
    ensures var end := Draw(parent, tip, siblings);
            && (end == tip || Enters(parent, tip.body.height, siblings, end))
            && !Less(tip.body.key, end.body.key)
            && (forall b :: Enters(parent, tip.body.height, siblings, b) ==> !Less(b.body.key, end.body.key))
    decreases siblings
  {
    hide Valid;
    LessIsStrictTotal(tip.body.key, tip.body.key);
    if siblings != [] {
      var first := siblings[0].block;
      var next := DrawStep(siblings[0].at, parent, tip, first);
      var end := Draw(parent, next, siblings[1..]);
      assert siblings == [siblings[0]] + siblings[1..];
      assert Valid(siblings[0].at, parent, first) ==> HashChecks(first) by { ValidChecksHash(siblings[0].at, parent, first); }
      DrawLeavesLowest(parent, next, siblings[1..]);
      LessIsStrictTotal(first.body.key, tip.body.key);
      NotLessChain(tip.body.key, next.body.key, end.body.key);
      NotLessChain(first.body.key, next.body.key, end.body.key);
      hide Less;
      forall b | Enters(parent, tip.body.height, siblings, b)
        ensures !Less(b.body.key, end.body.key)
      {
        var x :| x in siblings && x.block == b && Entrant(parent, tip.body.height, x);
        if x in siblings[1..] {
          assert Enters(parent, tip.body.height, siblings[1..], b);
        } else if first.hash == tip.hash {
          assert first.body == tip.body;
        }
      }
    }
  }

  lemma ValidChecksHash(now: real, cs: ChainState, b: Block)
    ensures Valid(now, cs, b) ==> HashChecks(b)
  {
  }

  lemma NotLessChain(a: string, b: string, c: string)
    requires !Less(b, c)
    ensures !Less(a, b) ==> !Less(a, c)
  {
    LessIsStrictTotal(a, b);
    LessIsStrictTotal(b, c);
    LessIsStrictTotal(a, c);
    if Less(a, c) && Less(c, b) {
      LessTransitive(a, c, b);
    }
  }

  /** No two of the tip and the entrants have one key. */
  ghost predicate KeysDiffer(parent: ChainState, tip: Block, x: seq<Arrival>) {
    forall a, b | (a == tip || Enters(parent, tip.body.height, x, a)) && (b == tip || Enters(parent, tip.body.height, x, b)) ::
      a.body.key == b.body.key ==> a == b
  }

  /** Two arrival sequences with the same entrants end on the same key, and on the same block where entrants' keys differ. */
  lemma DrawIsOrderIndependent(parent: ChainState, tip: Block, x: seq<Arrival>, y: seq<Arrival>)
    requires HashChecks(tip)
    requires forall b :: Enters(parent, tip.body.height, x, b) <==> Enters(parent, tip.body.height, y, b)
    ensures Draw(parent, tip, x).body.key == Draw(parent, tip, y).body.key
    ensures KeysDiffer(parent, tip, x) ==> Draw(parent, tip, x) == Draw(parent, tip, y)
  {
    DrawLeavesLowest(parent, tip, x);
    DrawLeavesLowest(parent, tip, y);
    var p, q := Draw(parent, tip, x), Draw(parent, tip, y);
    LessIsStrictTotal(p.body.key, q.body.key);
  }

  /** The same siblings in any order, each at its own time, are the same entrants unless one comes in ahead of its timestamp. */
  lemma SameSiblingsSameEntrants(parent: ChainState, height: int, x: seq<Arrival>, y: seq<Arrival>, b: Block)
    requires forall a :: a in x + y ==> a.block.body.timestamp <= a.at + TIMESTAMP_SKEW_SECONDS
    requires (exists a :: a in x && a.block == b) <==> (exists a :: a in y && a.block == b)
    ensures Enters(parent, height, x, b) <==> Enters(parent, height, y, b)
  {
    hide Fits;
    if a :| a in x && a.block == b && Entrant(parent, height, a) {
      var c :| c in y && c.block == b;
      assert c in x + y && Entrant(parent, height, c);
    }
    if a :| a in y && a.block == b && Entrant(parent, height, a) {
      var c :| c in x && c.block == b;
      assert c in x + y && Entrant(parent, height, c);
    }
  }

  /** The lowest key, and among equals the first. */
  function Lowest(entrants: seq<Block>): (w: Block)
    requires entrants != []
    ensures w in entrants
  {
    if |entrants| == 1 then entrants[0]
    else
      var rest := Lowest(entrants[..|entrants| - 1]);
      if Less(entrants[|entrants| - 1].body.key, rest.body.key) then entrants[|entrants| - 1] else rest
  }

  lemma {:induction false} NoneBeatsLowest(entrants: seq<Block>, b: Block)
    requires b in entrants
    ensures !Less(b.body.key, Lowest(entrants).body.key)
  {
    var last := entrants[|entrants| - 1];
    LessIsStrictTotal(b.body.key, b.body.key);
    if |entrants| > 1 {
      var front := entrants[..|entrants| - 1];
      assert entrants == front + [last];
      LessIsStrictTotal(last.body.key, Lowest(front).body.key);
      if b in front {
        NoneBeatsLowest(front, b);
        LessIsStrictTotal(Lowest(front).body.key, Lowest(front).body.key);
        NotLessChain(b.body.key, Lowest(front).body.key, Lowest(entrants).body.key);
      }
    }
  }

  /** The immediate pick among a height's candidates is a block no other valid candidate's chain would replace. */
  lemma PickAgreesWithForkChoice(sha: string -> string, chain: seq<Block>, entrants: seq<Block>, b: Block)
    requires ValidChain(chain) && b in entrants
    requires forall e :: e in entrants ==> e.body.height != 0 && Fits(Replay(chain), e)
    ensures !IsBetter(sha, Replay(chain + [b]), Replay(chain + [Lowest(entrants)]))
  {
    NoneBeatsLowest(entrants, b);
    OneBlockForkIsTheDraw(sha, chain, b, Lowest(entrants));
  }

  // ----- Whole runs -----------------------------------------------------------------------------------------

  datatype Op =
    | Commit(block: Block)
    | Adopt(remote: seq<Block>, seen: real)
    | Sibling(rival: Block, at: real)

  function Parent(cs: ChainState): ChainState
    requires |cs.chain| >= 2
  {
    Replay(cs.chain[..|cs.chain| - 1])
  }

  /** The node after taking over a better chain, or unchanged. */
  function Adopted(sha: string -> string, now: real, n: NodeState, remote: seq<Block>): NodeState
    requires n.cs.chain != []
  {
    var verdict := Evaluate(sha, now, n, remote);
    if verdict.Success? && verdict.value.remote.chain != [] then
      Remember(Forget(n, verdict.value.fork).(cs := verdict.value.remote))
    else n
  }

  /** The checks made before a sibling's chain is evaluated. */
  predicate Contends(n: NodeState, b: Block) {
    && |n.cs.chain| >= 2 && b.body.previous == n.cs.chain[|n.cs.chain| - 2].hash
    && b.body.height == Height(n.cs) && b.hash != n.cs.chain[|n.cs.chain| - 1].hash
    && Less(b.body.key, n.cs.chain[|n.cs.chain| - 1].body.key)
  }

  function AfterOp(sha: string -> string, n: NodeState, op: Op): NodeState
    requires n.cs.chain != []
  {
    match op
    case Commit(b) => Remember(n.(cs := ApplyBlock(n.cs, b)))
    case Adopt(remote, now) => Adopted(sha, now, n, remote)
    case Sibling(b, now) =>
      if Contends(n, b) then Adopted(sha, now, n, n.cs.chain[..|n.cs.chain| - 1] + [b]) else n
  }

  /** A commit is the winner of the next height, valid on the tip; a chain from a peer may be anything. */
  ghost predicate OpOk(n: NodeState, op: Op)
    requires n.cs.chain != []
  {
    match op
    case Commit(b) => b.body.height == Height(n.cs) + 1 && Fits(n.cs, b)
    case Adopt(remote, _) => HonestRemote(n.cs, remote)
    case Sibling(_, _) => true
  }

  /** This operation takes over a chain in which a block from the fork on claims height 0. */
  ghost predicate AdoptsZero(sha: string -> string, n: NodeState, op: Op)
    requires n.cs.chain != []
  {
    && op.Adopt? && Evaluate(sha, op.seen, n, op.remote).Success?
    && !ZeroFree(op.remote[FirstDifference(n.cs.chain, op.remote, 0)..])
  }

  /**
   Taking over any chain from a good state: the work never falls, and the node's state is good again
   exactly when no block from the fork on claims height 0.
   */
  lemma AdoptKeeps(sha: string -> string, now: real, n: NodeState, remote: seq<Block>)
    requires NodeOk(n) && HonestRemote(n.cs, remote)
    ensures n.cs.chain != [] && Adopted(sha, now, n, remote).cs.chain != []
    ensures Adopted(sha, now, n, remote).cs.work >= n.cs.work
    ensures Evaluate(sha, now, n, remote).Failure? ==> Adopted(sha, now, n, remote) == n
    ensures Evaluate(sha, now, n, remote).Success? ==>
              var fork := FirstDifference(n.cs.chain, remote, 0);
              && fork <= |remote|
              && (NodeOk(Adopted(sha, now, n, remote)) <==> ZeroFree(remote[fork..]))
              && Adopted(sha, now, n, remote).cs == Extend(Replay(remote[..fork]), remote[fork..])
              && (ZeroFree(remote[fork..]) ==> Adopted(sha, now, n, remote).cs == Replay(remote))
  {
    assert n.cs.chain != [];
    EvaluateIsReplay(sha, now, n, remote);
    hide ReplayLedger, ReplayWork, ValidChain, Evaluate, EvaluateByReplay, IsBetter, HonestRemote, ZeroFree, Accepted, Extend;
    var verdict := Evaluate(sha, now, n, remote);
    if verdict.Success? {
      VerdictIsExtension(sha, now, n.cs, remote);
      var m := Forget(n, verdict.value.fork).(cs := verdict.value.remote);
      RemembersChain(m);
      if ZeroFree(remote[verdict.value.fork..]) {
        ForgetThenMove(n, verdict.value.fork, verdict.value.remote);
        RememberKeeps(m);
      }
    }
  }

  lemma RemembersChain(n: NodeState)
    requires n.cs.chain != []
    ensures Remember(n).cs == n.cs
  {
  }

  lemma SiblingForksAtTip(chain: seq<Block>, b: Block)
    requires |chain| >= 2 && b.hash != chain[|chain| - 1].hash
    ensures FirstDifference(chain, chain[..|chain| - 1] + [b], 0) == |chain| - 1
  {
    var top := |chain| - 1;
    var remote := chain[..top] + [b];
    assert forall j :: 0 <= j < top ==> remote[j] == chain[j] && SameAt(chain, remote, j);
    FirstDifferenceIs(chain, remote, 0, top);
  }

  /** A chain that only replaces the tip shares this node's own blocks below it. */
  lemma SiblingIsHonest(n: NodeState, b: Block)
    requires NodeOk(n) && |n.cs.chain| >= 2 && b.hash != n.cs.chain[|n.cs.chain| - 1].hash
    ensures var remote := n.cs.chain[..|n.cs.chain| - 1] + [b];
            HonestRemote(n.cs, remote) && FirstDifference(n.cs.chain, remote, 0) == |n.cs.chain| - 1
  {
    var top := |n.cs.chain| - 1;
    var remote := n.cs.chain[..top] + [b];
    ValidIsLinked(n.cs.chain);
    hide ValidChain, ReplayLedger, ReplayWork, CacheAgrees, Ordered, FirstDifference;
    SiblingForksAtTip(n.cs.chain, b);
    forall i | 0 <= i < |remote| && i < top
      ensures HashChecks(remote[i])
    {
      assert remote[i] == n.cs.chain[i] && HashChecks(n.cs.chain[i]);
    }
  }

  lemma SiblingKeeps(sha: string -> string, now: real, n: NodeState, b: Block)
    requires NodeOk(n) && Contends(n, b)
    ensures var after := Adopted(sha, now, n, n.cs.chain[..|n.cs.chain| - 1] + [b]);
            NodeOk(after) && after.cs.work >= n.cs.work
  {
    var top := |n.cs.chain| - 1;
    var remote := n.cs.chain[..top] + [b];
    HeightIsIndex(n.cs.chain, top);
    SiblingIsHonest(n, b);
    assert remote[top..] == [b] && ZeroFree([b]);
    hide NodeOk, HonestRemote, Adopted, Evaluate;
    AdoptKeeps(sha, now, n, remote);
  }

  lemma CommitKeeps(n: NodeState, b: Block)
    requires NodeOk(n) && b.body.height != 0 && Fits(n.cs, b)
    ensures NodeOk(Remember(n.(cs := ApplyBlock(n.cs, b))))
    ensures Remember(n.(cs := ApplyBlock(n.cs, b))).cs == ApplyBlock(n.cs, b)
    ensures ApplyBlock(n.cs, b).work > n.cs.work
  {
    ApplyBlockIsReplay(n.cs.chain, b);
    var longer := n.cs.chain + [b];
    assert longer[..|n.cs.chain|] == n.cs.chain;
    ExtendKeepsCache(n, longer);
    WorkGrows(longer, |n.cs.chain|);
    RememberKeeps(n.(cs := ApplyBlock(n.cs, b)));
  }

  /** One operation from a good state: work never falls, and the state is good again unless it takes over a height 0 block. */
  lemma OpKeeps(sha: string -> string, n: NodeState, op: Op)
    requires NodeOk(n) && n.cs.chain != [] && OpOk(n, op)
    ensures AfterOp(sha, n, op).cs.work >= n.cs.work && AfterOp(sha, n, op).cs.chain != []
    ensures NodeOk(AfterOp(sha, n, op)) <==> !AdoptsZero(sha, n, op)
  {
    TipHeight(n);
    hide NodeOk, Adopted, Remember, Fits, HonestRemote, Evaluate, ZeroFree;
    match op {
      case Commit(b) =>
        CommitKeeps(n, b);
      case Adopt(remote, now) =>
        AdoptKeeps(sha, now, n, remote);
      case Sibling(b, now) =>
        if Contends(n, b) {
          SiblingKeeps(sha, now, n, b);
          OkNotEmpty(Adopted(sha, now, n, n.cs.chain[..|n.cs.chain| - 1] + [b]));
        }
    }
  }

  lemma OkNotEmpty(n: NodeState)
    requires NodeOk(n)
    ensures n.cs.chain != []
  {
  }

  ghost predicate Run(sha: string -> string, states: seq<NodeState>, ops: seq<Op>) {
    && |states| == |ops| + 1 && NodeOk(states[0])
    && (forall i :: 0 <= i < |states| ==> states[i].cs.chain != [])
    && forall i :: 0 <= i < |ops| ==> OpOk(states[i], ops[i]) && states[i + 1] == AfterOp(sha, states[i], ops[i])
  }

  /** Along any run the states are good, and no work is lost, as long as no chain taken over has a block claiming height 0 from its fork on. */
  lemma {:induction false} RunStaysGood(sha: string -> string, states: seq<NodeState>, ops: seq<Op>, k: nat)
    requires Run(sha, states, ops) && k < |states|
    ensures (forall i :: 0 <= i <= k ==> NodeOk(states[i]))
            <==> (forall i :: 0 <= i < k ==> !AdoptsZero(sha, states[i], ops[i]))
    ensures (forall i :: 0 <= i <= k ==> NodeOk(states[i]))
            ==> forall i, j :: 0 <= i <= j <= k ==> states[i].cs.work <= states[j].cs.work
  {
    hide NodeOk, AfterOp, OpOk, AdoptsZero;
    if k > 0 {
      RunStaysGood(sha, states, ops, k - 1);
      if NodeOk(states[k - 1]) {
        OpKeeps(sha, states[k - 1], ops[k - 1]);
        assert states[k - 1 + 1] == AfterOp(sha, states[k - 1], ops[k - 1]);
      }
    }
  }
}
