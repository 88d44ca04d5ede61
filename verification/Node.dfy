/** The node object: methods that keep the chain state and the recent-state cache, in place. */
module Node {
  import opened Collections
  import opened Ledger
  import opened Blocks
  import opened ForkChoice
  import opened AcceptedChains
  import opened NodeChain
  import NodeCache

  class Node {
    const sha: string -> string
    var cs: ChainState
    var recent: map<int, Cached>
    var order: seq<int>
    var drawHeight: int

    ghost function Value(): NodeState
      reads this
    {
      NodeState(cs, recent, order)
    }

    ghost predicate Valid()
      reads this
    {
      NodeOk(Value())
    }

    constructor (digest: string -> string, chain: seq<Block>)
      requires ValidChain(chain)
      ensures Valid() && sha == digest && cs == Replay(chain) && recent == map[]
    {
      sha, cs, recent, order, drawHeight := digest, Replay(chain), map[], [], -1;
    }

    method RememberState()
      requires cs.chain != [] && |order| <= RECENT_STATE_CACHE_SIZE
      requires forall i, j :: 0 <= i < j < |order| ==> order[i] != order[j]
      modifies this`recent, this`order
      ensures Value() == Remember(old(Value()))
    {
      var h := Height(cs);
      WithoutIs(order, h);
      recent, order := recent[h := Cached(cs.ledger, cs.work)], Without(order, h) + [h];
      while |order| > RECENT_STATE_CACHE_SIZE
        invariant |order| <= RECENT_STATE_CACHE_SIZE + 1
        invariant |order| > RECENT_STATE_CACHE_SIZE ==> DropOldest(Value()) == Remember(old(Value()))
        invariant |order| <= RECENT_STATE_CACHE_SIZE ==> Value() == Remember(old(Value()))
        decreases |order|
      {
        recent, order := recent - {order[0]}, order[1..];
      }
    }

    method ForgetStatesFrom(height: int)
      modifies this`recent, this`order
      ensures Value() == Forget(old(Value()), height)
    {
      recent := map h | h in recent && h < height :: recent[h];
      order := Below(order, height);
    }

    /** A chain state to resume from at the fork, when one is at hand. */
    method ResumePoint(fork: nat, remote: seq<Block>) returns (base: Option<ChainState>)
      requires Valid() && 1 <= fork <= |cs.chain| && fork <= |remote| && remote[..fork] == cs.chain[..fork]
      ensures base == Resume(Value(), fork, remote)
      ensures base.Some? ==> base.value == Replay(remote[..fork])
      ensures base.None? <==> 1 < fork < |cs.chain| && fork - 1 !in recent
    {
      ResumeIsReplay(Value(), fork, remote);
      hide NodeOk, Replay;
      if fork == |cs.chain| {
        return Some(cs);
      }
      if fork - 1 == 0 {
        return Some(ChainState(remote[..fork], EMPTY, 0));
      }
      if fork - 1 !in recent {
        return None;
      }
      return Some(ChainState(remote[..fork], recent[fork - 1].ledger, recent[fork - 1].work));
    }

    /**
     Resuming from the cache, or from the tip, or replaying from genesis, the verdict on any remote chain
     is the one a full replay gives: the same acceptance, the same refusal, the same chain state.
     */
    method EvaluateRemoteChain(remote: seq<Block>, now: real) returns (r: Result<Verdict, Refusal>)
      requires Valid() && HonestRemote(cs, remote)
      ensures r == EvaluateByReplay(sha, now, cs, remote)
    {
      if remote == [] || remote[0].hash != cs.chain[0].hash {
        return Failure(GenesisMismatch);
      }
      ForkSplitsRemote(cs, remote);
      var fork := ScanForFork(cs.chain, remote);
      var base := BaseAt(fork, remote);
      var built := ExtendByTail(base, remote[fork..], now);
      JudgedByParts(sha, now, cs, remote);
      hide NodeOk, HonestRemote, EvaluateByReplay, FirstDifference, ValidateTail, Linked, IsBetter, Replay;
      if built.None? {
        return Failure(InvalidBlock);
      }
      var better := IsBetterThan(sha, built.value, cs);
      return if better then Success(Verdict(fork, built.value)) else Failure(NotBetter);
    }

    /** The state at the fork: resumed when there is one to resume from, replayed from genesis otherwise. */
    method BaseAt(fork: nat, remote: seq<Block>) returns (base: ChainState)
      requires Valid() && 1 <= fork <= |cs.chain| && fork <= |remote| && remote[..fork] == cs.chain[..fork]
      ensures base == Replay(remote[..fork])
    {
      hide NodeOk, Replay;
      var resumed := ResumePoint(fork, remote);
      if resumed.Some? {
        base := resumed.value;
      } else {
        base := FromChain(remote[..fork]);
      }
    }

    static method ExtendByTail(base: ChainState, tail: seq<Block>, now: real) returns (r: Option<ChainState>)
      ensures r == ValidateTail(now, base, tail)
    {
      var at := base;
      assert tail[0..] == tail;
      for i := 0 to |tail|
        invariant ValidateTail(now, at, tail[i..]) == ValidateTail(now, base, tail)
      {
        assert tail[i..][1..] == tail[i + 1..];
        if !Blocks.Valid(now, at, tail[i]) {
          return None;
        }
        at := ApplyBlock(at, tail[i]);
      }
      return Some(at);
    }

    /**
     Takes over exactly what a full replay would take over, and leaves everything alone otherwise. The
     cache is right again exactly when no block from the fork on claims height 0, wherever such a block
     shows.
     */
    method ApplyBetterChain(remote: seq<Block>, now: real) returns (ok: bool)
      requires Valid() && HonestRemote(cs, remote)
      modifies this`cs, this`recent, this`order
      ensures Value() == Adopted(sha, now, old(Value()), remote)
      ensures ok == EvaluateByReplay(sha, now, old(cs), remote).Success?
      ensures !ok ==> Value() == old(Value())
      ensures ok ==>
                var fork := FirstDifference(old(cs).chain, remote, 0);
                && fork <= |remote| && cs == Extend(Replay(remote[..fork]), remote[fork..])
                && (Valid() <==> ZeroFree(remote[fork..])) && (ZeroFree(remote[fork..]) ==> cs == Replay(remote))
                && cs.chain == remote != []
                && (NodeCache.Telling(cs, fork) ==> (CacheAgrees(remote, recent) <==> ZeroFree(remote[fork..])))
      ensures cs.work >= old(cs).work
    {
      AdoptKeeps(sha, now, Value(), remote);
      EvaluateIsReplay(sha, now, Value(), remote);
      var r := EvaluateRemoteChain(remote, now);
      if r.Failure? {
        return false;
      }
      AdoptionByParts(sha, now, Value(), remote);
      NodeCache.AdoptionIff(sha, now, Value(), remote);
      hide NodeOk, EvaluateByReplay, Evaluate, Adopted, Remember, Forget, HonestRemote, Extend, Replay, CacheAgrees,
           NodeCache.Telling, ZeroFree;
      ForgetStatesFrom(r.value.fork);
      cs := r.value.remote;
      RememberState();
      return true;
    }

    /** Appends the winner of the next height, valid on the tip, and opens its height's draw. */
    method Commit(b: Block)
      requires Valid() && cs.chain != [] && OpOk(Value(), NodeChain.Commit(b))
      modifies this
      ensures Valid() && Value() == AfterOp(sha, old(Value()), NodeChain.Commit(b))
      ensures cs == Replay(old(cs).chain + [b]) && cs.work > old(cs).work && drawHeight == b.body.height
    {
      TipHeight(Value());
      CommitKeeps(Value(), b);
      ApplyBlockIsReplay(cs.chain, b);
      cs := ApplyBlock(cs, b);
      RememberState();
      drawHeight := b.body.height;
    }

    /** While the height's draw is open, a sibling is looked at; the tip's height and the draw stay as they were. */
    method ReorgToSibling(b: Block, open: bool, now: real) returns (ok: bool)
      requires Valid()
      modifies this`cs, this`recent, this`order
      ensures Valid() && old(cs).chain != []
      ensures Value() == if open && drawHeight == b.body.height then AfterOp(sha, old(Value()), NodeChain.Sibling(b, now))
                         else old(Value())
      ensures !ok ==> Value() == old(Value())
    {
      TipHeight(Value());
      SiblingByParts(sha, Value(), b, now);
      hide NodeOk, EvaluateByReplay, Adopted, AfterOp, Less, HonestRemote, Replay, Extend, ZeroFree, FirstDifference;
      var top := |cs.chain| - 1;
      if !open || drawHeight != b.body.height || b.body.height != Height(cs) || Height(cs) == 0 {
        return false;
      }
      if b.body.previous != cs.chain[top - 1].hash || b.hash == cs.chain[top].hash
         || !Less(b.body.key, cs.chain[top].body.key) {
        return false;
      }
      ok := ApplyBetterChain(cs.chain[..top] + [b], now);
    }

    /** The lowest key among this node's own candidate, unless stale, and the peers' valid ones. */
    method PickWinner(candidate: Option<Block>, peers: seq<Block>, now: real) returns (winner: Option<Block>)
      requires cs.chain != []
      ensures winner == var all := Entrants(now, cs, candidate, peers); if all == [] then None else Some(Lowest(all))
      ensures winner.Some? ==> MayWin(now, cs, candidate, peers, winner.value)
      ensures forall b :: MayWin(now, cs, candidate, peers, b) ==> winner.Some? && !Less(b.body.key, winner.value.body.key)
    {
      var entrants := GatherEntrants(candidate, peers, now);
      EntrantsAre(now, cs, candidate, peers);
      hide Blocks.Valid, Less, MayWin, Entrants, Lowest;
      if entrants == [] {
        return None;
      }
      var best := LowestKey(entrants);
      return Some(best);
    }

    method GatherEntrants(candidate: Option<Block>, peers: seq<Block>, now: real) returns (entrants: seq<Block>)
      requires cs.chain != []
      ensures entrants == Entrants(now, cs, candidate, peers)
    {
      hide Blocks.Valid, Less;
      var valid: seq<Block> := [];
      for i := 0 to |peers|
        invariant valid == ValidPeers(now, cs, peers[..i])
      {
        assert peers[..i + 1][..i] == peers[..i];
        if CandidateFor(now, cs, peers[i]) {
          valid := valid + [peers[i]];
        }
      }
      assert peers[..|peers|] == peers;
      entrants := (if candidate.Some? && candidate.value.body.previous == cs.chain[|cs.chain| - 1].hash
                   then [candidate.value] else []) + valid;
    }

    static method LowestKey(entrants: seq<Block>) returns (best: Block)
      requires entrants != []
      ensures best == Lowest(entrants)
    {
      hide Less;
      best := entrants[0];
      assert entrants[..1] == [entrants[0]];
      for i := 1 to |entrants|
        invariant best == Lowest(entrants[..i])
      {
        assert entrants[..i + 1][..i] == entrants[..i];
        if Less(entrants[i].body.key, best.body.key) {
          best := entrants[i];
        }
      }
      assert entrants[..|entrants|] == entrants;
    }
  }

  /** A peer's block judged against the tip. */
  predicate CandidateFor(now: real, cs: ChainState, b: Block)
    requires cs.chain != []
  {
    && b.body.height == Height(cs) + 1 && b.body.previous == cs.chain[|cs.chain| - 1].hash
    && Blocks.Valid(now, cs, b)
  }

  function ValidPeers(now: real, cs: ChainState, peers: seq<Block>): seq<Block>
    requires cs.chain != []
  {
    if peers == [] then []
    else
      var last := peers[|peers| - 1];
      ValidPeers(now, cs, peers[..|peers| - 1]) + if CandidateFor(now, cs, last) then [last] else []
  }

  function Entrants(now: real, cs: ChainState, candidate: Option<Block>, peers: seq<Block>): seq<Block>
    requires cs.chain != []
  {
    (if candidate.Some? && candidate.value.body.previous == cs.chain[|cs.chain| - 1].hash then [candidate.value] else [])
    + ValidPeers(now, cs, peers)
  }

  /** Who may win a height: this node's own candidate, unless stale, and the peers' blocks that are valid on the tip. */
  predicate MayWin(now: real, cs: ChainState, candidate: Option<Block>, peers: seq<Block>, b: Block)
    requires cs.chain != []
  {
    (candidate == Some(b) && b.body.previous == cs.chain[|cs.chain| - 1].hash) || (b in peers && CandidateFor(now, cs, b))
  }

  lemma {:induction false} ValidPeersAre(now: real, cs: ChainState, peers: seq<Block>, b: Block)
    requires cs.chain != []
    ensures b in ValidPeers(now, cs, peers) <==> b in peers && CandidateFor(now, cs, b)
  {
    hide CandidateFor;
    if peers != [] {
      var front, last := peers[..|peers| - 1], peers[|peers| - 1];
      assert peers == front + [last];
      ValidPeersAre(now, cs, front, b);
    }
  }

  lemma EntrantsAre(now: real, cs: ChainState, candidate: Option<Block>, peers: seq<Block>)
    requires cs.chain != []
    ensures var all := Entrants(now, cs, candidate, peers);
            && (forall b :: b in all <==> MayWin(now, cs, candidate, peers, b))
            && (forall b :: b in all ==> !Less(b.body.key, Lowest(all).body.key))
  {
    hide CandidateFor, Less, Lowest;
    var all := Entrants(now, cs, candidate, peers);
    forall b
      ensures b in all <==> MayWin(now, cs, candidate, peers, b)
    {
      ValidPeersAre(now, cs, peers, b);
    }
    forall b | b in all
      ensures !Less(b.body.key, Lowest(all).body.key)
    {
      NoneBeatsLowest(all, b);
    }
  }

  /** A full replay's verdict on a chain with this genesis, read off what validation builds. */
  lemma JudgedByParts(sha: string -> string, now: real, local: ChainState, remote: seq<Block>)
    requires ValidChain(local.chain) && local.chain != [] && HonestRemote(local, remote) && SameGenesis(local, remote)
    ensures var fork := FirstDifference(local.chain, remote, 0);
            && fork <= |remote| && Linked(local.chain) && NoLaterZero(local.chain)
            && var built := ValidateTail(now, Replay(remote[..fork]), remote[fork..]);
            && (built.None? ==> EvaluateByReplay(sha, now, local, remote) == Failure(InvalidBlock))
            && (built.Some? ==>
                  && built.value.chain != [] && Linked(built.value.chain)
                  && EvaluateByReplay(sha, now, local, remote)
                     == if IsBetter(sha, built.value, local) then Success(Verdict(fork, built.value)) else Failure(NotBetter))
  {
    var fork := FirstDifference(local.chain, remote, 0);
    ForkSplitsRemote(local, remote);
    ValidIsLinked(local.chain);
    hide ValidChain, HonestRemote, FirstDifference, ValidateTail, ReplayLedger, ReplayWork, IsBetter, Linked, Accepted, Checked, Extend;
    if ValidateTail(now, Replay(remote[..fork]), remote[fork..]).Some? {
      BuiltTail(now, remote, fork);
    }
  }

  /** The steps by which a better chain is taken over. */
  lemma AdoptionByParts(sha: string -> string, now: real, n: NodeState, remote: seq<Block>)
    requires NodeOk(n) && HonestRemote(n.cs, remote) && n.cs.chain != []
    requires EvaluateByReplay(sha, now, n.cs, remote).Success?
    ensures var v := EvaluateByReplay(sha, now, n.cs, remote).value;
            var m := Forget(n, v.fork).(cs := v.remote);
            && v.remote.chain != [] && Adopted(sha, now, n, remote) == Remember(m) && |m.order| <= RECENT_STATE_CACHE_SIZE
            && forall i, j :: 0 <= i < j < |m.order| ==> m.order[i] != m.order[j]
  {
    EvaluateIsReplay(sha, now, n, remote);
    VerdictIsExtension(sha, now, n.cs, remote);
    BelowIs(n.order, EvaluateByReplay(sha, now, n.cs, remote).value.fork);
    SuccessIsNotEmpty(sha, now, n.cs, remote);
    hide Evaluate, EvaluateByReplay, Remember, ValidChain, CacheAgrees, ReplayLedger, ReplayWork;
  }

  lemma SuccessIsNotEmpty(sha: string -> string, now: real, local: ChainState, remote: seq<Block>)
    requires local.chain != [] && EvaluateByReplay(sha, now, local, remote).Success?
    ensures EvaluateByReplay(sha, now, local, remote).value.remote.chain != []
  {
    hide ValidateTail, FirstDifference, IsBetter;
  }

  lemma SiblingNamesParent(now: real, cs: ChainState, b: Block)
    requires ValidChain(cs.chain) && |cs.chain| >= 2 && b.body.height != 0
    ensures Blocks.Valid(now, Parent(cs), b) ==> b.body.previous == cs.chain[|cs.chain| - 2].hash
  {
    var parent := cs.chain[..|cs.chain| - 1];
    assert parent[|parent| - 1] == cs.chain[|cs.chain| - 2];
    hide ReplayLedger, ReplayWork, ValidChain, ValidTxs, GetVdfIterations;
  }

  /** A lower sibling is adopted exactly when it is valid on the tip's parent. */
  lemma SiblingVerdict(sha: string -> string, now: real, cs: ChainState, b: Block)
    requires ValidChain(cs.chain) && cs == Replay(cs.chain) && |cs.chain| >= 2
    requires b.body.height == Height(cs) && b.hash != cs.chain[|cs.chain| - 1].hash
    requires Less(b.body.key, cs.chain[|cs.chain| - 1].body.key)
    ensures EvaluateByReplay(sha, now, cs, cs.chain[..|cs.chain| - 1] + [b]).Success?
            <==> Blocks.Valid(now, Parent(cs), b)
  {
    hide ReplayLedger, ReplayWork, ValidChain, Fits, IsBetter, FirstDifference;
    var top := |cs.chain| - 1;
    var parent, tip := cs.chain[..top], cs.chain[top];
    var remote := parent + [b];
    ValidAt(cs.chain, top);
    HeightIsIndex(cs.chain, top);
    SiblingForksAtTip(cs.chain, b);
    assert remote[..top] == parent && remote[top..] == [b] && remote[0] == cs.chain[0];
    OneTail(now, Parent(cs), b);
    if Blocks.Valid(now, Parent(cs), b) {
      ValidFits(now, Parent(cs), b);
      ApplyBlockIsReplay(parent, b);
      OneBlockForkIsTheDraw(sha, parent, b, tip);
      assert parent + [tip] == cs.chain;
    }
  }

  /**
   Looking at a sibling replaces the tip exactly when the sibling is a valid child of the tip's parent
   with a lower key; the work is the same either way.
   */
  lemma SiblingReplacesTip(sha: string -> string, now: real, n: NodeState, b: Block)
    requires NodeOk(n) && |n.cs.chain| >= 2
    ensures var top := |n.cs.chain| - 1;
            var after := AfterOp(sha, n, Sibling(b, now)).cs;
            && after.chain == n.cs.chain[..top] + [DrawStep(now, Parent(n.cs), n.cs.chain[top], b)]
            && after.work == n.cs.work
  {
    var top := |n.cs.chain| - 1;
    var tip := n.cs.chain[top];
    assert n.cs.chain[..top] + [tip] == n.cs.chain;
    hide Fits, ReplayLedger, ReplayWork, ValidChain, Adopted, CacheAgrees, Ordered;
    if Contends(n, b) {
      LowerSibling(sha, now, n, b);
    } else if b.body.height == Height(n.cs) && b.hash != tip.hash && Less(b.body.key, tip.body.key) {
      HeightIsIndex(n.cs.chain, top);
      SiblingNamesParent(now, n.cs, b);
    }
  }

  lemma SiblingByParts(sha: string -> string, n: NodeState, b: Block, now: real)
    requires NodeOk(n)
    ensures n.cs.chain != [] && var top := |n.cs.chain| - 1;
            if top > 0 && b.body.height == Height(n.cs) && b.body.previous == n.cs.chain[top - 1].hash
               && b.hash != n.cs.chain[top].hash && Less(b.body.key, n.cs.chain[top].body.key)
            then
              && HonestRemote(n.cs, n.cs.chain[..top] + [b]) && NodeOk(Adopted(sha, now, n, n.cs.chain[..top] + [b]))
              && AfterOp(sha, n, NodeChain.Sibling(b, now)) == Adopted(sha, now, n, n.cs.chain[..top] + [b])
            else AfterOp(sha, n, NodeChain.Sibling(b, now)) == n
  {
    TipHeight(n);
    hide Adopted, Less, NodeOk, HonestRemote, FirstDifference;
    if Contends(n, b) {
      SiblingIsHonest(n, b);
      SiblingKeeps(sha, now, n, b);
    }
  }

  /** What a contender is, before any of it is validated. */
  lemma ContenderIs(n: NodeState, b: Block)
    requires NodeOk(n) && Contends(n, b)
    ensures |n.cs.chain| >= 2 && ValidChain(n.cs.chain) && n.cs == Replay(n.cs.chain) && n.cs.chain != []
    ensures var top := |n.cs.chain| - 1;
            && b.body.height != 0 && b.body.height == Height(n.cs) && b.hash != n.cs.chain[top].hash
            && Less(b.body.key, n.cs.chain[top].body.key)
            && (n.cs.chain[..top] + [b])[top..] == [b] && ZeroFree([b])
            && n.cs.chain[..top] + [n.cs.chain[top]] == n.cs.chain
            && ValidChain(n.cs.chain[..top]) && n.cs.chain[top].body.height != 0 && Fits(Parent(n.cs), n.cs.chain[top])
  {
    var top := |n.cs.chain| - 1;
    HeightIsIndex(n.cs.chain, top);
    ValidAt(n.cs.chain, top);
    hide Fits, ReplayLedger, ReplayWork, ValidChain, CacheAgrees, Ordered, Less;
  }

  lemma ContenderOutcome(sha: string -> string, now: real, n: NodeState, b: Block)
    requires NodeOk(n) && Contends(n, b)
    ensures var remote := n.cs.chain[..|n.cs.chain| - 1] + [b];
            Adopted(sha, now, n, remote).cs == if Blocks.Valid(now, Parent(n.cs), b) then Replay(remote) else n.cs
  {
    ContenderIs(n, b);
    hide *;
    SiblingVerdict(sha, now, n.cs, b);
    SiblingIsHonest(n, b);
    var remote := n.cs.chain[..|n.cs.chain| - 1] + [b];
    AdoptKeeps(sha, now, n, remote);
    EvaluateIsReplay(sha, now, n, remote);
  }

  lemma LowerSibling(sha: string -> string, now: real, n: NodeState, b: Block)
    requires NodeOk(n) && Contends(n, b)
    ensures var top := |n.cs.chain| - 1;
            var after := Adopted(sha, now, n, n.cs.chain[..top] + [b]).cs;
            after.work == n.cs.work
            && after.chain == if Blocks.Valid(now, Parent(n.cs), b) then n.cs.chain[..top] + [b] else n.cs.chain
  {
    var top := |n.cs.chain| - 1;
    ContenderIs(n, b);
    ContenderOutcome(sha, now, n, b);
    hide Fits, ReplayLedger, ReplayWork, ValidChain, Adopted, Less, NodeOk, Contends, ZeroFree;
    if Blocks.Valid(now, Parent(n.cs), b) {
      ValidFits(now, Parent(n.cs), b);
      SiblingsCarrySameWork(n.cs.chain[..top], b, n.cs.chain[top]);
    }
  }

  /** Any siblings, in any order and each judged at the time it comes in, leave at the tip what the draw leaves. */
  lemma {:induction false} SiblingsRunTheDraw(sha: string -> string, n: NodeState, siblings: seq<Arrival>)
    requires NodeOk(n) && |n.cs.chain| >= 2
    ensures var top := |n.cs.chain| - 1;
            AfterSiblings(sha, n, siblings).cs.chain
            == n.cs.chain[..top] + [Draw(Parent(n.cs), n.cs.chain[top], siblings)]
    decreases siblings
  {
    hide NodeOk, AfterOp, TakesTip;
    var top := |n.cs.chain| - 1;
    if siblings != [] {
      var op := Sibling(siblings[0].block, siblings[0].at);
      var next := AfterOp(sha, n, op);
      SiblingReplacesTip(sha, siblings[0].at, n, siblings[0].block);
      OpKeeps(sha, n, op);
      assert next.cs.chain[..top] == n.cs.chain[..top];
      SiblingsRunTheDraw(sha, next, siblings[1..]);
    }
  }

  function AfterSiblings(sha: string -> string, n: NodeState, siblings: seq<Arrival>): NodeState
    requires n.cs.chain != []
    decreases siblings
  {
    if siblings == [] then n
    else
      var next := AfterOp(sha, n, Sibling(siblings[0].block, siblings[0].at));
      if next.cs.chain == [] then next else AfterSiblings(sha, next, siblings[1..])
  }

  lemma OneTail(now: real, cs: ChainState, b: Block)
    ensures ValidateTail(now, cs, [b]) == if Blocks.Valid(now, cs, b) then Some(ApplyBlock(cs, b)) else None
  {
    assert [b][1..] == [];
  }
}
