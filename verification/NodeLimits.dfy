/** What blocks that claim height 0 do: verdicts resumed from a spoilt cache, and a search that meets one twice. */
module NodeLimits {
  import opened Collections
  import opened Ledger
  import opened Blocks
  import opened ForkChoice
  import opened AcceptedChains
  import opened NodeChain
  import opened NodeCache
  import Retarget

  // ----- A verdict turned around -----------------------------------------------------------------------------

  function Sealed(body: Body): Block { Block(body, Digest(body)) }

  /** An empty block claiming height 0, with enough iterations to be taken over. */
  function Exempt(chain: seq<Block>): Block
    requires chain != []
  {
    Sealed(Body(0, NoHash, chain[|chain| - 1].body.timestamp + MIN_BLOCK_SPACING_SECONDS, [], None, "", false,
                2 * VDF_ITERATIONS, 0))
  }

  /** An ordinary empty block on top of a chain. */
  function Ordinary(chain: seq<Block>, key: string): Block
    requires chain != []
  {
    var tip := chain[|chain| - 1];
    Sealed(Body(tip.body.height + 1, tip.hash, tip.body.timestamp + MIN_BLOCK_SPACING_SECONDS, [], Some("builder"), key,
                true, GetVdfIterations(chain), 0))
  }

  lemma OrdinaryFits(cs: ChainState, key: string)
    requires cs.chain != []
    ensures Fits(cs, Ordinary(cs.chain, key))
  {
  }

  /** What the node holds after taking over `chain` with an exempt block on top, and then committing an ordinary one. */
  function Spoiled(chain: seq<Block>): NodeState
    requires chain != []
  {
    var z := Exempt(chain);
    var x := ApplyBlock(Replay(chain), z);
    var y := ApplyBlock(x, Ordinary(chain + [z], ""));
    NodeState(y, map[0 := Cached(x.ledger, x.work), 1 := Cached(y.ledger, y.work)], [0, 1])
  }

  lemma FreshNode(chain: seq<Block>)
    requires ValidChain(chain)
    ensures NodeOk(NodeState(Replay(chain), map[], [])) && chain != []
  {
  }

  lemma OnTopForksAtEnd(chain: seq<Block>, b: Block)
    requires Linked(chain)
    ensures FirstDifference(chain, chain + [b], 0) == |chain| && HonestRemote(Replay(chain), chain + [b])
  {
    var longer := chain + [b];
    assert forall j :: 0 <= j < |chain| ==> longer[j] == chain[j] && SameAt(chain, longer, j) && HashChecks(chain[j]);
    FirstDifferenceIs(chain, longer, 0, |chain|);
  }

  lemma OnTopIsBuilt(now: real, cs: ChainState, b: Block)
    requires Fits(cs, b) && b.body.timestamp <= now
    ensures ValidateTail(now, cs, [b]) == Some(ApplyBlock(cs, b))
  {
    assert Valid(now, cs, b);
    hide Fits, ApplyBlock;
    assert [b][1..] == [];
  }

  /** A node that has just started takes over its own chain with a block of positive count on top. */
  lemma AddedIsBetter(sha: string -> string, chain: seq<Block>, b: Block)
    requires ValidChain(chain) && chain != [] && b.body.iterations > 0 && Fits(Replay(chain), b)
    ensures var n := NodeState(Replay(chain), map[], []);
            && NodeOk(n) && HonestRemote(n.cs, chain + [b])
            && FirstDifference(chain, chain + [b], 0) == |chain|
            && Evaluate(sha, b.body.timestamp, n, chain + [b]) == Success(Verdict(|chain|, ApplyBlock(Replay(chain), b)))
  {
    var n := NodeState(Replay(chain), map[], []);
    FreshNode(chain);
    ValidIsLinked(chain);
    OnTopForksAtEnd(chain, b);
    OnTopIsBuilt(b.body.timestamp, Replay(chain), b);
    hide NodeOk, ValidChain, Fits, ReplayLedger, ReplayWork, ValidateTail, HonestRemote, FirstDifference, Linked, WinsTieBreak;
    var longer, fork := chain + [b], |chain|;
    assert longer[fork..] == [b] && longer[0] == chain[0];
    assert Resume(n, fork, longer) == Some(n.cs);
  }

  lemma RememberFirst(cs: ChainState)
    requires cs.chain != []
    ensures Remember(NodeState(cs, map[], [])) == NodeState(cs, map[Height(cs) := Cached(cs.ledger, cs.work)], [Height(cs)])
  {
  }

  lemma RememberSecond(cs: ChainState, c: Cached)
    requires cs.chain != [] && Height(cs) == 1
    ensures Remember(NodeState(cs, map[0 := c], [0])) == NodeState(cs, map[0 := c, 1 := Cached(cs.ledger, cs.work)], [0, 1])
  {
    assert Without([0], 1) == [0] by {
      assert [0][1..] == [];
    }
  }

  lemma ExemptFits(chain: seq<Block>)
    requires chain != []
    ensures Fits(Replay(chain), Exempt(chain)) && Exempt(chain).body.iterations > 0 && Exempt(chain).body.height == 0
  {
  }

  /** Taking over a chain with an exempt block on top. */
  lemma ExemptIsAdopted(sha: string -> string, chain: seq<Block>)
    requires ValidChain(chain) && chain != []
    ensures var z := Exempt(chain);
            var n, op := NodeState(Replay(chain), map[], []), Adopt(chain + [z], z.body.timestamp);
            var x := ApplyBlock(Replay(chain), z);
            && NodeOk(n) && OpOk(n, op) && AdoptsZero(sha, n, op)
            && AfterOp(sha, n, op) == NodeState(x, map[0 := Cached(x.ledger, x.work)], [0])
  {
    var z := Exempt(chain);
    var n := NodeState(Replay(chain), map[], []);
    ExemptFits(chain);
    AddedIsBetter(sha, chain, z);
    var x := ApplyBlock(Replay(chain), z);
    RememberFirst(x);
    assert x.chain == chain + [z] && Height(x) == 0;
    hide NodeOk, Evaluate, HonestRemote, ValidChain, Remember, FirstDifference, Fits, Replay, ApplyBlock, Exempt;
    assert (chain + [z])[|chain|..] == [z];
    assert [z][0] == z;
    assert Forget(n, |chain|).(cs := x) == NodeState(x, map[], []);
  }

  lemma OrdinaryIsCommitted(sha: string -> string, x: ChainState)
    requires x.chain != [] && Height(x) == 0
    ensures var n, b := NodeState(x, map[0 := Cached(x.ledger, x.work)], [0]), Ordinary(x.chain, "");
            var y := ApplyBlock(x, b);
            && OpOk(n, Commit(b))
            && AfterOp(sha, n, Commit(b))
               == NodeState(y, map[0 := Cached(x.ledger, x.work), 1 := Cached(y.ledger, y.work)], [0, 1])
  {
    var b := Ordinary(x.chain, "");
    OrdinaryFits(x, "");
    assert Height(ApplyBlock(x, b)) == 1;
    RememberSecond(ApplyBlock(x, b), Cached(x.ledger, x.work));
    hide Fits, Remember, Ordinary;
  }

  lemma TwoOpsRun(sha: string -> string, n: NodeState, op: Op, next: Op)
    requires NodeOk(n) && n.cs.chain != [] && OpOk(n, op)
    requires AfterOp(sha, n, op).cs.chain != [] && OpOk(AfterOp(sha, n, op), next)
    requires AfterOp(sha, AfterOp(sha, n, op), next).cs.chain != []
    ensures Run(sha, [n, AfterOp(sha, n, op), AfterOp(sha, AfterOp(sha, n, op), next)], [op, next])
  {
    hide NodeOk, OpOk, AfterOp;
  }

  /** From any valid chain a peer's chain with one exempt block, and one commit after it, reach that state. */
  lemma SpoiledIsReached(sha: string -> string, chain: seq<Block>)
    requires ValidChain(chain) && chain != []
    ensures var z := Exempt(chain);
            var n := NodeState(Replay(chain), map[], []);
            var ops := [Adopt(chain + [z], z.body.timestamp), Commit(Ordinary(chain + [z], ""))];
            && Run(sha, [n, AfterOp(sha, n, ops[0]), Spoiled(chain)], ops)
            && AdoptsZero(sha, n, ops[0])
  {
    var z := Exempt(chain);
    var x := ApplyBlock(Replay(chain), z);
    ExemptIsAdopted(sha, chain);
    ExemptFits(chain);
    assert x.chain == chain + [z] && Height(x) == 0;
    OrdinaryIsCommitted(sha, x);
    SpoiledIs(chain);
    hide *;
    TwoOpsRun(sha, NodeState(Replay(chain), map[], []), Adopt(chain + [z], z.body.timestamp), Commit(Ordinary(chain + [z], "")));
  }

  lemma SpoiledIs(chain: seq<Block>)
    requires chain != []
    ensures var x := ApplyBlock(Replay(chain), Exempt(chain));
            var y := ApplyBlock(x, Ordinary(x.chain, ""));
            && x.chain == chain + [Exempt(chain)] && y.chain != []
            && Spoiled(chain) == NodeState(y, map[0 := Cached(x.ledger, x.work), 1 := Cached(y.ledger, y.work)], [0, 1])
  {
    hide ReplayLedger, ReplayWork, GetVdfIterations, LedgerAfter;
  }

  /** A chain that shares two blocks with this one and then diverges. */
  function Short(chain: seq<Block>): seq<Block>
    requires |chain| > 2
  {
    chain[..2] + [Ordinary(chain[..2], chain[2].body.key + "x")]
  }

  lemma ShortForksAtTwo(chain: seq<Block>)
    requires |chain| > 2 && HashChecks(chain[2])
    ensures FirstDifference(chain, Short(chain), 0) == 2 && Short(chain)[0] == chain[0]
    ensures Short(chain)[..2] == chain[..2] && Short(chain)[2..] == [Ordinary(chain[..2], chain[2].body.key + "x")]
  {
    var s := Short(chain);
    assert forall j :: 0 <= j < 2 ==> s[j] == chain[j] && SameAt(chain, s, j);
    assert |chain[2].body.key + "x"| != |chain[2].body.key|;
    assert s[2].body.key != chain[2].body.key;
    FirstDifferenceIs(chain, s, 0, 2);
  }

  lemma ShortIsValid(now: real, base: ChainState, key: string)
    requires base.chain != [] && now >= Ordinary(base.chain, key).body.timestamp
    ensures var c := Ordinary(base.chain, key);
            ValidateTail(now, base, [c]) == Some(ApplyBlock(base, c))
  {
    OrdinaryFits(base, key);
    hide Fits, Ordinary;
    assert [Ordinary(base.chain, key)][1..] == [];
  }

  lemma SpoiledChain(chain: seq<Block>)
    requires ValidChain(chain) && |chain| >= 2
    ensures var n := Spoiled(chain);
            && |n.cs.chain| == |chain| + 2 && n.cs.chain[..2] == chain[..2] && n.recent.Keys == {0, 1}
            && (forall i :: 0 <= i < 3 ==> HashChecks(n.cs.chain[i]))
  {
    ValidIsLinked(chain);
    hide ValidChain, ReplayLedger, ReplayWork, GetVdfIterations;
    assert HashChecks(chain[0]) && HashChecks(chain[1]) && (|chain| > 2 ==> HashChecks(chain[2]));
  }

  lemma SpoiledWork(chain: seq<Block>)
    requires ValidChain(chain) && |chain| >= 2
    ensures 1 in Spoiled(chain).recent && Spoiled(chain).recent[1].work == Spoiled(chain).cs.work
    ensures Spoiled(chain).cs.work > ReplayWork(chain[..2]) + VDF_ITERATIONS
    ensures GetVdfIterations(chain[..2]) == VDF_ITERATIONS
  {
    WorkGrows(chain, 2);
    var below := chain + [Exempt(chain)];
    hide ValidChain, ReplayLedger, ReplayWork;
    forall h | 0 <= h < |below|
      ensures below[h].body.iterations > 0
    {
      if h < |chain| {
        Retarget.IterationsOnlyRise(chain, h, h);
      }
    }
    PositiveLookup(below);
  }

  /** A tail of one ordinary block, judged by work alone. */
  lemma OrdinaryJudged(sha: string -> string, now: real, local: ChainState, base: ChainState, fork: nat, key: string)
    requires local.chain != [] && base.chain != [] && now >= Ordinary(base.chain, key).body.timestamp
    requires base.work + GetVdfIterations(base.chain) != local.work
    ensures var c := Ordinary(base.chain, key);
            Judge(sha, now, local, base, fork, [c])
            == if base.work + GetVdfIterations(base.chain) > local.work then Success(Verdict(fork, ApplyBlock(base, c)))
               else Failure(NotBetter)
  {
    ShortIsValid(now, base, key);
    hide ValidateTail, WinsTieBreak, GetVdfIterations;
  }

  /** Two verdicts on the short chain: one on the work the cache gives its first two blocks, one on their own. */
  lemma ShortJudged(sha: string -> string, now: real, n: NodeState, base: ChainState, key: string)
    requires n.cs.chain != [] && base.chain != [] && now >= Ordinary(base.chain, key).body.timestamp
    requires 1 in n.recent && n.recent[1].work == n.cs.work > base.work + VDF_ITERATIONS
    requires GetVdfIterations(base.chain) == VDF_ITERATIONS
    ensures var c := Ordinary(base.chain, key);
            && Judge(sha, now, n.cs, ChainState(base.chain, n.recent[1].ledger, n.recent[1].work), 2, [c]).Success?
            && Judge(sha, now, n.cs, base, 2, [c]) == Failure(NotBetter)
  {
    hide Judge, GetVdfIterations;
    OrdinaryJudged(sha, now, n.cs, ChainState(base.chain, n.recent[1].ledger, n.recent[1].work), 2, key);
    OrdinaryJudged(sha, now, n.cs, base, 2, key);
  }

  lemma ShortIsHonest(n: NodeState)
    requires |n.cs.chain| > 2 && (forall i :: 0 <= i < 3 ==> HashChecks(n.cs.chain[i]))
    ensures var short := Short(n.cs.chain);
            && HonestRemote(n.cs, short) && SameGenesis(n.cs, short) && FirstDifference(n.cs.chain, short, 0) == 2
            && short[..2] == n.cs.chain[..2] && short[2..] == [Ordinary(n.cs.chain[..2], n.cs.chain[2].body.key + "x")]
  {
    var short := Short(n.cs.chain);
    ShortForksAtTwo(n.cs.chain);
    assert short[0] == n.cs.chain[0] && short[1] == n.cs.chain[1];
    hide FirstDifference, Ordinary;
    forall i | 0 <= i < |short| && i < FirstDifference(n.cs.chain, short, 0)
      ensures HashChecks(short[i])
    {
    }
  }

  /**
   In that state a chain of three blocks is taken over, for its first two are given the work of the whole
   chain out of the cache, where a full replay finds it is not better.
   */
  lemma SpoiledVerdict(sha: string -> string, chain: seq<Block>, now: real)
    requires ValidChain(chain) && |chain| >= 2
    requires now >= chain[1].body.timestamp + MIN_BLOCK_SPACING_SECONDS
    ensures var n := Spoiled(chain);
            && |n.cs.chain| > 2 && HonestRemote(n.cs, Short(n.cs.chain))
            && Evaluate(sha, now, n, Short(n.cs.chain)).Success?
            && EvaluateByReplay(sha, now, n.cs, Short(n.cs.chain)) == Failure(NotBetter)
  {
    var n := Spoiled(chain);
    SpoiledChain(chain);
    SpoiledWork(chain);
    var base, key := Replay(chain[..2]), n.cs.chain[2].body.key + "x";
    assert Ordinary(chain[..2], key).body.timestamp == chain[1].body.timestamp + MIN_BLOCK_SPACING_SECONDS;
    hide ValidChain, ReplayLedger, GetVdfIterations, Spoiled, ReplayWork, Judge, Ordinary, Short, FirstDifference;
    ShortIsHonest(n);
    ShortJudged(sha, now, n, base, key);
    hide HonestRemote, SameGenesis;
    assert Resume(n, 2, Short(n.cs.chain)) == Some(ChainState(chain[..2], n.recent[1].ledger, n.recent[1].work));
  }

  // ----- A search that meets one block twice -----------------------------------------------------------------

  /** A block on genesis, an exempt block on top of it, and a block on top of that. */
  function Meeting(first: string, last: string): seq<Block> {
    var two := [GENESIS, Ordinary([GENESIS], first)];
    var three := two + [Exempt(two)];
    three + [Ordinary(three, last)]
  }

  /** Validation accepts it, block by block, and its work does not depend on the keys. */
  lemma MeetingIsAccepted(first: string, last: string)
    ensures var c := Meeting(first, last);
            && |c| == 4 && c[0] == GENESIS && ValidChain([GENESIS]) && Accepted(Replay([GENESIS]), c[1..])
            && Extend(Replay([GENESIS]), c[1..]).chain == c && Checked(c)
            && Extend(Replay([GENESIS]), c[1..]).work == 4 * VDF_ITERATIONS
  {
    var c, start := Meeting(first, last), Replay([GENESIS]);
    var one := ApplyBlock(start, c[1]);
    var two := ApplyBlock(one, c[2]);
    assert one.chain == c[..2] && two.chain == c[..3];
    GenesisAlone();
    OrdinaryFits(start, first);
    ExemptFitsAnywhere(one);
    OrdinaryFits(two, last);
    AcceptedByThree(start, c[1], c[2], c[3]);
    assert c[1..] == [c[1], c[2], c[3]];
    hide Fits, ApplyBlock, Meeting, ReplayLedger, Accepted, Extend;
    AcceptedIsChecked(start, c[1..]);
    assert [GENESIS] + c[1..] == c;
  }

  lemma GenesisAlone()
    ensures ValidChain([GENESIS]) && Replay([GENESIS]).work == 0
  {
    assert [GENESIS][..0] == [] && ReplayWork([]) == 0;
  }

  lemma ExemptFitsAnywhere(cs: ChainState)
    requires cs.chain != []
    ensures Fits(cs, Exempt(cs.chain))
  {
  }

  lemma AcceptedByThree(cs: ChainState, x: Block, y: Block, z: Block)
    requires Fits(cs, x) && Fits(ApplyBlock(cs, x), y) && Fits(ApplyBlock(ApplyBlock(cs, x), y), z)
    ensures Accepted(cs, [x, y, z])
    ensures Extend(cs, [x, y, z]) == ApplyBlock(ApplyBlock(ApplyBlock(cs, x), y), z)
  {
    hide Fits, ApplyBlock;
    assert [x, y, z][1..] == [y, z] && [y, z][1..] == [z] && [z][1..] == [];
    var two := ApplyBlock(ApplyBlock(cs, x), y);
    assert Accepted(two, [z]) && Extend(two, [z]) == ApplyBlock(two, z);
    assert Accepted(ApplyBlock(cs, x), [y, z]) && Extend(ApplyBlock(cs, x), [y, z]) == Extend(two, [z]);
  }

  /**
   Two accepted chains that part at height 1 and carry the same exempt block at height 2, which names no
   parent: the scan finds height 1, and the search, which looks at height 2 first, finds height 3.
   */
  lemma SearchIsMisled(k: string, l: string, m: string, o: string)
    requires k != m && l != o
    ensures var a, b := Meeting(k, l), Meeting(m, o);
            && Checked(a) && Checked(b) && ShareLaterZero(a, b)
            && FirstDifference(a, b, 0) == 1 && SearchFork(a, b) == 3
  {
    var a, b := Meeting(k, l), Meeting(m, o);
    MeetingIsAccepted(k, l);
    MeetingIsAccepted(m, o);
    assert SameAt(a, b, 0) && !SameAt(a, b, 1) && SameAt(a, b, 2) && !SameAt(a, b, 3);
    assert a[2].body.height == 0;
    hide Meeting, Checked;
    FirstDifferenceIs(a, b, 0, 1);
    assert SearchFrom(a, b, 3, 4) == SearchFrom(a, b, 3, 3) == 3;
    assert SearchFrom(a, b, 0, 4) == SearchFrom(a, b, 3, 4);
  }

  /** The draws over four blocks whose third ones coincide. */
  lemma FourDraws(a: seq<Block>, b: seq<Block>, k: string, l: string, m: string, o: string)
    requires |a| == |b| == 4 && DrawsAre(a, k, l) && DrawsAre(b, m, o) && Less(k, m) && Less(o, l)
    ensures Wins(a, b, 3, 4) == 0 && Wins(b, a, 3, 4) == 1 && Wins(a, b, 1, 4) == 1 && Wins(b, a, 1, 4) == 1
    ensures JoinKeys(a, 1, 4) == k + l && JoinKeys(b, 1, 4) == m + o
  {
    LessIsStrictTotal(k, m);
    LessIsStrictTotal(o, l);
    LessIsStrictTotal("", "");
    hide Less;
    assert Wins(a, b, 4, 4) == 0 && Wins(b, a, 4, 4) == 0;
    assert Wins(a, b, 2, 4) == Wins(a, b, 3, 4) && Wins(b, a, 2, 4) == Wins(b, a, 3, 4);
    assert JoinKeys(a, 2, 4) == "" + (l + "") == l && JoinKeys(b, 2, 4) == "" + (o + "") == o;
  }

  predicate DrawsAre(c: seq<Block>, first: string, last: string)
    requires |c| == 4
  {
    c[1].body.key == first && c[2].body.key == "" && c[3].body.key == last
  }

  /** The two tie on work, and the tie-break from the height where they part picks the other one. */
  lemma MisledWinner(sha: string -> string, k: string, l: string, m: string, o: string)
    requires Less(k, m) && Less(o, l) && Less(sha(k + l), sha(m + o))
    ensures var a, b := Meeting(k, l), Meeting(m, o);
            var x, y := Extend(Replay([GENESIS]), a[1..]), Extend(Replay([GENESIS]), b[1..]);
            && x.chain == a && y.chain == b && FirstDifference(a, b, 0) == 1
            && IsBetter(sha, y, x) && !IsBetter(sha, x, y) && WinsFrom(sha, a, b, 1)
  {
    LessIsStrictTotal(k, m);
    LessIsStrictTotal(o, l);
    MeetingIsAccepted(k, l);
    MeetingIsAccepted(m, o);
    hide Less, SearchFrom, Checked, ShareLaterZero, Extend, Accepted, FirstDifference, Meeting, Wins, JoinKeys;
    SearchIsMisled(k, l, m, o);
    MeetingKeys(k, l);
    MeetingKeys(m, o);
    var a, b := Meeting(k, l), Meeting(m, o);
    SearchIsSymmetric(a, b, 0, 4);
    FourDraws(a, b, k, l, m, o);
  }

  lemma MeetingKeys(first: string, last: string)
    ensures var c := Meeting(first, last);
            |c| == 4 && DrawsAre(c, first, last) && HashChecks(c[3])
  {
  }
}
