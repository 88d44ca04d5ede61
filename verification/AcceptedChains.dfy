/**
 Chains as validation accepts them, block by block, including blocks past genesis that claim height 0:
 those are exempt from the parent and VDF checks, replay skips them, and appending does not. Each
 result says exactly which of them break it.
 */
module AcceptedChains {
  import opened Collections
  import opened Ledger
  import opened Blocks
  import opened ForkChoice
  import opened Retarget

  predicate ZeroFree(tail: seq<Block>) { forall i :: 0 <= i < |tail| ==> tail[i].body.height != 0 }

  /** Everything validation checks of a chain's blocks past genesis, but for their transactions. */
  ghost predicate Checked(chain: seq<Block>) {
    && chain != [] && chain[0] == GENESIS
    && forall h: nat :: 1 <= h < |chain| ==> CheckedAt(chain, h)
  }

  ghost predicate CheckedAt(chain: seq<Block>, h: nat)
    requires 1 <= h < |chain|
  {
    && HashChecks(chain[h]) && ParentChecks(chain[h], chain[..h])
    && SpacingChecks(chain[h], chain[..h]) && BuilderChecks(chain[h], chain[..h])
  }

  lemma CheckedGrows(chain: seq<Block>, b: Block)
    requires Checked(chain)
    requires HashChecks(b) && ParentChecks(b, chain) && SpacingChecks(b, chain) && BuilderChecks(b, chain)
    ensures Checked(chain + [b])
  {
    var longer := chain + [b];
    assert longer[0] == chain[0];
    forall h: nat | 1 <= h < |longer|
      ensures CheckedAt(longer, h)
    {
      if h < |chain| {
        assert CheckedAt(chain, h) && longer[..h] == chain[..h] && longer[h] == chain[h];
      } else {
        assert longer[..h] == chain && longer[h] == b;
      }
    }
  }

  lemma FitsChecks(cs: ChainState, b: Block)
    requires Checked(cs.chain) && Fits(cs, b)
    ensures Checked(cs.chain + [b])
  {
    assert HashChecks(b) && ParentChecks(b, cs.chain) && SpacingChecks(b, cs.chain) && BuilderChecks(b, cs.chain);
    hide Fits, HashChecks, ParentChecks, SpacingChecks, BuilderChecks, Checked;
    CheckedGrows(cs.chain, b);
  }

  lemma {:induction false} ValidIsChecked(chain: seq<Block>)
    requires ValidChain(chain)
    ensures Checked(chain)
  {
    if |chain| > 1 {
      var before, b := chain[..|chain| - 1], chain[|chain| - 1];
      assert before + [b] == chain;
      hide Fits, Checked;
      ValidIsChecked(before);
      FitsChecks(Replay(before), b);
    }
  }

  lemma {:induction false} AcceptedIsChecked(cs: ChainState, tail: seq<Block>)
    requires Checked(cs.chain) && Accepted(cs, tail)
    ensures Extend(cs, tail).chain == cs.chain + tail && Checked(cs.chain + tail)
    decreases tail
  {
    hide Fits, Checked;
    if tail == [] {
      assert cs.chain + tail == cs.chain;
    } else {
      FitsChecks(cs, tail[0]);
      AcceptedIsChecked(ApplyBlock(cs, tail[0]), tail[1..]);
      assert cs.chain + [tail[0]] + tail[1..] == cs.chain + tail;
    }
  }

  lemma ExtendFirst(cs: ChainState, tail: seq<Block>, k: nat)
    requires 1 <= k <= |tail|
    ensures Extend(cs, tail[..k]) == Extend(ApplyBlock(cs, tail[0]), tail[1..][..k - 1])
  {
    assert tail[..k][0] == tail[0] && tail[..k][1..] == tail[1..][..k - 1];
  }

  // ----- Heights ---------------------------------------------------------------------------------------

  /** The last block at or below position h that claims height 0. */
  function LastZero(chain: seq<Block>, h: nat): (z: nat)
    requires h < |chain| && chain[0].body.height == 0
    ensures z <= h && chain[z].body.height == 0 && forall i :: z < i <= h ==> chain[i].body.height != 0
  {
    if chain[h].body.height == 0 then h else LastZero(chain, h - 1)
  }

  /** A block's height is its distance from the last block that claimed height 0. */
  lemma {:induction false} HeightCountsFromLastZero(chain: seq<Block>, h: nat)
    requires Checked(chain) && h < |chain|
    ensures chain[h].body.height == h - LastZero(chain, h)
  {
    if h > 0 && chain[h].body.height != 0 {
      assert CheckedAt(chain, h);
      HeightCountsFromLastZero(chain, h - 1);
    }
  }

  // ----- Replay equals append ------------------------------------------------------------------------------

  /** No transactions, no iterations, and no builder, or nothing left for one to mint. */
  predicate Inert(l: Ledger, b: Block) {
    b.body.txs == [] && b.body.iterations == 0 && (b.body.builder.None? || Reward(l.minted) < 1)
  }

  lemma UnmovedLedger(l: Ledger, b: Block, floor: int)
    requires ValidTxs(l, b.body.txs, floor)
    ensures LedgerAfter(l, b) == l <==> b.body.txs == [] && (b.body.builder.None? || Reward(l.minted) < 1)
  {
    if b.body.txs != [] {
      var t := b.body.txs[0];
      MintedUnmoved(l, t);
      NoncesCount(ApplyTx(l, t), b.body.txs[1..], floor, t.sender);
      PayBuilderKeepsNonces(ApplyTxs(l, b.body.txs), b.body.builder, Fees(b.body.txs));
      assert Nonce(LedgerAfter(l, b), t.sender) > Nonce(l, t.sender);
    }
  }

  /** One accepted block: appending it is replaying it, unless it claims height 0 and is not inert. */
  lemma OneBlockReplays(cs: ChainState, b: Block)
    requires Checked(cs.chain) && cs == Replay(cs.chain) && Fits(cs, b)
    ensures ApplyBlock(cs, b) == Replay(cs.chain + [b]) <==> b.body.height != 0 || Inert(cs.ledger, b)
  {
    var longer := cs.chain + [b];
    assert longer[..|longer| - 1] == cs.chain;
    HeightCountsFromLastZero(cs.chain, |cs.chain| - 1);
    UnmovedLedger(cs.ledger, b, BoardFeeFloor(cs.ledger.posts));
  }

  predicate ReplaySafeAt(cs: ChainState, tail: seq<Block>, i: nat)
    requires i < |tail|
  {
    tail[i].body.height != 0 || Inert(Extend(cs, tail[..i]).ledger, tail[i])
  }

  ghost predicate ReplaysAt(cs: ChainState, tail: seq<Block>, k: nat)
    requires k <= |tail|
  {
    Extend(cs, tail[..k]) == Replay(cs.chain + tail[..k])
  }

  /**
   A chain extended block by block equals its replay at every point exactly when each accepted block
   that claims height 0 is inert.
   */
  lemma {:induction false} AppendIsReplayIff(cs: ChainState, tail: seq<Block>)
    requires Checked(cs.chain) && cs == Replay(cs.chain) && Accepted(cs, tail)
    ensures (forall k :: 0 <= k <= |tail| ==> ReplaysAt(cs, tail, k))
            <==> (forall i :: 0 <= i < |tail| ==> ReplaySafeAt(cs, tail, i))
    decreases tail
  {
    hide Checked, Fits, Replay, ApplyBlock, Inert;
    assert tail[..0] == [] && cs.chain + [] == cs.chain;
    if tail != [] {
      var next, rest := ApplyBlock(cs, tail[0]), tail[1..];
      FirstBlockReplays(cs, tail);
      if ReplaySafeAt(cs, tail, 0) {
        FitsChecks(cs, tail[0]);
        AppendedChain(cs, tail[0]);
        AppendIsReplayIff(next, rest);
        forall k | 1 <= k <= |tail|
          ensures ReplaysAt(cs, tail, k) == ReplaysAt(next, rest, k - 1)
        {
          ExtendFirst(cs, tail, k);
          assert cs.chain + tail[..k] == next.chain + rest[..k - 1];
        }
        forall i | 1 <= i < |tail|
          ensures ReplaySafeAt(cs, tail, i) == ReplaySafeAt(next, rest, i - 1)
        {
          ExtendFirst(cs, tail, i);
        }
        assert forall k :: 0 <= k <= |rest| ==> ReplaysAt(next, rest, k) == ReplaysAt(cs, tail, k + 1);
        assert forall i :: 0 <= i < |rest| ==> ReplaySafeAt(next, rest, i) == ReplaySafeAt(cs, tail, i + 1);
      } else {
        assert !ReplaysAt(cs, tail, 1);
      }
    }
  }

  lemma AppendedChain(cs: ChainState, b: Block)
    ensures ApplyBlock(cs, b).chain == cs.chain + [b]
  {
  }

  lemma FirstBlockReplays(cs: ChainState, tail: seq<Block>)
    requires Checked(cs.chain) && cs == Replay(cs.chain) && tail != [] && Fits(cs, tail[0])
    ensures ReplaysAt(cs, tail, 1) == (ApplyBlock(cs, tail[0]) == Replay(cs.chain + [tail[0]])) == ReplaySafeAt(cs, tail, 0)
  {
    ExtendFirst(cs, tail, 1);
    assert tail[..1] == [tail[0]] && tail[..0] == [];
    OneBlockReplays(cs, tail[0]);
  }

  /** An accepted chain is one whose every block stands on a replay exactly when no block of the tail claims height 0. */
  lemma {:induction false} ValidIffZeroFree(chain: seq<Block>, tail: seq<Block>)
    requires ValidChain(chain) && Accepted(Replay(chain), tail)
    ensures ValidChain(chain + tail) <==> ZeroFree(tail)
    ensures ZeroFree(tail) ==> Extend(Replay(chain), tail) == Replay(chain + tail)
    decreases tail
  {
    hide Fits, ReplayLedger, ReplayWork, ValidChain;
    if tail == [] {
      assert chain + tail == chain;
    } else if tail[0].body.height != 0 {
      ApplyBlockIsReplay(chain, tail[0]);
      assert chain + [tail[0]] + tail[1..] == chain + tail;
      ValidIffZeroFree(chain + [tail[0]], tail[1..]);
      assert forall i :: 0 <= i < |tail[1..]| ==> tail[1..][i] == tail[i + 1];
      assert forall i :: 1 <= i < |tail| ==> tail[i] == tail[1..][i - 1];
    } else if ValidChain(chain + tail) {
      assert chain != [] by { ValidNotEmpty(chain); }
      ValidAt(chain + tail, |chain|);
    }
  }

  lemma ValidNotEmpty(chain: seq<Block>)
    requires ValidChain(chain)
    ensures chain != []
  {
  }

  // ----- Supply --------------------------------------------------------------------------------------------

  /** The fees a block without a builder collects, which nobody is paid. */
  function LostIn(b: Block): int { if b.body.builder.None? then Fees(b.body.txs) else 0 }

  function LostFees(tail: seq<Block>): int {
    if tail == [] then 0 else LostIn(tail[0]) + LostFees(tail[1..])
  }

  predicate FeesPaidOut(b: Block) { b.body.height == 0 ==> b.body.builder.Some? || Fees(b.body.txs) == 0 }

  lemma {:induction false} AllTxsAppend(x: seq<Block>, y: seq<Block>)
    ensures AllTxs(x + y) == AllTxs(x) + AllTxs(y)
  {
    if y == [] {
      assert x + y == x;
    } else {
      var front, b := y[..|y| - 1], y[|y| - 1];
      assert (x + y)[..|x + y| - 1] == x + front && (x + y)[|x + y| - 1] == b;
      AllTxsAppend(x, front);
      LastBlockTxs(x + y);
      LastBlockTxs(y);
      hide AllTxs;
      assert AllTxs(x) + AllTxs(front) + b.body.txs == AllTxs(x) + (AllTxs(front) + b.body.txs);
    }
  }

  lemma LastBlockTxs(chain: seq<Block>)
    requires chain != []
    ensures AllTxs(chain) == AllTxs(chain[..|chain| - 1]) + chain[|chain| - 1].body.txs
  {
  }

  lemma BlockMovesSupply(l: Ledger, b: Block, floor: int, gap: int)
    requires Conserves(l, gap) && ValidTxs(l, b.body.txs, floor)
    ensures Fees(b.body.txs) >= 0
    ensures Conserves(LedgerAfter(l, b), gap + LostIn(b))
  {
    TxsConserve(l, b.body.txs, floor, gap);
    if b.body.builder.Some? {
      BuilderClosesTheGap(ApplyTxs(l, b.body.txs), b.body.builder.value, Fees(b.body.txs), gap);
    }
  }

  lemma FirstBlockMovesSupply(cs: ChainState, b: Block, gap: int)
    requires Conserves(cs.ledger, gap) && Fits(cs, b)
    ensures LostIn(b) >= 0 && Conserves(ApplyBlock(cs, b).ledger, gap + LostIn(b))
    ensures LostIn(b) == 0 <==> FeesPaidOut(b)
  {
    BlockMovesSupply(cs.ledger, b, BoardFeeFloor(cs.ledger.posts), gap);
    hide LedgerAfter, Conserves, ValidTxs;
  }

  /** Every block claiming height 0 has someone to pay its fees to, or none to pay. */
  predicate AllPaidOut(tail: seq<Block>) { forall b :: b in tail ==> FeesPaidOut(b) }

  lemma FirstPaidOut(tail: seq<Block>)
    requires tail != []
    ensures AllPaidOut(tail) <==> FeesPaidOut(tail[0]) && AllPaidOut(tail[1..])
  {
    hide FeesPaidOut;
    assert tail == [tail[0]] + tail[1..];
  }

  /** Along an accepted tail the gap between minted and held grows by exactly the fees of blocks without a builder. */
  lemma {:induction false} SupplyGap(cs: ChainState, tail: seq<Block>, gap: int)
    requires Conserves(cs.ledger, gap) && Accepted(cs, tail)
    ensures Conserves(Extend(cs, tail).ledger, gap + LostFees(tail))
    ensures LostFees(tail) >= 0 && (LostFees(tail) == 0 <==> AllPaidOut(tail))
    decreases tail
  {
    if tail != [] {
      FirstBlockMovesSupply(cs, tail[0], gap);
      hide Conserves, Fits, ApplyBlock, FeesPaidOut, LostIn;
      SupplyGap(ApplyBlock(cs, tail[0]), tail[1..], gap + LostIn(tail[0]));
      FirstPaidOut(tail);
      hide AllPaidOut, Accepted;
    }
  }

  lemma {:induction false} NoncesAlongTail(cs: ChainState, tail: seq<Block>, a: Addr)
    requires Accepted(cs, tail)
    ensures Nonce(cs.ledger, a) <= Nonce(Extend(cs, tail).ledger, a)
    ensures NoncesOf(AllTxs(tail), a) == Counting(Nonce(cs.ledger, a), Nonce(Extend(cs, tail).ledger, a))
    decreases tail
  {
    if tail == [] {
      assert AllTxs(tail) == [];
    } else {
      var b, rest, next := tail[0], tail[1..], ApplyBlock(cs, tail[0]);
      assert [b] + rest == tail;
      assert AllTxs([]) == [] && [b][..0] == [] && AllTxs([b]) == b.body.txs;
      AllTxsAppend([b], rest);
      NoncesCount(cs.ledger, b.body.txs, BoardFeeFloor(cs.ledger.posts), a);
      PayBuilderKeepsNonces(ApplyTxs(cs.ledger, b.body.txs), b.body.builder, Fees(b.body.txs));
      NoncesAlongTail(next, rest, a);
      NoncesAppend(b.body.txs, AllTxs(rest), a);
      CountingAppend(Nonce(cs.ledger, a), Nonce(next.ledger, a), Nonce(Extend(cs, tail).ledger, a));
    }
  }

  /**
   After any accepted tail, whatever heights its blocks claim: the cap holds, no stored balance is zero
   and each sender's nonces on the chain are 1, 2, ..., n; balances fall short of what was minted by
   exactly the fees of blocks without a builder, so they sum to it exactly when every block that claims
   height 0 names a builder or collects no fees.
   */
  lemma SupplyHoldsIff(chain: seq<Block>, tail: seq<Block>, a: Addr)
    requires ValidChain(chain) && Accepted(Replay(chain), tail)
    ensures var l := Extend(Replay(chain), tail).ledger;
            && Conserves(l, LostFees(tail)) && LostFees(tail) >= 0
            && (Conserves(l, 0) <==> AllPaidOut(tail))
            && NoncesOf(AllTxs(chain + tail), a) == Counting(0, Nonce(l, a))
  {
    hide *;
    SupplyHolds(chain, a);
    ReplayHolds(chain);
    SupplyGap(Replay(chain), tail, 0);
    OnlyOneGap(Extend(Replay(chain), tail).ledger, LostFees(tail));
    NoncesAlongChain(chain, tail, a);
  }

  lemma ReplayHolds(chain: seq<Block>)
    ensures Replay(chain).ledger == ReplayLedger(chain)
  {
  }

  lemma OnlyOneGap(l: Ledger, gap: int)
    requires Conserves(l, gap)
    ensures Conserves(l, 0) <==> gap == 0
  {
  }

  lemma NonceNotNegative(l: Ledger, a: Addr, gap: int)
    requires Conserves(l, gap)
    ensures Nonce(l, a) >= 0
  {
  }

  lemma NoncesAlongChain(chain: seq<Block>, tail: seq<Block>, a: Addr)
    requires ValidChain(chain) && Accepted(Replay(chain), tail)
    ensures NoncesOf(AllTxs(chain + tail), a) == Counting(0, Nonce(Extend(Replay(chain), tail).ledger, a))
  {
    hide *;
    SupplyHolds(chain, a);
    ReplayHolds(chain);
    NonceNotNegative(ReplayLedger(chain), a, 0);
    NoncesAlongTail(Replay(chain), tail, a);
    AllTxsAppend(chain, tail);
    NoncesAppend(AllTxs(chain), AllTxs(tail), a);
    CountingAppend(0, Nonce(ReplayLedger(chain), a), Nonce(Extend(Replay(chain), tail).ledger, a));
  }

  // ----- The board ------------------------------------------------------------------------------------------

  lemma BlockPosts(l: Ledger, b: Block)
    ensures LedgerAfter(l, b).posts == l.posts + |BoardPosts(b.body.txs)|
  {
    TxsPost(l, b.body.txs);
    hide ApplyTxs;
  }

  lemma FirstTxs(tail: seq<Block>)
    requires tail != []
    ensures AllTxs(tail) == tail[0].body.txs + AllTxs(tail[1..])
  {
    assert tail == [tail[0]] + tail[1..];
    AllTxsAppend([tail[0]], tail[1..]);
    assert AllTxs([]) == [] && [tail[0]][..0] == [];
    LastBlockTxs([tail[0]]);
  }

  lemma {:induction false} PostsAlongTail(cs: ChainState, tail: seq<Block>)
    ensures Extend(cs, tail).ledger.posts == cs.ledger.posts + |BoardPosts(AllTxs(tail))|
    decreases tail
  {
    if tail == [] {
      assert AllTxs(tail) == [];
    } else {
      BlockPosts(cs.ledger, tail[0]);
      FirstTxs(tail);
      BoardPostsAppend(tail[0].body.txs, AllTxs(tail[1..]));
      hide LedgerAfter, AllTxs, BoardPosts;
      PostsAlongTail(ApplyBlock(cs, tail[0]), tail[1..]);
    }
  }

  lemma {:induction false} PostsOnChain(chain: seq<Block>)
    requires ValidChain(chain)
    ensures ReplayLedger(chain).posts == |BoardPosts(AllTxs(chain))|
  {
    var before, b := chain[..|chain| - 1], chain[|chain| - 1];
    if |chain| == 1 {
      assert before == [] && b == GENESIS && AllTxs(before) == [];
    } else {
      PostsOnChain(before);
      BlockPosts(ReplayLedger(before), b);
      LastBlockTxs(chain);
      BoardPostsAppend(AllTxs(before), b.body.txs);
      hide LedgerAfter, AllTxs, BoardPosts, Fits;
    }
  }

  /** A board post of an accepted block pays the floor that the board posts of all blocks before it set. */
  lemma PostsPayTheFloor(chain: seq<Block>, tail: seq<Block>, b: Block, t: Tx)
    requires ValidChain(chain) && Accepted(Replay(chain), tail) && Fits(Extend(Replay(chain), tail), b)
    requires t in b.body.txs && t.board
    ensures t.fee >= BoardFeeFloor(|BoardPosts(AllTxs(chain + tail))|)
  {
    hide *;
    var cs := Extend(Replay(chain), tail);
    FitsAreValid(cs, b);
    PostsOnChain(chain);
    PostsAlongTail(Replay(chain), tail);
    ReplayHolds(chain);
    AllTxsAppend(chain, tail);
    BoardPostsAppend(AllTxs(chain), AllTxs(tail));
    EachMeetsFloor(cs.ledger, b.body.txs, BoardFeeFloor(cs.ledger.posts), t);
  }

  lemma FitsAreValid(cs: ChainState, b: Block)
    requires Fits(cs, b)
    ensures ValidTxs(cs.ledger, b.body.txs, BoardFeeFloor(cs.ledger.posts))
  {
  }

  lemma {:induction false} EachMeetsFloor(l: Ledger, txs: seq<Tx>, floor: int, t: Tx)
    requires ValidTxs(l, txs, floor) && t in txs && t.board
    ensures t.fee >= floor
    decreases txs
  {
    if t != txs[0] {
      assert t in txs[1..];
      EachMeetsFloor(ApplyTx(l, txs[0]), txs[1..], floor, t);
    }
  }

  // ----- What is on chain -------------------------------------------------------------------------------------

  /** What every transaction of an accepted block is like: it pays someone else, in positive amounts, and never out of the burn address. */
  predicate OrdinaryTx(t: Tx) {
    && 0 < |t.outputs| <= MAX_OUTPUTS && t.fee >= 0 && t.sender != BURN_ADDRESS
    && forall o :: o in t.outputs ==> o.amount >= 1 && o.to != t.sender
  }

  lemma {:induction false} ValidAreOrdinary(l: Ledger, txs: seq<Tx>, floor: int, t: Tx)
    requires ValidTxs(l, txs, floor) && t in txs
    ensures OrdinaryTx(t)
    decreases txs
  {
    if t != txs[0] {
      assert t in txs[1..];
      hide ValidTx, ApplyTx;
      ValidAreOrdinary(ApplyTx(l, txs[0]), txs[1..], floor, t);
    }
  }

  lemma {:induction false} OnChainIsOrdinary(cs: ChainState, tail: seq<Block>, i: nat, t: Tx)
    requires Accepted(cs, tail) && i < |tail|
    ensures tail[i].body.size <= BLOCK_SIZE_LIMIT
    ensures t in tail[i].body.txs ==> OrdinaryTx(t)
    decreases tail
  {
    if i > 0 {
      hide Fits, ApplyBlock;
      OnChainIsOrdinary(ApplyBlock(cs, tail[0]), tail[1..], i - 1, t);
    } else if t in tail[0].body.txs {
      ValidAreOrdinary(cs.ledger, tail[0].body.txs, BoardFeeFloor(cs.ledger.posts), t);
    }
  }

  // ----- Time -----------------------------------------------------------------------------------------------

  /** Between any two blocks of an accepted chain lies at least the spacing for each block in between. */
  lemma {:induction false} SpacingAccumulates(chain: seq<Block>, g: nat, h: nat)
    requires Checked(chain) && g <= h < |chain|
    ensures chain[h].body.timestamp - chain[g].body.timestamp >= MIN_BLOCK_SPACING_SECONDS * (h - g) as real
    decreases h
  {
    if g < h {
      SpacingAccumulates(chain, g, h - 1);
      assert CheckedAt(chain, h) && chain[..h][|chain[..h]| - 1] == chain[h - 1];
      assert SpacingChecks(chain[h], chain[..h]);
      hide Checked;
      assert (h - g) as real == (h - 1 - g) as real + 1.0;
    }
  }

  // ----- Retarget -----------------------------------------------------------------------------------------

  /** This block carries its window's folded iteration count. */
  predicate CarriesFold(chain: seq<Block>, h: nat)
    requires h < |chain|
  {
    chain[h].body.iterations == WindowIterations(chain, h / VDF_ADJUST_INTERVAL)
  }

  predicate LookupFolds(chain: seq<Block>, k: nat)
    requires k <= |chain|
  {
    GetVdfIterations(chain[..k]) == WindowIterations(chain, k / VDF_ADJUST_INTERVAL)
  }

  /** Every block claiming height 0 at a window's first position carries that window's folded count. */
  ghost predicate BoundariesCarry(chain: seq<Block>) {
    forall w: nat :: WindowStart(w) < |chain| && chain[WindowStart(w)].body.height == 0 ==> CarriesFold(chain, WindowStart(w))
  }

  lemma BoundaryWindow(w: nat)
    ensures WindowStart(w) / VDF_ADJUST_INTERVAL == w
    ensures (WindowStart(w) + 1) / VDF_ADJUST_INTERVAL == w
  {
  }

  /** The lookup below a position reads the first block of one window, whose count decides it. */
  lemma LookupFollows(chain: seq<Block>, k: nat)
    requires 1 <= k <= |chain|
    requires forall w: nat :: WindowStart(w) < k ==> CarriesFold(chain, WindowStart(w))
    ensures LookupFolds(chain, k)
  {
    var w := k / VDF_ADJUST_INTERVAL;
    var below := chain[..k];
    LookupReads(below, w);
    if w > 0 {
      if k > WindowStart(w) {
        BoundaryWindow(w);
        assert CarriesFold(chain, WindowStart(w));
      } else {
        BoundaryWindow(w - 1);
        assert CarriesFold(chain, WindowStart(w - 1));
        DeltasIgnoreLater(chain, k, w);
      }
    }
  }

  lemma {:induction false} BoundariesFold(chain: seq<Block>, v: nat)
    requires Checked(chain) && BoundariesCarry(chain) && WindowStart(v) < |chain|
    ensures CarriesFold(chain, WindowStart(v))
  {
    hide GetVdfIterations, WindowIterations, CarriesFold, ParentChecks, SpacingChecks, HashChecks;
    var h := WindowStart(v);
    if v == 0 {
      assert chain[0] == GENESIS;
    } else if chain[h].body.height != 0 {
      forall w: nat | WindowStart(w) < h
        ensures CarriesFold(chain, WindowStart(w))
      {
        assert w < v;
        BoundariesFold(chain, w);
      }
      LookupFollows(chain, h);
      assert CheckedAt(chain, h);
      CarriesLookup(chain, h);
    }
  }

  lemma CarriesLookup(chain: seq<Block>, h: nat)
    requires h < |chain| && LookupFolds(chain, h) && chain[h].body.iterations == GetVdfIterations(chain[..h])
    ensures CarriesFold(chain, h)
  {
  }

  /**
   On any accepted chain the lookup equals the fold at every point exactly when each block that claims
   height 0 at a window's first position carries that window's count.
   */
  lemma LookupIsFoldIff(chain: seq<Block>)
    requires Checked(chain)
    ensures (forall k :: 1 <= k <= |chain| ==> LookupFolds(chain, k)) <==> BoundariesCarry(chain)
  {
    hide Checked, GetVdfIterations, WindowIterations;
    if BoundariesCarry(chain) {
      forall k | 1 <= k <= |chain|
        ensures LookupFolds(chain, k)
      {
        forall w: nat | WindowStart(w) < k
          ensures CarriesFold(chain, WindowStart(w))
        {
          BoundariesFold(chain, w);
        }
        LookupFollows(chain, k);
      }
    }
    if forall k :: 1 <= k <= |chain| ==> LookupFolds(chain, k) {
      forall w: nat | WindowStart(w) < |chain| && chain[WindowStart(w)].body.height == 0
        ensures CarriesFold(chain, WindowStart(w))
      {
        assert LookupFolds(chain, WindowStart(w) + 1);
        BoundaryIsRead(chain, w);
      }
    }
  }

  lemma BoundaryIsRead(chain: seq<Block>, w: nat)
    requires Checked(chain) && WindowStart(w) < |chain| && LookupFolds(chain, WindowStart(w) + 1)
    ensures CarriesFold(chain, WindowStart(w))
  {
    var k := WindowStart(w) + 1;
    BoundaryWindow(w);
    LookupReads(chain[..k], w);
    if w == 0 {
      assert chain[0] == GENESIS;
    } else {
      assert chain[..k][WindowStart(w)] == chain[WindowStart(w)];
    }
  }

  /** Every block carries its window's folded count exactly when those that claim height 0 do. */
  lemma AllCarryIff(chain: seq<Block>)
    requires Checked(chain)
    ensures (forall h :: 0 <= h < |chain| ==> CarriesFold(chain, h))
            <==> (forall h :: 0 <= h < |chain| && chain[h].body.height == 0 ==> CarriesFold(chain, h))
  {
    if forall h :: 0 <= h < |chain| && chain[h].body.height == 0 ==> CarriesFold(chain, h) {
      LookupIsFoldIff(chain);
      forall h | 1 <= h < |chain| && chain[h].body.height != 0
        ensures CarriesFold(chain, h)
      {
        assert CheckedAt(chain, h) && LookupFolds(chain, h);
      }
    }
  }

  /** Where they do, the count is the same throughout a window and never falls. */
  lemma CountsOnlyRise(chain: seq<Block>, g: nat, h: nat)
    requires Checked(chain) && g <= h < |chain|
    requires forall z :: 0 <= z < |chain| && chain[z].body.height == 0 ==> CarriesFold(chain, z)
    ensures VDF_ITERATIONS <= chain[g].body.iterations <= chain[h].body.iterations
    ensures g / VDF_ADJUST_INTERVAL == h / VDF_ADJUST_INTERVAL ==> chain[g].body.iterations == chain[h].body.iterations
  {
    AllCarryIff(chain);
    assert CarriesFold(chain, g) && CarriesFold(chain, h);
    IterationsNeverDrop(chain, g / VDF_ADJUST_INTERVAL, h / VDF_ADJUST_INTERVAL);
  }

  // ----- Work -----------------------------------------------------------------------------------------------

  function WorkOf(tail: seq<Block>): int {
    if tail == [] then 0 else tail[0].body.iterations + WorkOf(tail[1..])
  }

  lemma {:induction false} ExtendWork(cs: ChainState, tail: seq<Block>)
    ensures Extend(cs, tail).work == cs.work + WorkOf(tail)
    decreases tail
  {
    if tail != [] {
      ExtendWork(ApplyBlock(cs, tail[0]), tail[1..]);
    }
  }

  /** A lookup over blocks of positive counts is positive. */
  lemma PositiveLookup(chain: seq<Block>)
    requires forall h :: 0 <= h < |chain| ==> chain[h].body.iterations > 0
    ensures GetVdfIterations(chain) > 0
  {
    var next := |chain|;
    if next >= VDF_ADJUST_INTERVAL {
      var boundary := next / VDF_ADJUST_INTERVAL * VDF_ADJUST_INTERVAL;
      if next == boundary {
        var start := boundary - VDF_ADJUST_INTERVAL;
        BumpNeverLowers(chain[start].body.iterations, Deltas(chain, Max(start, 1), boundary));
      }
    }
  }

  lemma {:induction false} CountsArePositive(chain: seq<Block>, h: nat)
    requires Checked(chain) && h < |chain|
    requires forall z :: 0 <= z < |chain| && chain[z].body.height == 0 ==> chain[z].body.iterations > 0
    ensures chain[h].body.iterations > 0
  {
    if chain[h].body.height != 0 {
      forall i | 0 <= i < h
        ensures chain[..h][i].body.iterations > 0
      {
        CountsArePositive(chain, i);
      }
      PositiveLookup(chain[..h]);
      assert h > 0 ==> CheckedAt(chain, h);
    }
  }

  ghost predicate RaisesWork(cs: ChainState, tail: seq<Block>, i: nat)
    requires i < |tail|
  {
    Extend(cs, tail[..i]).work < Extend(cs, tail[..i + 1]).work
  }

  lemma {:induction false} WorkAppend(x: seq<Block>, y: seq<Block>)
    ensures WorkOf(x + y) == WorkOf(x) + WorkOf(y)
  {
    if x == [] {
      assert x + y == y;
    } else {
      assert (x + y)[1..] == x[1..] + y;
      WorkAppend(x[1..], y);
    }
  }

  lemma RaisesByIterations(cs: ChainState, tail: seq<Block>, i: nat)
    requires i < |tail|
    ensures RaisesWork(cs, tail, i) <==> tail[i].body.iterations > 0
  {
    ExtendWork(cs, tail[..i]);
    ExtendWork(cs, tail[..i + 1]);
    assert tail[..i + 1] == tail[..i] + [tail[i]];
    WorkAppend(tail[..i], [tail[i]]);
    assert [tail[i]][1..] == [];
  }

  /**
   On top of a valid chain every accepted block strictly raises the work exactly when every block that
   claims height 0 claims a positive count.
   */
  lemma WorkGrowsIff(chain: seq<Block>, tail: seq<Block>)
    requires ValidChain(chain) && Accepted(Replay(chain), tail)
    ensures (forall i :: 0 <= i < |tail| ==> RaisesWork(Replay(chain), tail, i))
            <==> (forall i :: 0 <= i < |tail| && tail[i].body.height == 0 ==> tail[i].body.iterations > 0)
  {
    forall i | 0 <= i < |tail|
      ensures RaisesWork(Replay(chain), tail, i) <==> tail[i].body.iterations > 0
    {
      RaisesByIterations(Replay(chain), tail, i);
    }
    hide ValidChain, Accepted, Replay, RaisesWork;
    if forall i :: 0 <= i < |tail| && tail[i].body.height == 0 ==> tail[i].body.iterations > 0 {
      forall i | 0 <= i < |tail|
        ensures tail[i].body.iterations > 0
      {
        TailCountsArePositive(chain, tail, i);
      }
    }
  }

  lemma TailCountsArePositive(chain: seq<Block>, tail: seq<Block>, i: nat)
    requires ValidChain(chain) && Accepted(Replay(chain), tail) && i < |tail|
    requires forall j :: 0 <= j < |tail| && tail[j].body.height == 0 ==> tail[j].body.iterations > 0
    ensures tail[i].body.iterations > 0
  {
    var all := chain + tail;
    ValidIsChecked(chain);
    AcceptedIsChecked(Replay(chain), tail);
    assert Replay(chain).chain == chain;
    hide ValidChain, Accepted, Checked, Replay, Extend;
    forall z | 0 <= z < |all| && all[z].body.height == 0
      ensures all[z].body.iterations > 0
    {
      if z < |chain| {
        ValidZero(chain, z);
      } else {
        assert all[z] == tail[z - |chain|];
      }
    }
    CountsArePositive(all, |chain| + i);
    assert all[|chain| + i] == tail[i];
  }

  lemma ValidZero(chain: seq<Block>, z: nat)
    requires ValidChain(chain) && z < |chain| && chain[z].body.height == 0
    ensures chain[z] == GENESIS
  {
    HeightIsIndex(chain, z);
    ValidPrefix(chain, 1);
  }

  // ----- Ties -----------------------------------------------------------------------------------------------

  /** Hash agreement at a height reaches down to the last block at or below it that claims height 0. */
  lemma {:induction false} AgreementReachesZero(a: seq<Block>, b: seq<Block>, i: nat, j: nat)
    requires Checked(a) && Checked(b) && j <= i < |a| && i < |b| && SameAt(a, b, i) && LastZero(a, i) <= j
    ensures a[j] == b[j]
    decreases i - j
  {
    HashAt(a, i);
    HashAt(b, i);
    assert a[i].body == b[i].body;
    if j < i {
      assert a[i].body.height != 0;
      assert CheckedAt(a, i) && CheckedAt(b, i);
      assert a[..i][|a[..i]| - 1] == a[i - 1] && b[..i][|b[..i]| - 1] == b[i - 1];
      AgreementReachesZero(a, b, i - 1, j);
    }
  }

  /** The chains share a block that claims height 0 above the first height where they differ. */
  ghost predicate ShareLaterZero(a: seq<Block>, b: seq<Block>) {
    exists i :: FirstDifference(a, b, 0) < i < Min(|a|, |b|) && SameAt(a, b, i) && a[i].body.height == 0
  }

  lemma AgreementAboveIsShared(a: seq<Block>, b: seq<Block>, i: nat)
    requires Checked(a) && Checked(b) && FirstDifference(a, b, 0) < i < Min(|a|, |b|) && SameAt(a, b, i)
    ensures ShareLaterZero(a, b)
  {
    var d, z := FirstDifference(a, b, 0), LastZero(a, i);
    assert !SameAt(a, b, d);
    hide Checked, FirstDifference;
    AgreementReachesZero(a, b, i, Max(z, d));
    assert z > d && SameAt(a, b, z);
  }

  /** Agreement of two accepted chains at a height is agreement below it exactly where they share no later height 0 block. */
  lemma AgreementReachesDownIff(a: seq<Block>, b: seq<Block>)
    requires Checked(a) && Checked(b)
    ensures AgreesDownward(a, b) <==> !ShareLaterZero(a, b)
  {
    var d := FirstDifference(a, b, 0);
    hide Checked;
    if !AgreesDownward(a, b) {
      var i, j :| 0 <= j <= i < |a| && i < |b| && SameAt(a, b, i) && !SameAt(a, b, j);
      AgreementAboveIsShared(a, b, i);
    }
    if ShareLaterZero(a, b) {
      var i :| d < i < Min(|a|, |b|) && SameAt(a, b, i) && a[i].body.height == 0;
      assert !SameAt(a, b, d);
    }
  }

  /** On two such chains the binary search finds what the scan finds. */
  lemma SearchIsScan(a: seq<Block>, b: seq<Block>)
    requires Checked(a) && Checked(b) && !ShareLaterZero(a, b)
    ensures SearchFork(a, b) == FirstDifference(a, b, 0)
  {
    AgreementReachesDownIff(a, b);
    DownwardSearchIsScan(a, b);
  }

  lemma HashAt(chain: seq<Block>, i: nat)
    requires Checked(chain) && i < |chain|
    ensures HashChecks(chain[i])
  {
    if i > 0 {
      assert CheckedAt(chain, i);
    }
  }

  /** One chain is the other with more blocks on top. */
  predicate OneExtends(a: seq<Block>, b: seq<Block>) { a <= b || b <= a }

  /**
   Different tips leave a diverged height both chains have exactly when neither chain extends the
   other; where they tie on work and one does extend the other, the longer one has a block that claims
   height 0 with no positive count.
   */
  lemma TieHasSharedRangeIff(a: seq<Block>, b: seq<Block>)
    requires Checked(a) && Checked(b) && a[|a| - 1].hash != b[|b| - 1].hash
    ensures 1 <= FirstDifference(a, b, 0) < Min(|a|, |b|) <==> !OneExtends(a, b)
    ensures WorkOf(a) == WorkOf(b) && a <= b ==> exists i :: 0 <= i < |b| && ClaimsNoWork(b[i])
    ensures WorkOf(a) == WorkOf(b) && b <= a ==> exists i :: 0 <= i < |a| && ClaimsNoWork(a[i])
  {
    var d := FirstDifference(a, b, 0);
    assert SameAt(a, b, 0);
    forall i | 0 <= i < d
      ensures a[i] == b[i]
    {
      assert SameAt(a, b, i);
      HashAt(a, i);
      HashAt(b, i);
    }
    if a <= b {
      ExtensionRaisesWork(a, b);
    }
    if b <= a {
      ExtensionRaisesWork(b, a);
    }
  }

  predicate ClaimsNoWork(b: Block) { b.body.height == 0 && b.body.iterations <= 0 }

  lemma ExtensionRaisesWork(a: seq<Block>, b: seq<Block>)
    requires Checked(b) && a <= b && a != b && a != []
    ensures WorkOf(a) < WorkOf(b) || exists i :: 0 <= i < |b| && ClaimsNoWork(b[i])
  {
    if !exists i :: 0 <= i < |b| && ClaimsNoWork(b[i]) {
      assert forall z :: 0 <= z < |b| && b[z].body.height == 0 ==> !ClaimsNoWork(b[z]);
      forall i | 0 <= i < |b|
        ensures b[i].body.iterations > 0
      {
        CountsArePositive(b, i);
      }
      var more := b[|a|..];
      assert a + more == b && forall i :: 0 <= i < |more| ==> more[i] == b[|a| + i];
      WorkAppend(a, more);
      PositiveWork(more);
    }
  }

  lemma {:induction false} PositiveWork(tail: seq<Block>)
    requires tail != [] && forall i :: 0 <= i < |tail| ==> tail[i].body.iterations > 0
    ensures WorkOf(tail) > 0
  {
    if |tail| > 1 {
      PositiveWork(tail[1..]);
    }
  }
}
