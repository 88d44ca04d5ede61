/**
 Blocks, the retarget rule, and what makes a block acceptable on top of a chain.

 A block hash is symbolic: the digest of everything in the block but the hash itself, so equal
 hashes mean equal contents. A block still carries the hash it claims.
 */
module Blocks {
  import opened Collections
  import opened Ledger

  const BLOCK_SIZE_LIMIT: int := 2_000_000
  const VDF_ITERATIONS: int := 12_200_000
  const VDF_ADJUST_INTERVAL: int := 10_080
  const VDF_ADJUST_MIN_SECONDS: real := 100.0
  const VDF_ADJUST_NUMERATOR: int := 51
  const VDF_ADJUST_DENOMINATOR: int := 50
  const TIMESTAMP_SKEW_SECONDS: real := 30.0
  const MIN_BLOCK_SPACING_SECONDS: real := 90.0
  const GENESIS_TIMESTAMP: real := 1787869281.0

  datatype Hash = NoHash | Digest(body: Body)

  /** `proven` is the verdict of the VDF check for this builder, parent and iteration count. */
  datatype Body = Body(height: int, previous: Hash, timestamp: real, txs: seq<Tx>, builder: Option<Addr>,
                       key: string, proven: bool, iterations: int, size: int)

  datatype Block = Block(body: Body, hash: Hash)

  const GENESIS: Block :=
    var body := Body(0, NoHash, GENESIS_TIMESTAMP, [], None, "", false, VDF_ITERATIONS, 0);
    Block(body, Digest(body))

  datatype ChainState = ChainState(chain: seq<Block>, ledger: Ledger, work: int)

  predicate HashChecks(b: Block) { b.hash == Digest(b.body) }

  // ----- Retarget ---------------------------------------------------------------------------

  function Insert(x: real, s: seq<real>): seq<real> {
    if s == [] || x <= s[0] then [x] + s else [s[0]] + Insert(x, s[1..])
  }

  function Sorted(s: seq<real>): (r: seq<real>) {
    if s == [] then [] else Insert(s[0], Sorted(s[1..]))
  }

  lemma {:induction false} InsertLength(x: real, s: seq<real>)
    ensures |Insert(x, s)| == |s| + 1
  {
    if s != [] && x > s[0] {
      InsertLength(x, s[1..]);
    }
  }

  lemma {:induction false} SortedLength(s: seq<real>)
    ensures |Sorted(s)| == |s|
  {
    if s != [] {
      SortedLength(s[1..]);
      InsertLength(s[0], Sorted(s[1..]));
    }
  }

  function Median(s: seq<real>): real
    requires s != []
  {
    SortedLength(s);
    var r := Sorted(s);
    if |s| % 2 == 1 then r[|s| / 2] else (r[|s| / 2 - 1] + r[|s| / 2]) / 2.0
  }

  /** Seconds between consecutive blocks, for heights lo up to hi. */
  function Deltas(chain: seq<Block>, lo: int, hi: int): (d: seq<real>)
    requires 1 <= lo <= hi <= |chain|
    ensures |d| == hi - lo
  {
    seq(hi - lo, i requires 0 <= i < hi - lo => chain[lo + i].body.timestamp - chain[lo + i - 1].body.timestamp)
  }

  /** The next window's iteration count from the last one's, and how fast that window went. */
  function Bumped(prior: int, deltas: seq<real>): int {
    if deltas != [] && Median(deltas) < VDF_ADJUST_MIN_SECONDS
    then prior * VDF_ADJUST_NUMERATOR / VDF_ADJUST_DENOMINATOR
    else prior
  }

  /** The lookup: the value fixed at the last boundary, or at a boundary the rule applied to the window just done. */
  function GetVdfIterations(chain: seq<Block>): int {
    var next := |chain|;
    if next < VDF_ADJUST_INTERVAL then VDF_ITERATIONS
    else
      var boundary := next / VDF_ADJUST_INTERVAL * VDF_ADJUST_INTERVAL;
      if next > boundary then chain[boundary].body.iterations
      else
        var start := boundary - VDF_ADJUST_INTERVAL;
        Bumped(chain[start].body.iterations, Deltas(chain, Max(start, 1), boundary))
  }

  // ----- Validation ---------------------------------------------------------------------------

  /** Genesis needs no parent; the exemption is read off the height the block itself claims. */
  predicate ParentChecks(b: Block, chain: seq<Block>) {
    b.body.height == 0
    || (chain != [] && b.body.previous == chain[|chain| - 1].hash
        && b.body.height == chain[|chain| - 1].body.height + 1)
  }

  predicate SpacingChecks(b: Block, chain: seq<Block>) {
    chain != [] ==> b.body.timestamp >= chain[|chain| - 1].body.timestamp + MIN_BLOCK_SPACING_SECONDS
  }

  predicate BuilderChecks(b: Block, chain: seq<Block>) {
    b.body.height == 0
    || (b.body.builder.Some? && b.body.iterations == GetVdfIterations(chain) && b.body.proven)
  }

  /** Everything but the validator's own clock. */
  predicate Fits(cs: ChainState, b: Block) {
    && b.body.size <= BLOCK_SIZE_LIMIT
    && HashChecks(b) && ParentChecks(b, cs.chain) && SpacingChecks(b, cs.chain) && BuilderChecks(b, cs.chain)
    && ValidTxs(cs.ledger, b.body.txs, BoardFeeFloor(cs.ledger.posts))
  }

  predicate Valid(now: real, cs: ChainState, b: Block) {
    b.body.timestamp <= now + TIMESTAMP_SKEW_SECONDS && Fits(cs, b)
  }

  /** What a block does to the ledger: its transactions, then the builder's pay. */
  function LedgerAfter(l: Ledger, b: Block): Ledger {
    PayBuilder(ApplyTxs(l, b.body.txs), b.body.builder, Fees(b.body.txs))
  }

  function ApplyBlock(cs: ChainState, b: Block): ChainState {
    ChainState(cs.chain + [b], LedgerAfter(cs.ledger, b), cs.work + b.body.iterations)
  }

  /** One transaction of a block: validated on the running state, and applied to it. */
  method ApplyIfValid(t: Tx, floor: int, s: State) returns (ok: bool)
    modifies s
    ensures ok == ValidTx(old(s.Value()), t, floor)
    ensures s.Value() == (if ok then ApplyTx(old(s.Value()), t) else old(s.Value()))
    ensures s.dirty == if ok then old(s.dirty) + TxTouched(t) else old(s.dirty)
  {
    ok := StandsAlone(t)
          && t.nonce == (if t.sender in s.nonces then s.nonces[t.sender] else 0) + 1
          && Spend(t) <= (if t.sender in s.balances then s.balances[t.sender] else 0)
          && (t.board ==> t.fee >= floor);
    if ok {
      s.Apply(t);
    }
  }

  lemma NextTx(l: Ledger, txs: seq<Tx>, i: nat, floor: int)
    requires i < |txs|
    ensures ValidTxs(l, txs[i..], floor) <==> ValidTx(l, txs[i], floor) && ValidTxs(ApplyTx(l, txs[i]), txs[i + 1..], floor)
    ensures ApplyTxs(l, txs[i..]) == ApplyTxs(ApplyTx(l, txs[i]), txs[i + 1..])
    ensures TxsTouched(txs[i..]) == TxTouched(txs[i]) + TxsTouched(txs[i + 1..])
  {
    hide ValidTx, ApplyTx, TxTouched;
    assert txs[i..][0] == txs[i] && txs[i..][1..] == txs[i + 1..];
  }

  lemma NoMoreTxs(l: Ledger, txs: seq<Tx>, floor: int)
    ensures ValidTxs(l, txs[|txs|..], floor) && ApplyTxs(l, txs[|txs|..]) == l && TxsTouched(txs[|txs|..]) == {}
  {
  }

  /** Checks a block's transactions one by one against the running state, with the floor frozen at the start. */
  method ApplyTransactions(b: Block, s: State) returns (ok: bool)
    modifies s
    ensures ok == ValidTxs(old(s.Value()), b.body.txs, BoardFeeFloor(old(s.Value()).posts))
    ensures ok ==> s.Value() == ApplyTxs(old(s.Value()), b.body.txs)
    ensures ok ==> s.dirty == old(s.dirty) + TxsTouched(b.body.txs)
  {
    var floor := BoardFeeFloor(s.totalBoardPosts);
    hide ValidTx, ApplyTx, TxTouched, BoardFeeFloor, ValidTxs, ApplyTxs, TxsTouched;
    var i := 0;
    ghost var start, txs := s.Value(), b.body.txs;
    assert txs[0..] == txs;
    while i < |b.body.txs|
      invariant 0 <= i <= |txs|
      invariant ValidTxs(s.Value(), txs[i..], floor) == ValidTxs(start, txs, floor)
      invariant ApplyTxs(s.Value(), txs[i..]) == ApplyTxs(start, txs)
      invariant s.dirty + TxsTouched(txs[i..]) == old(s.dirty) + TxsTouched(txs)
    {
      NextTx(s.Value(), txs, i, floor);
      ok := ApplyIfValid(b.body.txs[i], floor, s);
      if !ok {
        return;
      }
      i := i + 1;
    }
    NoMoreTxs(s.Value(), txs, floor);
    ok := true;
  }

  /** The addresses a block marks: senders, recipients, and a builder who is paid. */
  function Touched(l: Ledger, b: Block): set<Addr> {
    TxsTouched(b.body.txs) + BuilderTouched(l, b.body.builder, Fees(b.body.txs))
  }

  lemma {:induction false} TxsKeepMinted(l: Ledger, txs: seq<Tx>)
    ensures ApplyTxs(l, txs).minted == l.minted
    decreases txs
  {
    if txs != [] {
      MintedUnmoved(l, txs[0]);
      TxsKeepMinted(ApplyTx(l, txs[0]), txs[1..]);
    }
  }

  /** A block moves no address it does not mark. */
  lemma BlockMovesTouched(l: Ledger, b: Block, a: Addr)
    requires a !in Touched(l, b)
    ensures SameAddress(l, LedgerAfter(l, b), a)
  {
    TxsMoveTouched(l, b.body.txs, a);
    TxsKeepMinted(l, b.body.txs);
  }

  /** The ledger after a block, as a copy of the one before: its transactions, then the builder's pay. */
  method ApplyBlockState(b: Block, s: State) returns (t: State)
    requires ValidTxs(s.Value(), b.body.txs, BoardFeeFloor(s.Value().posts))
    ensures fresh(t) && t.Value() == LedgerAfter(s.Value(), b) && t.dirty == s.dirty + Touched(s.Value(), b)
  {
    t := s.Snapshot();
    var ok := ApplyTransactions(b, t);
    TxsKeepMinted(s.Value(), b.body.txs);
    if b.body.builder.Some? {
      t.ApplyBuilderReward(b.body.builder.value, Fees(b.body.txs));
    }
  }

  // ----- Replay -----------------------------------------------------------------------------------

  /** The ledger a trusted chain replays to; blocks claiming height 0 are skipped. */
  function ReplayLedger(chain: seq<Block>): Ledger {
    if chain == [] then EMPTY
    else
      var before, b := ReplayLedger(chain[..|chain| - 1]), chain[|chain| - 1];
      if b.body.height == 0 then before else LedgerAfter(before, b)
  }

  function ReplayWork(chain: seq<Block>): int {
    if chain == [] then 0
    else
      var before, b := ReplayWork(chain[..|chain| - 1]), chain[|chain| - 1];
      if b.body.height > 0 then before + b.body.iterations else before
  }

  function Replay(chain: seq<Block>): ChainState { ChainState(chain, ReplayLedger(chain), ReplayWork(chain)) }

  /** A chain whose every block past genesis was accepted on the replay of the blocks before it. */
  ghost predicate ValidChain(chain: seq<Block>) {
    && chain != [] && chain[0] == GENESIS
    && (|chain| > 1 ==>
          var before, b := chain[..|chain| - 1], chain[|chain| - 1];
          ValidChain(before) && b.body.height != 0 && Fits(Replay(before), b))
  }

  lemma {:induction false} ValidPrefix(chain: seq<Block>, k: nat)
    requires ValidChain(chain) && 1 <= k <= |chain|
    ensures ValidChain(chain[..k])
  {
    if k < |chain| {
      ValidPrefix(chain[..|chain| - 1], k);
      assert chain[..|chain| - 1][..k] == chain[..k];
    } else {
      assert chain[..k] == chain;
    }
  }

  /** Block h of a valid chain was accepted on the blocks below it. */
  lemma ValidAt(chain: seq<Block>, h: nat)
    requires ValidChain(chain) && 1 <= h < |chain|
    ensures ValidChain(chain[..h]) && chain[h].body.height != 0 && Fits(Replay(chain[..h]), chain[h])
  {
    hide Fits, Replay;
    ValidPrefix(chain, h + 1);
    var p := chain[..h + 1];
    assert p[..|p| - 1] == chain[..h] && p[|p| - 1] == chain[h];
  }

  lemma {:induction false} HeightIsIndex(chain: seq<Block>, h: nat)
    requires ValidChain(chain) && h < |chain|
    ensures chain[h].body.height == h
  {
    if h > 0 {
      ValidAt(chain, h);
      HeightIsIndex(chain, h - 1);
    }
  }

  lemma LinkedToParent(chain: seq<Block>, h: nat)
    requires ValidChain(chain) && 1 <= h < |chain|
    ensures HashChecks(chain[h]) && chain[h].body.previous == chain[h - 1].hash
  {
    hide ValidTxs, GetVdfIterations, ReplayLedger, ReplayWork, ValidChain, BuilderChecks;
    ValidAt(chain, h);
    assert chain[..h][|chain[..h]| - 1] == chain[h - 1];
    assert ParentChecks(chain[h], chain[..h]);
  }

  /** Appending an accepted block and replaying agree. */
  lemma ApplyBlockIsReplay(chain: seq<Block>, b: Block)
    requires ValidChain(chain) && b.body.height != 0 && Fits(Replay(chain), b)
    ensures ApplyBlock(Replay(chain), b) == Replay(chain + [b]) && ValidChain(chain + [b])
  {
    var longer := chain + [b];
    assert longer[..|longer| - 1] == chain;
    HeightIsIndex(chain, |chain| - 1);
  }

  method FromChain(chain: seq<Block>) returns (cs: ChainState)
    ensures cs == Replay(chain)
  {
    var ledger, work := EMPTY, 0;
    for i := 0 to |chain|
      invariant ledger == ReplayLedger(chain[..i]) && work == ReplayWork(chain[..i])
    {
      var b := chain[i];
      assert chain[..i + 1][..i] == chain[..i];
      if b.body.height != 0 {
        ledger := LedgerAfter(ledger, b);
      }
      if b.body.height > 0 {
        work := work + b.body.iterations;
      }
    }
    assert chain[..|chain|] == chain;
    cs := ChainState(chain, ledger, work);
  }

  // ----- The height exemption ------------------------------------------------------------------------

  /** A tail accepted block by block from a chain state. */
  ghost predicate Accepted(cs: ChainState, tail: seq<Block>)
    decreases tail
  {
    tail == [] || (Fits(cs, tail[0]) && Accepted(ApplyBlock(cs, tail[0]), tail[1..]))
  }

  function Extend(cs: ChainState, tail: seq<Block>): ChainState
    decreases tail
  {
    if tail == [] then cs else Extend(ApplyBlock(cs, tail[0]), tail[1..])
  }

  /**
   An accepted tail's heights follow its positions exactly when none of its blocks claims height 0.
   Such a block is exempt from the parent and VDF checks wherever it stands.
   */
  lemma {:induction false} HeightsFollowIffNoneIsZero(cs: ChainState, tail: seq<Block>, base: nat)
    requires cs.chain != [] && cs.chain[|cs.chain| - 1].body.height == base && Accepted(cs, tail)
    ensures (forall i :: 0 <= i < |tail| ==> tail[i].body.height == base + 1 + i)
            <==> (forall i :: 0 <= i < |tail| ==> tail[i].body.height != 0)
    decreases tail
  {
    if tail != [] {
      if tail[0].body.height != 0 {
        HeightsFollowIffNoneIsZero(ApplyBlock(cs, tail[0]), tail[1..], base + 1);
        assert forall i :: 0 <= i < |tail[1..]| ==> tail[1..][i] == tail[i + 1];
        assert forall i :: 1 <= i < |tail| ==> tail[i] == tail[1..][i - 1];
      } else {
        assert tail[0].body.height != base + 1;
      }
    }
  }

  /** The exemption at work: on any valid chain a well-formed empty block claiming height 0 is accepted, with the iterations it claims. */
  lemma ZeroHeightIsAccepted(chain: seq<Block>, iterations: int)
    requires ValidChain(chain)
    ensures var body := Body(0, NoHash, chain[|chain| - 1].body.timestamp + MIN_BLOCK_SPACING_SECONDS,
                             [], None, "", false, iterations, 0);
            var b := Block(body, Digest(body));
            && Fits(Replay(chain), b)
            && ApplyBlock(Replay(chain), b).work == ReplayWork(chain) + iterations
            && ReplayWork(chain + [b]) == ReplayWork(chain)
  {
    var body := Body(0, NoHash, chain[|chain| - 1].body.timestamp + MIN_BLOCK_SPACING_SECONDS,
                     [], None, "", false, iterations, 0);
    var b := Block(body, Digest(body));
    assert (chain + [b])[..|chain|] == chain;
  }

  // ----- Supply over whole chains ------------------------------------------------------------------------

  function AllTxs(chain: seq<Block>): seq<Tx> {
    if chain == [] then [] else AllTxs(chain[..|chain| - 1]) + chain[|chain| - 1].body.txs
  }

  lemma PayBuilderKeepsNonces(l: Ledger, builder: Option<Addr>, fees: int)
    ensures PayBuilder(l, builder, fees).nonces == l.nonces
  {
  }

  /**
   After every block of every valid chain: balances sum to what was minted, the cap holds, no stored
   balance is zero, and each sender's nonces on the chain are 1, 2, ..., n.
   */
  lemma {:induction false} SupplyHolds(chain: seq<Block>, a: Addr)
    requires ValidChain(chain)
    ensures Conserves(ReplayLedger(chain), 0)
    ensures NoncesOf(AllTxs(chain), a) == Counting(0, Nonce(ReplayLedger(chain), a))
  {
    var before, b := chain[..|chain| - 1], chain[|chain| - 1];
    if |chain| == 1 {
      assert before == [] && b == GENESIS;
      assert AllTxs(before) == [] && AllTxs(chain) == [];
    } else {
      SupplyHolds(before, a);
      var l, floor := ReplayLedger(before), BoardFeeFloor(ReplayLedger(before).posts);
      TxsConserve(l, b.body.txs, floor, 0);
      BuilderClosesTheGap(ApplyTxs(l, b.body.txs), b.body.builder.value, Fees(b.body.txs), 0);
      NoncesCount(l, b.body.txs, floor, a);
      NoncesAppend(AllTxs(before), b.body.txs, a);
      PayBuilderKeepsNonces(ApplyTxs(l, b.body.txs), b.body.builder, Fees(b.body.txs));
      CountingAppend(0, Nonce(l, a), Nonce(ApplyTxs(l, b.body.txs), a));
    }
  }
}
