/**
 The balance ledger: balances, nonces, emission, and which addresses moved since the last write.
 `Ledger` is its value; the class `State` is the object the node updates in place.
 */
module Ledger {
  import opened Collections

  type Addr = string

  const SUPPLY_CAP: int := 21_000_000 * 100_000_000
  const DECAY_NUMERATOR: int := 1386294265029292275522718605160789
  const DECAY_DENOMINATOR: int := 10_000_000_000_000_000_000_000_000_000_000_000_000_000
  const BOARD_STEP_SIZE: int := 250
  const BOARD_FEE_RATIO: int := 3
  const MAX_OUTPUTS: int := 500
  const BURN_ADDRESS: Addr := "burn"

  datatype Output = Output(to: Addr, amount: int)

  /** `wellFormed` is the verdict of the checks not modelled: signature, address words, memo bytes. */
  datatype Tx = Tx(sender: Addr, outputs: seq<Output>, nonce: int, fee: int, board: bool, wellFormed: bool,
                   size: nat, bodySize: nat)

  datatype Ledger = Ledger(balances: map<Addr, int>, nonces: map<Addr, int>, minted: int, posts: int)

  const EMPTY: Ledger := Ledger(map[], map[], 0, 0)

  function Balance(l: Ledger, a: Addr): int { if a in l.balances then l.balances[a] else 0 }

  function Nonce(l: Ledger, a: Addr): int { if a in l.nonces then l.nonces[a] else 0 }

  function Credited(l: Ledger, a: Addr, amount: int): Ledger {
    l.(balances := l.balances[a := Balance(l, a) + amount])
  }

  /** Spending the last tick removes the entry. */
  function Debited(l: Ledger, a: Addr, amount: int): Ledger {
    var remaining := Balance(l, a) - amount;
    l.(balances := if remaining != 0 then l.balances[a := remaining] else l.balances - {a})
  }

  function TotalOut(outputs: seq<Output>): int {
    if outputs == [] then 0 else outputs[0].amount + TotalOut(outputs[1..])
  }

  function CreditAll(l: Ledger, outputs: seq<Output>): Ledger
    decreases outputs
  {
    if outputs == [] then l else CreditAll(Credited(l, outputs[0].to, outputs[0].amount), outputs[1..])
  }

  function Spend(t: Tx): int { TotalOut(t.outputs) + t.fee }

  function ApplyTx(l: Ledger, t: Tx): Ledger {
    var paid := CreditAll(Debited(l, t.sender, Spend(t)), t.outputs);
    paid.(nonces := paid.nonces[t.sender := t.nonce], posts := paid.posts + if t.board then 1 else 0)
  }

  function ApplyTxs(l: Ledger, txs: seq<Tx>): Ledger
    decreases txs
  {
    if txs == [] then l else ApplyTxs(ApplyTx(l, txs[0]), txs[1..])
  }

  function CanMint(minted: int): int { Max(0, SUPPLY_CAP - minted) }

  function Reward(minted: int): int { CanMint(minted) * DECAY_NUMERATOR / DECAY_DENOMINATOR }

  function Fees(txs: seq<Tx>): int { if txs == [] then 0 else txs[0].fee + Fees(txs[1..]) }

  function Minted(l: Ledger, a: Addr, amount: int): Ledger {
    Credited(l, a, amount).(minted := l.minted + amount)
  }

  /** Fees first, then the whole block reward, both to the builder. */
  function PayBuilder(l: Ledger, builder: Option<Addr>, fees: int): Ledger {
    if builder.None? then l
    else
      var collected := if fees > 0 then Credited(l, builder.value, fees) else l;
      var reward := Reward(collected.minted);
      if reward >= 1 then Minted(collected, builder.value, reward) else collected
  }

  // ----- Validation of one transaction ----------------------------------------------------

  function BoardFeeFloor(posts: int): int { Power(BOARD_FEE_RATIO, Max(posts, 0) / BOARD_STEP_SIZE) }

  function Power(b: int, e: nat): int { if e == 0 then 1 else b * Power(b, e - 1) }

  predicate OutputsOk(t: Tx) {
    && 1 <= |t.outputs| <= MAX_OUTPUTS
    && forall i :: 0 <= i < |t.outputs| ==> t.outputs[i].amount > 0 && t.outputs[i].to != t.sender
  }

  /** The checks that look only at the transaction. */
  predicate StandsAlone(t: Tx) {
    OutputsOk(t) && t.fee >= 0 && t.sender != BURN_ADDRESS && t.wellFormed
  }

  predicate ValidTx(l: Ledger, t: Tx, floor: int) {
    && StandsAlone(t)
    && t.nonce == Nonce(l, t.sender) + 1
    && Spend(t) <= Balance(l, t.sender)
    && (t.board ==> t.fee >= floor)
  }

  /** Each transaction is valid where it stands, against one floor for the whole block. */
  predicate ValidTxs(l: Ledger, txs: seq<Tx>, floor: int)
    decreases txs
  {
    txs == [] || (ValidTx(l, txs[0], floor) && ValidTxs(ApplyTx(l, txs[0]), txs[1..], floor))
  }

  // ----- Conservation -----------------------------------------------------------------------

  /** Ticks held, collected fees included, equal ticks minted; nothing stored is zero. */
  ghost predicate Conserves(l: Ledger, collected: int) {
    && MapSum(l.balances) + collected == l.minted
    && 0 <= l.minted <= SUPPLY_CAP && l.posts >= 0
    && (forall a :: a in l.balances ==> l.balances[a] > 0)
    && forall a :: a in l.nonces ==> l.nonces[a] >= 0
  }

  lemma CreditSum(l: Ledger, a: Addr, amount: int)
    ensures MapSum(Credited(l, a, amount).balances) == MapSum(l.balances) + amount
  {
    MapSumInsert(l.balances, a, Balance(l, a) + amount);
  }

  lemma DebitSum(l: Ledger, a: Addr, amount: int)
    requires a in l.balances
    ensures MapSum(Debited(l, a, amount).balances) == MapSum(l.balances) - amount
  {
    MapSumInsert(l.balances, a, Balance(l, a) - amount);
    MapSumRemove(l.balances, a);
  }

  lemma {:induction false} PositiveOutputs(outputs: seq<Output>)
    requires forall i :: 0 <= i < |outputs| ==> outputs[i].amount > 0
    ensures TotalOut(outputs) >= |outputs|
  {
    if outputs != [] {
      PositiveOutputs(outputs[1..]);
    }
  }

  lemma {:induction false} CreditAllConserves(l: Ledger, outputs: seq<Output>, collected: int)
    requires Conserves(l, collected)
    requires forall i :: 0 <= i < |outputs| ==> outputs[i].amount > 0
    ensures Conserves(CreditAll(l, outputs), collected - TotalOut(outputs))
    ensures CreditAll(l, outputs).nonces == l.nonces && CreditAll(l, outputs).minted == l.minted
    ensures CreditAll(l, outputs).posts == l.posts
    decreases outputs
  {
    if outputs != [] {
      CreditSum(l, outputs[0].to, outputs[0].amount);
      CreditAllConserves(Credited(l, outputs[0].to, outputs[0].amount), outputs[1..], collected - outputs[0].amount);
    }
  }

  /** A valid transaction moves exactly its fee out of the balances. */
  lemma TxConserves(l: Ledger, t: Tx, floor: int, collected: int)
    requires Conserves(l, collected) && ValidTx(l, t, floor)
    ensures Conserves(ApplyTx(l, t), collected + t.fee)
  {
    PositiveOutputs(t.outputs);
    var d := Debited(l, t.sender, Spend(t));
    DebitSum(l, t.sender, Spend(t));
    assert Conserves(d, collected + Spend(t));
    CreditAllConserves(d, t.outputs, collected + Spend(t));
  }

  /** Mid-block, the gap between what was minted and what is held is exactly the fees collected so far. */
  lemma {:induction false} TxsConserve(l: Ledger, txs: seq<Tx>, floor: int, collected: int)
    requires Conserves(l, collected) && ValidTxs(l, txs, floor)
    ensures Conserves(ApplyTxs(l, txs), collected + Fees(txs)) && Fees(txs) >= 0
    ensures ApplyTxs(l, txs).minted == l.minted
    decreases txs
  {
    if txs != [] {
      TxConserves(l, txs[0], floor, collected);
      MintedUnmoved(l, txs[0]);
      TxsConserve(ApplyTx(l, txs[0]), txs[1..], floor, collected + txs[0].fee);
    }
  }

  lemma {:induction false} CreditAllKeepsRest(l: Ledger, outputs: seq<Output>)
    ensures CreditAll(l, outputs).nonces == l.nonces && CreditAll(l, outputs).minted == l.minted
    ensures CreditAll(l, outputs).posts == l.posts
    decreases outputs
  {
    if outputs != [] {
      CreditAllKeepsRest(Credited(l, outputs[0].to, outputs[0].amount), outputs[1..]);
    }
  }

  lemma MintedUnmoved(l: Ledger, t: Tx)
    ensures ApplyTx(l, t).minted == l.minted
    ensures ApplyTx(l, t).nonces == l.nonces[t.sender := t.nonce]
  {
    CreditAllKeepsRest(Debited(l, t.sender, Spend(t)), t.outputs);
  }

  lemma RewardFitsCap(minted: int)
    requires 0 <= minted <= SUPPLY_CAP
    ensures 0 <= Reward(minted) && minted + Reward(minted) <= SUPPLY_CAP
  {
    var can := CanMint(minted);
    assert can * DECAY_NUMERATOR <= can * DECAY_DENOMINATOR;
  }

  /**
   How much a block mints: the most ticks whose share of what is left does not pass the decay ratio. What
   is left never runs out, and minting stops exactly when a whole tick would pass the ratio.
   */
  lemma RewardIsTheShare(minted: int, r: int)
    requires 0 <= minted < SUPPLY_CAP
    ensures r <= Reward(minted) <==> r * DECAY_DENOMINATOR <= (SUPPLY_CAP - minted) * DECAY_NUMERATOR
    ensures minted + Reward(minted) < SUPPLY_CAP
    ensures Reward(minted) < 1 <==> (SUPPLY_CAP - minted) * DECAY_NUMERATOR < DECAY_DENOMINATOR
  {
    var share := (SUPPLY_CAP - minted) * DECAY_NUMERATOR;
    var q := share / DECAY_DENOMINATOR;
    assert q * DECAY_DENOMINATOR <= share < (q + 1) * DECAY_DENOMINATOR;
  }

  /** The board's floor starts at one tick, holds for a step's worth of posts, and then multiplies. */
  lemma FloorIsAStaircase(posts: nat)
    ensures posts < BOARD_STEP_SIZE ==> BoardFeeFloor(posts) == 1
    ensures BoardFeeFloor(posts + BOARD_STEP_SIZE) == BOARD_FEE_RATIO * BoardFeeFloor(posts)
  {
    assert (posts + BOARD_STEP_SIZE) / BOARD_STEP_SIZE == posts / BOARD_STEP_SIZE + 1;
  }

  /** A list's board posts, in order. */
  function BoardPosts(txs: seq<Tx>): seq<Tx> {
    if txs == [] then [] else (if txs[0].board then [txs[0]] else []) + BoardPosts(txs[1..])
  }

  lemma {:induction false} BoardPostsAppend(x: seq<Tx>, y: seq<Tx>)
    ensures BoardPosts(x + y) == BoardPosts(x) + BoardPosts(y)
  {
    if x == [] {
      assert x + y == y;
    } else {
      var first: seq<Tx> := if x[0].board then [x[0]] else [];
      assert (x + y)[0] == x[0] && (x + y)[1..] == x[1..] + y;
      BoardPostsAppend(x[1..], y);
      assert BoardPosts(x + y) == first + BoardPosts(x[1..] + y) && BoardPosts(x) == first + BoardPosts(x[1..]);
      hide BoardPosts;
      assert first + (BoardPosts(x[1..]) + BoardPosts(y)) == first + BoardPosts(x[1..]) + BoardPosts(y);
    }
  }

  /** Every board post counts, and nothing else does. */
  lemma {:induction false} TxsPost(l: Ledger, txs: seq<Tx>)
    ensures ApplyTxs(l, txs).posts == l.posts + |BoardPosts(txs)|
    decreases txs
  {
    if txs != [] {
      CreditAllKeepsRest(Debited(l, txs[0].sender, Spend(txs[0])), txs[0].outputs);
      assert ApplyTx(l, txs[0]).posts == l.posts + if txs[0].board then 1 else 0;
      hide ApplyTx;
      TxsPost(ApplyTx(l, txs[0]), txs[1..]);
    }
  }

  /** Paying the builder hands back every fee collected in the block, whatever gap was there before, and mints within the cap. */
  lemma BuilderClosesTheGap(l: Ledger, builder: Addr, fees: int, gap: int)
    requires Conserves(l, gap + fees) && fees >= 0
    ensures Conserves(PayBuilder(l, Some(builder), fees), gap)
  {
    CreditSum(l, builder, fees);
    var collected := if fees > 0 then Credited(l, builder, fees) else l;
    RewardFitsCap(collected.minted);
    var reward := Reward(collected.minted);
    CreditSum(collected, builder, reward);
  }

  // ----- Nonces ------------------------------------------------------------------------------------

  function NoncesOf(txs: seq<Tx>, a: Addr): seq<int> {
    if txs == [] then []
    else (if txs[0].sender == a then [txs[0].nonce] else []) + NoncesOf(txs[1..], a)
  }

  /** from+1, from+2, ..., to. */
  function Counting(from: int, to: int): seq<int>
    decreases to - from
  {
    if from >= to then [] else [from + 1] + Counting(from + 1, to)
  }

  /** In an accepted run a sender's nonces are consecutive, starting after the one the ledger holds. */
  lemma {:induction false} NoncesCount(l: Ledger, txs: seq<Tx>, floor: int, a: Addr)
    requires ValidTxs(l, txs, floor)
    ensures Nonce(l, a) <= Nonce(ApplyTxs(l, txs), a)
    ensures NoncesOf(txs, a) == Counting(Nonce(l, a), Nonce(ApplyTxs(l, txs), a))
    decreases txs
  {
    if txs != [] {
      MintedUnmoved(l, txs[0]);
      NoncesCount(ApplyTx(l, txs[0]), txs[1..], floor, a);
    }
  }

  lemma {:induction false} CountingAppend(a: int, b: int, c: int)
    requires a <= b <= c
    ensures Counting(a, b) + Counting(b, c) == Counting(a, c)
    decreases b - a
  {
    if a < b {
      CountingAppend(a + 1, b, c);
    }
  }

  lemma {:induction false} NoncesAppend(x: seq<Tx>, y: seq<Tx>, a: Addr)
    ensures NoncesOf(x + y, a) == NoncesOf(x, a) + NoncesOf(y, a)
  {
    if x == [] {
      assert x + y == y;
    } else {
      var first, later := if x[0].sender == a then [x[0].nonce] else [], NoncesOf(x[1..], a);
      assert (x + y)[0] == x[0] && (x + y)[1..] == x[1..] + y;
      NoncesAppend(x[1..], y, a);
      assert NoncesOf(x + y, a) == first + NoncesOf(x[1..] + y, a);
      assert first + (later + NoncesOf(y, a)) == first + later + NoncesOf(y, a);
    }
  }

  lemma {:induction false} ApplyTxsAppend(l: Ledger, x: seq<Tx>, y: seq<Tx>)
    ensures ApplyTxs(l, x + y) == ApplyTxs(ApplyTxs(l, x), y)
    decreases x
  {
    if x == [] {
      assert x + y == y;
    } else {
      assert (x + y)[1..] == x[1..] + y;
      ApplyTxsAppend(ApplyTx(l, x[0]), x[1..], y);
    }
  }

  // ----- What moves ------------------------------------------------------------------------------------

  /** Balance entry and nonce entry of one address are untouched. */
  ghost predicate SameAddress(x: Ledger, y: Ledger, a: Addr) {
    && (a in x.balances <==> a in y.balances) && (a in x.balances ==> x.balances[a] == y.balances[a])
    && (a in x.nonces <==> a in y.nonces) && (a in x.nonces ==> x.nonces[a] == y.nonces[a])
  }

  function Recipients(outputs: seq<Output>): set<Addr> { set o | o in outputs :: o.to }

  function TxTouched(t: Tx): set<Addr> { {t.sender} + Recipients(t.outputs) }

  function TxsTouched(txs: seq<Tx>): set<Addr> {
    if txs == [] then {} else TxTouched(txs[0]) + TxsTouched(txs[1..])
  }

  /** A builder is marked when anything is credited to it. */
  function BuilderTouched(l: Ledger, builder: Option<Addr>, fees: int): set<Addr> {
    if builder.Some? && (fees > 0 || Reward(l.minted) >= 1) then {builder.value} else {}
  }

  lemma {:induction false} CreditsMoveRecipients(l: Ledger, outputs: seq<Output>, a: Addr)
    requires a !in Recipients(outputs)
    ensures SameAddress(l, CreditAll(l, outputs), a)
    decreases outputs
  {
    if outputs != [] {
      assert outputs[0].to in Recipients(outputs);
      CreditsMoveRecipients(Credited(l, outputs[0].to, outputs[0].amount), outputs[1..], a);
    }
  }

  /** Transactions move no address but their senders and recipients. */
  lemma {:induction false} TxsMoveTouched(l: Ledger, txs: seq<Tx>, a: Addr)
    requires a !in TxsTouched(txs)
    ensures SameAddress(l, ApplyTxs(l, txs), a)
    decreases txs
  {
    if txs != [] {
      CreditsMoveRecipients(Debited(l, txs[0].sender, Spend(txs[0])), txs[0].outputs, a);
      TxsMoveTouched(ApplyTx(l, txs[0]), txs[1..], a);
    }
  }

  // ----- The object ------------------------------------------------------------------------------------

  class State {
    var balances: map<Addr, int>
    var nonces: map<Addr, int>
    var totalMinted: int
    var totalBoardPosts: int
    var dirty: set<Addr>

    ghost function Value(): Ledger
      reads this
    {
      Ledger(balances, nonces, totalMinted, totalBoardPosts)
    }

    constructor ()
      ensures Value() == EMPTY && dirty == {}
    {
      balances, nonces, totalMinted, totalBoardPosts, dirty := map[], map[], 0, 0, {};
    }

    /** Rows of 0 on disk are kept for their nonce; as balances they are dropped. */
    constructor FromSnapshot(bals: map<Addr, int>, nons: map<Addr, int>, minted: int, posts: int)
      ensures balances == (map a | a in bals && bals[a] != 0 :: bals[a]) && nonces == nons
      ensures totalMinted == minted && totalBoardPosts == posts && dirty == {}
    {
      balances := map a | a in bals && bals[a] != 0 :: bals[a];
      nonces, totalMinted, totalBoardPosts, dirty := nons, minted, posts, {};
    }

    method Snapshot() returns (s: State)
      ensures fresh(s) && s.Value() == Value() && s.dirty == dirty
    {
      s := new State();
      s.balances, s.nonces, s.totalMinted := balances, nonces, totalMinted;
      s.totalBoardPosts, s.dirty := totalBoardPosts, dirty;
    }

    /** A non-positive amount is refused and nothing changes. */
    method Credit(a: Addr, amount: int) returns (ok: bool)
      modifies this
      ensures ok == (amount > 0)
      ensures Value() == if ok then Credited(old(Value()), a, amount) else old(Value())
      ensures dirty == if ok then old(dirty) + {a} else old(dirty)
    {
      ok := amount > 0;
      if ok {
        balances := balances[a := (if a in balances then balances[a] else 0) + amount];
        dirty := dirty + {a};
      }
    }

    method Debit(a: Addr, amount: int) returns (ok: bool)
      modifies this
      ensures ok == (0 < amount <= Balance(old(Value()), a))
      ensures Value() == if ok then Debited(old(Value()), a, amount) else old(Value())
      ensures dirty == if ok then old(dirty) + {a} else old(dirty)
    {
      var bal := if a in balances then balances[a] else 0;
      ok := 0 < amount <= bal;
      if ok {
        var remaining := bal - amount;
        if remaining != 0 {
          balances := balances[a := remaining];
        } else {
          balances := balances - {a};
        }
        dirty := dirty + {a};
      }
    }

    method SetNonce(a: Addr, nonce: int)
      modifies this
      ensures Value() == old(Value()).(nonces := old(nonces)[a := nonce]) && dirty == old(dirty) + {a}
    {
      nonces := nonces[a := nonce];
      dirty := dirty + {a};
    }

    /** Credits every recipient in turn. */
    method CreditRecipients(outputs: seq<Output>)
      requires forall i :: 0 <= i < |outputs| ==> outputs[i].amount > 0
      modifies this
      ensures Value() == CreditAll(old(Value()), outputs)
      ensures dirty == old(dirty) + Recipients(outputs)
    {
      ghost var start := Value();
      var i := 0;
      assert outputs[..0] == [];
      while i < |outputs|
        invariant 0 <= i <= |outputs|
        invariant CreditAll(Value(), outputs[i..]) == CreditAll(start, outputs)
        invariant dirty == old(dirty) + Recipients(outputs[..i])
      {
        assert outputs[i..][1..] == outputs[i + 1..];
        assert outputs[..i + 1] == outputs[..i] + [outputs[i]];
        assert Recipients(outputs[..i + 1]) == Recipients(outputs[..i]) + {outputs[i].to};
        var _ := Credit(outputs[i].to, outputs[i].amount);
        i := i + 1;
      }
      assert outputs[i..] == [] && outputs[..i] == outputs;
    }

    /** Applies a validated transaction; exactly its sender and its recipients are marked. */
    method Apply(t: Tx)
      requires ValidTx(Value(), t, t.fee)
      modifies this
      ensures Value() == ApplyTx(old(Value()), t)
      ensures dirty == old(dirty) + TxTouched(t)
    {
      PositiveOutputs(t.outputs);
      var ok := Debit(t.sender, TotalOut(t.outputs) + t.fee);
      CreditRecipients(t.outputs);
      SetNonce(t.sender, t.nonce);
      if t.board {
        totalBoardPosts := totalBoardPosts + 1;
      }
    }

    /** What a block does beyond its transactions. */
    method ApplyBuilderReward(builder: Addr, fees: int)
      modifies this
      ensures Value() == PayBuilder(old(Value()), Some(builder), fees)
      ensures dirty == old(dirty) + BuilderTouched(old(Value()), Some(builder), fees)
    {
      if fees > 0 {
        var _ := Credit(builder, fees);
      }
      var reward := Reward(totalMinted);
      if reward >= 1 {
        var _ := Credit(builder, reward);
        totalMinted := totalMinted + reward;
      }
    }

    method MarkPersisted()
      modifies this`dirty
      ensures dirty == {}
    {
      dirty := {};
    }
  }
}
