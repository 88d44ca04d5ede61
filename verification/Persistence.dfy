/**
 What is on disk: a row per address, the emission counters, and the two ways they are written, all
 of it or only what moved.
 */
module Persistence {
  import opened Collections
  import opened Ledger
  import opened Blocks
  import opened AcceptedChains

  datatype DiskRow = DiskRow(balance: int, nonce: int)

  datatype Disk = Disk(table: map<Addr, DiskRow>, minted: int, posts: int)

  predicate Known(l: Ledger, a: Addr) { a in l.balances || a in l.nonces }

  function RowFor(l: Ledger, a: Addr): DiskRow { DiskRow(Balance(l, a), Nonce(l, a)) }

  function Rewritten(l: Ledger): Disk {
    Disk(map a | a in l.balances.Keys + l.nonces.Keys :: RowFor(l, a), l.minted, l.posts)
  }

  function DeltaWritten(d: Disk, l: Ledger, dirty: set<Addr>): Disk {
    Disk((d.table - dirty) + (map a | a in dirty && Known(l, a) :: RowFor(l, a)), l.minted, l.posts)
  }

  /** What a restart reads back: every row's nonce, and the balances that are not 0. */
  function Loaded(d: Disk): Ledger {
    Ledger(map a | a in d.table && d.table[a].balance != 0 :: d.table[a].balance,
           map a | a in d.table :: d.table[a].nonce, d.minted, d.posts)
  }

  // ----- The table tracks the ledger -------------------------------------------------------------

  predicate RowAgrees(d: Disk, l: Ledger, a: Addr) {
    && (a in d.table <==> Known(l, a))
    && (a in d.table ==> d.table[a] == RowFor(l, a))
  }

  /** The table may differ from the live ledger only on addresses marked dirty. */
  ghost predicate DirtyCovers(d: Disk, l: Ledger, dirty: set<Addr>) {
    forall a :: a !in dirty ==> RowAgrees(d, l, a)
  }

  /** Equal to every reader of balances, nonces and counters. */
  ghost predicate SameReadings(x: Ledger, y: Ledger) {
    && (forall a :: Balance(x, a) == Balance(y, a) && Nonce(x, a) == Nonce(y, a))
    && x.minted == y.minted && x.posts == y.posts
  }

  /** Where the dirty set covers the difference, writing only the delta leaves exactly what a full rewrite leaves. */
  lemma DeltaEqualsRewrite(d: Disk, l: Ledger, dirty: set<Addr>)
    requires DirtyCovers(d, l, dirty)
    ensures DeltaWritten(d, l, dirty) == Rewritten(l)
  {
    var x, y := DeltaWritten(d, l, dirty).table, Rewritten(l).table;
    forall a
      ensures (a in x <==> a in y) && (a in x ==> x[a] == y[a])
    {
      if a !in dirty {
        assert RowAgrees(d, l, a);
      }
    }
  }

  // ----- Ledgers blocks lead to -----------------------------------------------------------------------

  /** No stored balance is zero, no nonce negative, and balances fall short of what was minted by this much. */
  ghost predicate Sound(l: Ledger) { Conserves(l, l.minted - MapSum(l.balances)) }

  lemma BlockKeepsSound(l: Ledger, b: Block)
    requires Sound(l) && ValidTxs(l, b.body.txs, BoardFeeFloor(l.posts))
    ensures Sound(LedgerAfter(l, b))
  {
    BlockMovesSupply(l, b, BoardFeeFloor(l.posts), l.minted - MapSum(l.balances));
    hide LedgerAfter;
  }

  /** The ledger of any chain built on a valid one by accepting blocks is sound, whatever heights they claim. */
  lemma AcceptedIsSound(chain: seq<Block>, tail: seq<Block>)
    requires ValidChain(chain) && Accepted(Replay(chain), tail)
    ensures Sound(Extend(Replay(chain), tail).ledger)
  {
    SupplyHoldsIff(chain, tail, "");
    hide ValidChain, Replay, Accepted, Extend;
  }

  /** What is read back is as sound as what was written, and would be written the same. */
  lemma SoundReadsBack(l: Ledger)
    requires Sound(l)
    ensures var back := Loaded(Rewritten(l));
            SameReadings(back, l) && back.balances == l.balances && Sound(back) && Rewritten(back) == Rewritten(l)
  {
    var back := Loaded(Rewritten(l));
    assert back.balances == l.balances;
    hide MapSum;
  }

  // ----- Runs of commits, reorgs, failed writes and restarts ------------------------------------------

  datatype Node = Node(live: Ledger, dirty: set<Addr>, disk: Disk)

  /** A reorg takes over the ledger of a chain whose tail was accepted block by block on a replayed prefix. */
  datatype Op =
    | Commit(block: Block, written: bool)
    | Reorg(prefix: seq<Block>, tail: seq<Block>, done: bool)
    | Restart

  /** What validation has established before the write. */
  ghost predicate OpOk(n: Node, op: Op) {
    match op
    case Commit(b, _) => ValidTxs(n.live, b.body.txs, BoardFeeFloor(n.live.posts))
    case Reorg(prefix, tail, _) => ValidChain(prefix) && Accepted(Replay(prefix), tail)
    case Restart => true
  }

  /** A failed commit has already moved the live ledger; a failed reorg has moved nothing. */
  function After(n: Node, op: Op): Node {
    match op
    case Commit(b, written) =>
      var after, dirty := LedgerAfter(n.live, b), n.dirty + Touched(n.live, b);
      if written then Node(after, {}, DeltaWritten(n.disk, after, dirty)) else Node(after, dirty, n.disk)
    case Reorg(prefix, tail, done) =>
      var replaced := Extend(Replay(prefix), tail).ledger;
      if done then Node(replaced, {}, Rewritten(replaced)) else n
    case Restart => Node(Loaded(n.disk), {}, n.disk)
  }

  function Wrote(op: Op): bool {
    match op
    case Commit(_, written) => written
    case Reorg(_, _, done) => done
    case Restart => false
  }

  function RunOps(n: Node, ops: seq<Op>): Node
    decreases ops
  {
    if ops == [] then n else RunOps(After(n, ops[0]), ops[1..])
  }

  ghost predicate OpsOk(n: Node, ops: seq<Op>)
    decreases ops
  {
    ops == [] || (OpOk(n, ops[0]) && OpsOk(After(n, ops[0]), ops[1..]))
  }

  /** The dirty set covers what the table lacks, and both the live ledger and the one on disk are sound. */
  ghost predicate Tracks(n: Node) {
    && DirtyCovers(n.disk, n.live, n.dirty) && Sound(n.live)
    && Sound(Loaded(n.disk)) && Rewritten(Loaded(n.disk)) == n.disk
  }

  lemma WrittenTracks(l: Ledger)
    requires Sound(l)
    ensures Tracks(Node(l, {}, Rewritten(l)))
  {
    SoundReadsBack(l);
  }

  lemma CommitIsCovered(n: Node, b: Block)
    requires DirtyCovers(n.disk, n.live, n.dirty)
    ensures DirtyCovers(n.disk, LedgerAfter(n.live, b), n.dirty + Touched(n.live, b))
  {
    forall a | a !in n.dirty + Touched(n.live, b)
      ensures RowAgrees(n.disk, LedgerAfter(n.live, b), a)
    {
      assert RowAgrees(n.disk, n.live, a);
      BlockMovesTouched(n.live, b, a);
    }
  }

  lemma OpKeepsTrack(n: Node, op: Op)
    requires Tracks(n) && OpOk(n, op)
    ensures Tracks(After(n, op))
    ensures Wrote(op) ==> After(n, op).disk == Rewritten(After(n, op).live)
  {
    hide Sound, DeltaWritten, Touched, LedgerAfter, Accepted, ValidChain;
    match op {
      case Commit(b, written) =>
        CommitIsCovered(n, b);
        BlockKeepsSound(n.live, b);
        if written {
          DeltaEqualsRewrite(n.disk, LedgerAfter(n.live, b), n.dirty + Touched(n.live, b));
          WrittenTracks(LedgerAfter(n.live, b));
        }
      case Reorg(prefix, tail, done) =>
        AcceptedIsSound(prefix, tail);
        WrittenTracks(Extend(Replay(prefix), tail).ledger);
      case Restart =>
        WrittenTracks(Loaded(n.disk));
    }
  }

  lemma {:induction false} RunKeepsTrack(n: Node, ops: seq<Op>)
    requires Tracks(n) && OpsOk(n, ops)
    ensures Tracks(RunOps(n, ops))
    decreases ops
  {
    if ops != [] {
      OpKeepsTrack(n, ops[0]);
      RunKeepsTrack(After(n, ops[0]), ops[1..]);
    }
  }

  /**
   Incremental persistence equals full rewrite. After any run of committed blocks, reorgs to accepted
   chains, failed writes and restarts the table differs from the live ledger only on dirty addresses, and
   right after a successful write a restart reads back the same balance and nonce for every address and
   the same counters. At every other point a restart reads back some earlier written ledger, itself sound.
   */
  lemma PersistenceIsFaithful(n: Node, ops: seq<Op>, last: Op)
    requires Tracks(n) && OpsOk(n, ops) && OpOk(RunOps(n, ops), last)
    ensures var m := After(RunOps(n, ops), last);
            && DirtyCovers(m.disk, m.live, m.dirty) && Sound(m.live) && Sound(Loaded(m.disk))
            && (Wrote(last) ==> m.disk == Rewritten(m.live) && SameReadings(Loaded(m.disk), m.live))
  {
    RunKeepsTrack(n, ops);
    OpKeepsTrack(RunOps(n, ops), last);
    hide After;
    if Wrote(last) {
      SoundReadsBack(After(RunOps(n, ops), last).live);
    }
  }

  /** A failed commit's changes are not lost: the next successful one writes both. */
  lemma FailedCommitIsCaughtUp(n: Node, a: Block, b: Block)
    requires Tracks(n) && OpsOk(n, [Commit(a, false), Commit(b, true)])
    ensures RunOps(n, [Commit(a, false), Commit(b, true)]).disk == Rewritten(LedgerAfter(LedgerAfter(n.live, a), b))
  {
    var first, second := Commit(a, false), Commit(b, true);
    assert [first, second][1..] == [second] && [second][1..] == [];
    assert RunOps(n, [first, second]) == RunOps(After(n, first), [second]);
    assert OpsOk(After(n, first), [second]);
    OpKeepsTrack(n, first);
    OpKeepsTrack(After(n, first), second);
  }

  // ----- The tables ------------------------------------------------------------------------------------

  class Storage {
    var table: map<Addr, DiskRow>
    var minted: int
    var posts: int

    ghost function Value(): Disk
      reads this
    {
      Disk(table, minted, posts)
    }

    constructor ()
      ensures Value() == Disk(map[], 0, 0)
    {
      table, minted, posts := map[], 0, 0;
    }

    /** Replaces every row, and marks the state written. */
    method RewriteState(s: State)
      modifies this, s`dirty
      ensures Value() == Rewritten(s.Value()) && s.dirty == {}
    {
      var rows: map<Addr, DiskRow> := map[];
      var todo := s.balances.Keys + s.nonces.Keys;
      while todo != {}
        invariant todo <= s.balances.Keys + s.nonces.Keys
        invariant rows == map a | a in s.balances.Keys + s.nonces.Keys - todo :: RowFor(s.Value(), a)
        decreases todo
      {
        var a :| a in todo;
        rows := rows[a := DiskRow(if a in s.balances then s.balances[a] else 0, if a in s.nonces then s.nonces[a] else 0)];
        todo := todo - {a};
      }
      table := rows;
      minted, posts := s.totalMinted, s.totalBoardPosts;
      s.MarkPersisted();
    }

    /** Writes only the addresses that moved: a row for each that is still known, none for the others. */
    method SaveStateDelta(s: State)
      modifies this, s`dirty
      ensures Value() == DeltaWritten(old(Value()), s.Value(), old(s.dirty)) && s.dirty == {}
    {
      minted, posts := s.totalMinted, s.totalBoardPosts;
      if s.dirty == {} {
        assert table - {} == table;
        return;
      }
      ghost var l, moved := s.Value(), s.dirty;
      var rows: map<Addr, DiskRow> := map[];
      var gone: set<Addr> := {};
      var todo := s.dirty;
      while todo != {}
        invariant todo <= moved
        invariant forall a :: a in rows <==> a in moved - todo && Known(l, a)
        invariant forall a :: a in rows ==> rows[a] == RowFor(l, a)
        invariant forall a :: a in gone <==> a in moved - todo && !Known(l, a)
        decreases todo
      {
        var a :| a in todo;
        if a in s.balances || a in s.nonces {
          rows := rows[a := DiskRow(if a in s.balances then s.balances[a] else 0, if a in s.nonces then s.nonces[a] else 0)];
        } else {
          gone := gone + {a};
        }
        todo := todo - {a};
      }
      assert (table - gone) + rows == DeltaWritten(old(Value()), l, moved).table;
      table := (table - gone) + rows;
      s.MarkPersisted();
    }

    /** What the startup path hands to `State.FromSnapshot`. */
    method LoadState() returns (s: State)
      ensures fresh(s) && s.Value() == Loaded(Value()) && s.dirty == {}
    {
      s := new State.FromSnapshot(map a | a in table :: table[a].balance, map a | a in table :: table[a].nonce, minted, posts);
    }
  }

  ghost function Both(s: State, store: Storage): Node
    reads s, store
  {
    Node(s.Value(), s.dirty, store.Value())
  }

  /** Applies a validated block to a copy of the state, which becomes the live one, and writes what moved unless the write fails. */
  method CommitBlock(s: State, store: Storage, b: Block, written: bool) returns (t: State)
    requires OpOk(Both(s, store), Commit(b, written))
    modifies store
    ensures fresh(t) && Both(t, store) == After(old(Both(s, store)), Commit(b, written))
  {
    t := ApplyBlockState(b, s);
    if written {
      store.SaveStateDelta(t);
    }
  }
}
